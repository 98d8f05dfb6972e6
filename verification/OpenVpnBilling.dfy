/**
 * OpenVPN billing end to end: what a poll folds, what it pays for every session
 * and bills to every user, and what holds over whole runs.
 */
module OpenVpnBilling {
  import opened Traffic
  import opened RunningTotals
  import opened OpenVpnStats
  import opened OpenVpnWorld

  // ------------------------------------------------------ what one poll folds

  /** Base lines after folding rows: the row where there is one, the old base line elsewhere. */
  lemma {:induction false} FoldRowsSeen(t: Tally, rows: seq<Row>, n: nat, cid: Name)
    requires n <= |rows| && Distinct(rows)
    ensures (forall i :: 0 <= i < n ==> rows[i].clientID != cid) ==>
              (cid in FoldRows(t, rows, n).seen <==> cid in t.seen)
              && (cid in t.seen ==> FoldRows(t, rows, n).seen[cid] == t.seen[cid])
    ensures forall i :: 0 <= i < n && rows[i].clientID == cid ==>
              cid in FoldRows(t, rows, n).seen && FoldRows(t, rows, n).seen[cid] == rows[i]
  {
    if n > 0 {
      FoldRowsSeen(t, rows, n - 1, cid);
    }
  }

  /** Folding ended sessions drops their base lines and no others. */
  lemma {:induction false} FoldEndsSeen(t: Tally, ended: seq<Row>, n: nat, cid: Name)
    requires n <= |ended|
    ensures cid in FoldEnds(t, ended, n).seen <==>
              cid in t.seen && forall i :: 0 <= i < n ==> ended[i].clientID != cid
    ensures cid in FoldEnds(t, ended, n).seen ==> FoldEnds(t, ended, n).seen[cid] == t.seen[cid]
  {
    if n > 0 {
      FoldEndsSeen(t, ended, n - 1, cid);
    }
  }

  lemma {:induction false} PaidUpToAt(paid: map<Name, Bytes>, rows: seq<Row>, n: nat, cid: Name)
    requires n <= |rows| && Distinct(rows)
    ensures (forall i :: 0 <= i < n ==> rows[i].clientID != cid) ==>
              (cid in PaidUpTo(paid, rows, n) <==> cid in paid)
              && (cid in paid ==> PaidUpTo(paid, rows, n)[cid] == paid[cid])
    ensures forall i :: 0 <= i < n && rows[i].clientID == cid ==>
              cid in PaidUpTo(paid, rows, n) && PaidUpTo(paid, rows, n)[cid] == rows[i].bytes
  {
    if n > 0 {
      PaidUpToAt(paid, rows, n - 1, cid);
    }
  }

  /** What has been paid for a row's session is its base line, and the row is ahead of it. */
  ghost predicate Payable(seen: map<Name, Row>, paid: map<Name, Bytes>, owner: map<Name, Name>, row: Row) {
    && row.clientID in owner && owner[row.clientID] == row.commonName
    && row.clientID in paid
    && (forall d :: At(paid, row.clientID, d) == SeenOf(seen, row.clientID, d) <= row.bytes.Of(d))
  }

  lemma RowBills(t: Tally, row: Row, paid: map<Name, Bytes>, owner: map<Name, Name>, cn: Name, d: Direction)
    requires Payable(t.seen, paid, owner, row)
    ensures At(FoldRow(t, row).growth, cn, d) - At(t.growth, cn, d)
         == TotalOf(paid[row.clientID := row.bytes], owner, cn, d) - TotalOf(paid, owner, cn, d)
  {
    hide TotalOf;
    TotalOfUpdate(paid, owner, cn, row.clientID, row.bytes, d);
    AddedAt(t.growth, row.commonName, RowDelta(t.seen, row, Uplink), RowDelta(t.seen, row, Downlink), cn, d);
    hide Added;
  }

  lemma EndBills(t: Tally, fin: Row, paid: map<Name, Bytes>, owner: map<Name, Name>, cn: Name, d: Direction)
    requires Payable(t.seen, paid, owner, fin)
    ensures At(FoldEnd(t, fin).growth, cn, d) - At(t.growth, cn, d)
         == TotalOf(paid[fin.clientID := fin.bytes], owner, cn, d) - TotalOf(paid, owner, cn, d)
  {
    hide TotalOf;
    TotalOfUpdate(paid, owner, cn, fin.clientID, fin.bytes, d);
    AddedAt(t.growth, fin.commonName, EndDelta(t.seen, fin, Uplink), EndDelta(t.seen, fin, Downlink), cn, d);
    hide Added;
  }

  lemma RowStillPayable(t: Tally, rows: seq<Row>, n: nat, paid: map<Name, Bytes>, owner: map<Name, Name>)
    requires n < |rows| && Distinct(rows) && Payable(t.seen, paid, owner, rows[n])
    ensures Payable(FoldRows(t, rows, n).seen, PaidUpTo(paid, rows, n), owner, rows[n])
  {
    FoldRowsSeen(t, rows, n, rows[n].clientID);
    PaidUpToAt(paid, rows, n, rows[n].clientID);
    hide FoldRows, PaidUpTo;
  }

  lemma EndStillPayable(t: Tally, ended: seq<Row>, n: nat, paid: map<Name, Bytes>, owner: map<Name, Name>)
    requires n < |ended| && Distinct(ended) && Payable(t.seen, paid, owner, ended[n])
    ensures Payable(FoldEnds(t, ended, n).seen, PaidUpTo(paid, ended, n), owner, ended[n])
  {
    FoldEndsSeen(t, ended, n, ended[n].clientID);
    PaidUpToAt(paid, ended, n, ended[n].clientID);
    hide FoldEnds, PaidUpTo;
  }

  /** The growth folded from rows is exactly what moves each user's paid total. */
  lemma {:induction false} FoldRowsBill(t: Tally, rows: seq<Row>, n: nat, paid: map<Name, Bytes>,
                                        owner: map<Name, Name>, cn: Name, d: Direction)
    requires n <= |rows| && Distinct(rows)
    requires forall i :: 0 <= i < |rows| ==> Payable(t.seen, paid, owner, rows[i])
    ensures At(FoldRows(t, rows, n).growth, cn, d) - At(t.growth, cn, d)
         == TotalOf(PaidUpTo(paid, rows, n), owner, cn, d) - TotalOf(paid, owner, cn, d)
  {
    hide TotalOf, FoldRow, Payable, At;
    if n > 0 {
      FoldRowsBill(t, rows, n - 1, paid, owner, cn, d);
      RowStillPayable(t, rows, n - 1, paid, owner);
      RowBills(FoldRows(t, rows, n - 1), rows[n - 1], PaidUpTo(paid, rows, n - 1), owner, cn, d);
    }
  }

  lemma {:induction false} FoldEndsBill(t: Tally, ended: seq<Row>, n: nat, paid: map<Name, Bytes>,
                                        owner: map<Name, Name>, cn: Name, d: Direction)
    requires n <= |ended| && Distinct(ended)
    requires forall i :: 0 <= i < |ended| ==> Payable(t.seen, paid, owner, ended[i])
    ensures At(FoldEnds(t, ended, n).growth, cn, d) - At(t.growth, cn, d)
         == TotalOf(PaidUpTo(paid, ended, n), owner, cn, d) - TotalOf(paid, owner, cn, d)
  {
    hide TotalOf, FoldEnd, Payable, At;
    if n > 0 {
      FoldEndsBill(t, ended, n - 1, paid, owner, cn, d);
      EndStillPayable(t, ended, n - 1, paid, owner);
      EndBills(FoldEnds(t, ended, n - 1), ended[n - 1], PaidUpTo(paid, ended, n - 1), owner, cn, d);
    }
  }

  // ------------------------------------------------------------------ collect

  /** A poll leaves base lines for exactly the rows whose session has not ended. */
  lemma CollectedSeen(b: Books, rows: seq<Row>, cid: Name)
    requires Distinct(rows)
    ensures cid in Collected(b, rows).seen <==> cid in ClientIDs(rows) && cid !in ClientIDs(b.ended)
    ensures forall i :: 0 <= i < |rows| && rows[i].clientID == cid && cid !in ClientIDs(b.ended) ==>
              cid in Collected(b, rows).seen && Collected(b, rows).seen[cid] == rows[i]
  {
    var t := FoldRows(Tally(b.seen, map[]), rows, |rows|);
    FoldRowsSeen(Tally(b.seen, map[]), rows, |rows|, cid);
    FoldEndsSeen(t, b.ended, |b.ended|, cid);
    hide FoldRows, FoldEnds;
  }

  lemma CollectKeepsTransport(w: World)
    requires Transport(w) && w.phase.Holding?
    ensures Transport(Billed(w, w.phase.rows))
  {
    var rows := w.phase.rows;
    assert RowsSound(w, rows) && Older(w, rows, w.status, 0) && RowsFit(w, w.status) && (w.timedOut || NoneSettled(w, rows));
    hide NamesSound, SeenSound, QueueSound, StreamSound, LeaversOnStream, StatusSound, Timely, LastSound, AnswersAhead, AnswersInOrder, RebilledSound;
    hide Billed, RowsSound, RowsFit, NoneSettled, Older;
    CollectKeepsSeen(w, rows);
    CollectKeepsStatus(w, rows);
    CollectKeepsLast(w, rows);
    CollectKeepsRebilled(w, rows);
    CollectKeepsStream(w, rows);
    CollectKeepsAnswers(w, rows);
  }

  /** A poll settles the queued sessions and leaves everything else about them, the stream and the last answer alone. */
  lemma CollectSettles(w: World, rows: seq<Row>)
    ensures var w' := Billed(w, rows);
            && w'.stream == w.stream && w'.status == w.status && w'.phase == Idle && w'.last == rows
            && w'.books == Collected(w.books, rows) && w'.timedOut == w.timedOut && w'.sessions == SettleQueued(w.sessions)
  {
    hide Collected, Folded, Absorbed, Rebill, SettleQueued;
  }

  lemma CollectKeepsStream(w: World, rows: seq<Row>)
    requires NamesSound(w) && StreamSound(w) && LeaversOnStream(w)
    ensures NamesSound(Billed(w, rows)) && StreamSound(Billed(w, rows)) && LeaversOnStream(Billed(w, rows))
  {
    CollectSettles(w, rows);
    hide Billed, EndsBefore;
  }

  lemma CollectKeepsAnswers(w: World, rows: seq<Row>)
    requires AnswersAhead(w) && AnswersInOrder(w)
    ensures AnswersAhead(Billed(w, rows)) && AnswersInOrder(Billed(w, rows)) && Timely(Billed(w, rows))
  {
    var w' := Billed(w, rows);
    CollectSettles(w, rows);
    hide Billed, EndsBefore;
    forall newer, p | RowsFit(w, newer) ensures RowsFit(w', newer) && (RowsAhead(w, newer, p) ==> RowsAhead(w', newer, p)) {
    }
    forall older, newer, p | Older(w, older, newer, p) ensures Older(w', older, newer, p) {
    }
    hide RowsFit, RowsAhead, Older;
  }

  lemma CollectKeepsSeen(w: World, rows: seq<Row>)
    requires QueueSound(w) && RowsSound(w, rows)
    ensures SeenSound(Billed(w, rows)) && QueueSound(Billed(w, rows))
  {
    var w' := Billed(w, rows);
    CollectSettles(w, rows);
    assert w'.books.ended == [];
    hide Billed;
    forall cid | cid in w'.books.seen
      ensures && cid in w'.sessions && w'.books.seen[cid].bytes.NonNegative()
              && w'.books.seen[cid].bytes.AtMost(w'.sessions[cid].bytes)
    {
      CollectedSeen(w.books, rows, cid);
      var i :| 0 <= i < |rows| && rows[i].clientID == cid;
    }
  }

  /** An answer that came after the copy was made is ahead of the new base lines. */
  lemma CollectKeepsStatus(w: World, rows: seq<Row>)
    requires RowsSound(w, rows) && RowsFit(w, w.status) && Older(w, rows, w.status, 0)
    ensures StatusSound(Billed(w, rows))
  {
    var w', newer := Billed(w, rows), w.status;
    CollectSettles(w, rows);
    NoEndsBeforeTheFirst(w.stream);
    hide Billed, EndsBefore, Collected;
    assert RowsFit(w', newer);
    forall cid | cid in w'.books.seen ensures exists i :: 0 <= i < |rows| && rows[i].clientID == cid && w'.books.seen[cid] == rows[i] {
      CollectedSeen(w.books, rows, cid);
      var i :| 0 <= i < |rows| && rows[i].clientID == cid;
    }
    forall cid | cid in w'.books.seen && cid in w'.sessions && w'.sessions[cid].stage.Awaited() ensures cid in ClientIDs(newer) {
      assert cid in ClientIDs(rows);
    }
  }

  lemma CollectKeepsLast(w: World, rows: seq<Row>)
    requires QueueSound(w) && RowsSound(w, rows)
    ensures LastSound(Billed(w, rows))
  {
    var w' := Billed(w, rows);
    CollectSettles(w, rows);
    hide Billed, Collected;
    forall i | 0 <= i < |rows|
      ensures var cid := rows[i].clientID;
              && cid in w'.sessions
              && if cid in w'.books.seen then w'.books.seen[cid] == rows[i] else w'.sessions[cid].stage.Settled?
    {
      CollectedSeen(w.books, rows, rows[i].clientID);
      assert rows[i].clientID in ClientIDs(rows);
    }
  }

  // ------------------------------------------------------------- re-billing

  lemma BaselineAt(w: World, cid: Name, d: Direction)
    requires cid in w.sessions
    ensures cid in Baseline(w) && At(Baseline(w), cid, d) == SeenOf(w.books.seen, cid, d)
  {
  }

  /** What is billed again for a settled session: its row, less a base line it may have got back. */
  lemma RebillIs(w: World, rows: seq<Row>, cid: Name, d: Direction)
    requires Distinct(rows) && cid in w.sessions
    ensures cid !in ClientIDs(rows) ==> Rebill(w, rows, cid, d) == 0
    ensures forall i :: 0 <= i < |rows| && rows[i].clientID == cid ==>
              Rebill(w, rows, cid, d)
              == if w.sessions[cid].stage.Settled? then rows[i].bytes.Of(d) - SeenOf(w.books.seen, cid, d) else 0
  {
    PaidUpToAt(Baseline(w), rows, |rows|, cid);
    BaselineAt(w, cid, d);
    hide PaidUpTo, Baseline;
    assert cid !in ClientIDs(rows) ==> forall i :: 0 <= i < |rows| ==> rows[i].clientID != cid;
  }

  lemma RebillNonNegative(w: World, rows: seq<Row>, cid: Name, d: Direction)
    requires RowsSound(w, rows) && cid in w.sessions
    ensures 0 <= Rebill(w, rows, cid, d)
    ensures NoneSettled(w, rows) ==> Rebill(w, rows, cid, d) == 0
  {
    RebillIs(w, rows, cid, d);
    hide Rebill;
    if cid in ClientIDs(rows) {
      var i :| 0 <= i < |rows| && rows[i].clientID == cid;
      assert 0 <= rows[i].bytes.Of(d) && SeenOf(w.books.seen, cid, d) <= rows[i].bytes.Of(d);
    }
  }

  lemma CollectKeepsRebilled(w: World, rows: seq<Row>)
    requires RebilledSound(w) && RowsSound(w, rows) && (w.timedOut || NoneSettled(w, rows))
    ensures RebilledSound(Billed(w, rows))
  {
    forall cid | cid in w.sessions
      ensures 0 <= Rebill(w, rows, cid, Uplink) && 0 <= Rebill(w, rows, cid, Downlink)
      ensures !w.timedOut ==> Rebill(w, rows, cid, Uplink) == 0 == Rebill(w, rows, cid, Downlink)
    {
      RebillNonNegative(w, rows, cid, Uplink);
      RebillNonNegative(w, rows, cid, Downlink);
    }
    hide Rebill, RowsSound, NoneSettled, Collected, Folded, Absorbed;
  }

  // -------------------------------------------------------------- what it pays

  lemma RowsPayable(w: World, rows: seq<Row>)
    requires SeenSound(w) && RowsSound(w, rows)
    ensures forall i :: 0 <= i < |rows| ==> Payable(w.books.seen, Baseline(w), OwnerOf(w), rows[i])
  {
  }

  lemma EndsPayable(w: World, rows: seq<Row>, i: nat)
    requires NamesSound(w) && SeenSound(w) && QueueSound(w) && RowsSound(w, rows) && i < |w.books.ended|
    ensures Payable(FoldRows(Tally(w.books.seen, map[]), rows, |rows|).seen,
                    PaidUpTo(Baseline(w), rows, |rows|), OwnerOf(w), w.books.ended[i])
  {
    var cid, t := w.books.ended[i].clientID, Tally(w.books.seen, map[]);
    assert w.books.ended[i] == RowOf(w, cid);
    hide FoldRows, PaidUpTo, Baseline, QueueSound;
    FoldRowsSeen(t, rows, |rows|, cid);
    PaidUpToAt(Baseline(w), rows, |rows|, cid);
    BaselineAt(w, cid, Uplink);
    BaselineAt(w, cid, Downlink);
    if j :| 0 <= j < |rows| && rows[j].clientID == cid {
      assert rows[j].bytes.AtMost(w.sessions[cid].bytes);
    }
  }

  /** What the base lines say after a poll's rows and ends. */
  ghost function Advanced(w: World, rows: seq<Row>): map<Name, Bytes> {
    PaidUpTo(PaidUpTo(Baseline(w), rows, |rows|), w.books.ended, |w.books.ended|)
  }

  lemma AdvancedAt(w: World, rows: seq<Row>, cid: Name)
    requires QueueSound(w) && RowsSound(w, rows)
    ensures cid in Advanced(w, rows) <==> cid in w.sessions
    ensures forall i :: 0 <= i < |w.books.ended| && w.books.ended[i].clientID == cid ==> Advanced(w, rows)[cid] == w.books.ended[i].bytes
    ensures forall i :: cid !in ClientIDs(w.books.ended) && 0 <= i < |rows| && rows[i].clientID == cid ==> Advanced(w, rows)[cid] == rows[i].bytes
    ensures cid in w.sessions && cid !in ClientIDs(w.books.ended) && cid !in ClientIDs(rows) ==> Advanced(w, rows)[cid] == Baseline(w)[cid]
  {
    PaidUpToAt(Baseline(w), rows, |rows|, cid);
    PaidUpToAt(PaidUpTo(Baseline(w), rows, |rows|), w.books.ended, |w.books.ended|, cid);
    hide PaidUpTo;
    assert cid !in ClientIDs(rows) ==> forall i :: 0 <= i < |rows| ==> rows[i].clientID != cid;
    assert cid !in ClientIDs(w.books.ended) ==> forall i :: 0 <= i < |w.books.ended| ==> w.books.ended[i].clientID != cid;
  }

  /** What a poll moves a session's base line by is what it adds to the session's payments and to what was billed again. */
  ghost predicate Balanced(w: World, rows: seq<Row>, cid: Name, d: Direction)
    requires cid in w.sessions
  {
    At(Advanced(w, rows), cid, d) - At(Baseline(w), cid, d)
    == (At(PaidBySession(Billed(w, rows)), cid, d) - At(PaidBySession(w), cid, d)) + Rebill(w, rows, cid, d)
  }

  lemma PaidThen(w: World, rows: seq<Row>, cid: Name, d: Direction)
    requires cid in w.sessions
    ensures var seen := Collected(w.books, rows).seen;
            At(PaidBySession(Billed(w, rows)), cid, d)
            == if w.sessions[cid].stage.Queued? || w.sessions[cid].stage.Settled? then w.sessions[cid].bytes.Of(d)
               else SeenOf(seen, cid, d)
  {
    hide Collected, Folded, Absorbed, Rebill;
  }

  lemma PaidNow(w: World, cid: Name, d: Direction)
    requires cid in w.sessions
    ensures At(PaidBySession(w), cid, d)
         == if w.sessions[cid].stage.Settled? then w.sessions[cid].bytes.Of(d) else SeenOf(w.books.seen, cid, d)
  {
  }

  lemma EndedBalanced(w: World, rows: seq<Row>, i: nat, d: Direction)
    requires QueueSound(w) && RowsSound(w, rows) && i < |w.books.ended|
    ensures Balanced(w, rows, w.books.ended[i].clientID, d)
  {
    var cid := w.books.ended[i].clientID;
    assert w.sessions[cid].stage.Queued? && w.books.ended[i] == RowOf(w, cid);
    hide Advanced, Billed, PaidBySession, Baseline, Collected, PaidUpTo;
    AdvancedAt(w, rows, cid);
    BaselineAt(w, cid, d);
    PaidThen(w, rows, cid, d);
    PaidNow(w, cid, d);
    hide QueueSound, RowsSound;
  }

  lemma RowBalanced(w: World, rows: seq<Row>, i: nat, d: Direction)
    requires QueueSound(w) && RowsSound(w, rows) && i < |rows| && rows[i].clientID !in ClientIDs(w.books.ended)
    ensures Balanced(w, rows, rows[i].clientID, d)
  {
    var cid := rows[i].clientID;
    assert !w.sessions[cid].stage.Queued? && cid in ClientIDs(rows);
    hide Advanced, Billed, PaidBySession, Baseline, Collected, Rebill;
    AdvancedAt(w, rows, cid);
    CollectedSeen(w.books, rows, cid);
    BaselineAt(w, cid, d);
    PaidThen(w, rows, cid, d);
    PaidNow(w, cid, d);
    RebillIs(w, rows, cid, d);
    hide QueueSound, RowsSound;
  }

  lemma OtherBalanced(w: World, rows: seq<Row>, cid: Name, d: Direction)
    requires QueueSound(w) && RowsSound(w, rows) && cid in w.sessions
    requires cid !in ClientIDs(w.books.ended) && cid !in ClientIDs(rows)
    requires cid in w.books.seen ==> w.sessions[cid].stage.Settled?
    ensures Balanced(w, rows, cid, d)
  {
    assert !w.sessions[cid].stage.Queued?;
    hide Advanced, Billed, PaidBySession, Baseline, Collected, Rebill;
    AdvancedAt(w, rows, cid);
    CollectedSeen(w.books, rows, cid);
    BaselineAt(w, cid, d);
    PaidThen(w, rows, cid, d);
    PaidNow(w, cid, d);
    RebillIs(w, rows, cid, d);
    hide QueueSound, RowsSound;
  }

  /** After a poll, a session is paid up to its row, or in full if its end was queued; anything more is billed again. */
  lemma {:induction false} CollectPays(w: World, cid: Name, d: Direction)
    requires Transport(w) && w.phase.Holding? && cid in w.sessions
    ensures Balanced(w, w.phase.rows, cid, d)
  {
    var rows, ended := w.phase.rows, w.books.ended;
    assert RowsSound(w, rows) && QueueSound(w);
    hide Transport, Balanced;
    if i :| 0 <= i < |ended| && ended[i].clientID == cid {
      EndedBalanced(w, rows, i, d);
    } else if i :| 0 <= i < |rows| && rows[i].clientID == cid {
      RowBalanced(w, rows, i, d);
    } else {
      OtherBalanced(w, rows, cid, d);
    }
  }

  // -------------------------------------------------------------------- money

  /** The growth of one poll, in terms of base lines. */
  lemma FoldedGrows(w: World, rows: seq<Row>, cn: Name, d: Direction)
    requires NamesSound(w) && SeenSound(w) && QueueSound(w) && RowsSound(w, rows)
    ensures At(Folded(w.books, rows).growth, cn, d)
         == TotalOf(Advanced(w, rows), OwnerOf(w), cn, d) - TotalOf(Baseline(w), OwnerOf(w), cn, d)
  {
    var ended, owner := w.books.ended, OwnerOf(w);
    var start, base := Tally(w.books.seen, map[]), Baseline(w);
    var t, paid := FoldRows(start, rows, |rows|), PaidUpTo(base, rows, |rows|);
    RowsPayable(w, rows);
    forall i | 0 <= i < |ended| ensures Payable(t.seen, paid, owner, ended[i]) {
      EndsPayable(w, rows, i);
    }
    hide Payable, TotalOf, PaidUpTo, FoldRows, FoldEnds;
    FoldRowsBill(start, rows, |rows|, base, owner, cn, d);
    FoldEndsBill(t, ended, |ended|, paid, owner, cn, d);
  }

  /** What one poll adds to a user's running total is what it adds to their sessions' payments, and what it bills again. */
  lemma {:induction false} CollectGrows(w: World, cn: Name, d: Direction)
    requires Transport(w) && w.phase.Holding?
    ensures var w', owner := Billed(w, w.phase.rows), OwnerOf(w);
            At(Folded(w.books, w.phase.rows).growth, cn, d)
            == (TotalOf(PaidBySession(w'), owner, cn, d) - TotalOf(PaidBySession(w), owner, cn, d))
               + (TotalOf(w'.rebilled, owner, cn, d) - TotalOf(w.rebilled, owner, cn, d))
  {
    var rows := w.phase.rows;
    assert RowsSound(w, rows) && RebilledSound(w);
    assert NamesSound(w) && SeenSound(w) && QueueSound(w);
    hide Transport, Billed, Advanced, Baseline, PaidBySession, RowsSound, TotalOf, Folded, OwnerOf, NamesSound, SeenSound, QueueSound, RebilledSound, Rebill;
    var w', owner := Billed(w, rows), OwnerOf(w);
    FoldedGrows(w, rows, cn, d);
    BilledKeys(w, rows);
    AdvancedKeys(w, rows);
    forall cid | cid in w.sessions
      ensures At(Advanced(w, rows), cid, d) - At(Baseline(w), cid, d)
           == (At(PaidBySession(w'), cid, d) - At(PaidBySession(w), cid, d)) + (At(w'.rebilled, cid, d) - At(w.rebilled, cid, d))
    {
      BalancedAgain(w, cid, d);
    }
    hide At;
    TotalOfBalance(Baseline(w), Advanced(w, rows), PaidBySession(w), PaidBySession(w'), w.rebilled, w'.rebilled, owner, cn, d);
  }

  lemma AdvancedKeys(w: World, rows: seq<Row>)
    requires QueueSound(w) && RowsSound(w, rows)
    ensures Advanced(w, rows).Keys == w.sessions.Keys
  {
    hide Advanced, QueueSound, RowsSound;
    forall cid ensures cid in Advanced(w, rows) <==> cid in w.sessions {
      AdvancedAt(w, rows, cid);
    }
  }

  lemma BalancedAgain(w: World, cid: Name, d: Direction)
    requires Transport(w) && w.phase.Holding? && cid in w.sessions
    ensures var rows, w' := w.phase.rows, Billed(w, w.phase.rows);
            At(Advanced(w, rows), cid, d) - At(Baseline(w), cid, d)
            == (At(PaidBySession(w'), cid, d) - At(PaidBySession(w), cid, d)) + (At(w'.rebilled, cid, d) - At(w.rebilled, cid, d))
  {
    hide Transport, Billed, Advanced, Baseline, PaidBySession, Rebill, At;
    CollectPays(w, cid, d);
    BilledAgain(w, w.phase.rows, cid, d);
  }

  lemma BilledAgain(w: World, rows: seq<Row>, cid: Name, d: Direction)
    requires cid in w.sessions
    ensures At(Billed(w, rows).rebilled, cid, d) == At(w.rebilled, cid, d) + Rebill(w, rows, cid, d)
  {
    hide Collected, Folded, Absorbed, Rebill;
  }

  lemma BilledKeys(w: World, rows: seq<Row>)
    requires RebilledSound(w)
    ensures var w' := Billed(w, rows);
            && Baseline(w).Keys == PaidBySession(w).Keys == PaidBySession(w').Keys == w.sessions.Keys
            && w'.rebilled.Keys == w.rebilled.Keys == w.sessions.Keys && OwnerOf(w') == OwnerOf(w)
  {
    hide Collected, Folded, Absorbed, Rebill;
  }

  lemma FoldedNonNegative(b: Books, rows: seq<Row>)
    requires forall i :: 0 <= i < |rows| ==> rows[i].bytes.NonNegative()
    ensures forall cn :: cn in Folded(b, rows).growth ==> Folded(b, rows).growth[cn].NonNegative()
  {
    FoldRowsNonNegative(Tally(b.seen, map[]), rows, |rows|);
    FoldEndsNonNegative(FoldRows(Tally(b.seen, map[]), rows, |rows|), b.ended, |b.ended|);
  }

  lemma CollectKeepsMoney(w: World, cn: Name, d: Direction)
    requires Transport(w) && MoneyRight(w, cn, d) && w.phase.Holding?
    ensures MoneyRight(Billed(w, w.phase.rows), cn, d)
  {
    var growth, w' := Folded(w.books, w.phase.rows).growth, Billed(w, w.phase.rows);
    assert w'.money == Absorbed(w.money, growth);
    assert RowsSound(w, w.phase.rows);
    assert RebilledSound(w);
    hide Transport, Folded, TotalOf, PaidBySession, OwnerOf, RowsSound, Absorbed, InStep, Right, Charged, At, Billed, RebilledSound;
    CollectGrows(w, cn, d);
    BilledKeys(w, w.phase.rows);
    CollectGrowthNonNegative(w);
    AbsorbedInStep(w.money, growth);
    AbsorbedRight(w.money, growth, cn, d);
  }

  /** Between polls nothing that is paid changes. */
  ghost predicate SamePayments(w: World, w': World) {
    && w'.books.seen == w.books.seen && w'.rebilled == w.rebilled
    && w'.sessions.Keys == w.sessions.Keys
    && (forall cid :: cid in w.sessions ==>
          && w'.sessions[cid].cn == w.sessions[cid].cn
          && (w.sessions[cid].stage.Settled? || w'.sessions[cid].stage.Settled? ==> w'.sessions[cid] == w.sessions[cid]))
  }

  lemma SamePaymentsKeepMoney(w: World, w': World, cn: Name, d: Direction)
    requires SamePayments(w, w') && MoneyRight(w, cn, d)
    requires InStep(w'.money) && Right(w'.money, cn, d) && Charged(w'.money, cn, d) == Charged(w.money, cn, d)
    ensures MoneyRight(w', cn, d)
  {
    assert PaidBySession(w') == PaidBySession(w);
    assert OwnerOf(w') == OwnerOf(w);
    hide PaidBySession, OwnerOf, TotalOf, InStep, Right, Charged;
  }

  lemma QuietEvents(w: World, e: Event)
    requires StreamSound(w) && !e.Connect? && !e.Collect?
    ensures SamePayments(w, Next(w, e))
    ensures Next(w, e).money == if e.Reads? then Reading(w.money, e.read) else w.money
  {
    hide Snapshot;
  }

  lemma ConnectPaysNothing(w: World, cid: Name, who: Name)
    requires SeenSound(w) && cid !in w.sessions
    ensures PaidBySession(Joined(w, cid, who)) == PaidBySession(w)[cid := Bytes(0, 0)]
    ensures OwnerOf(Joined(w, cid, who)) == OwnerOf(w)[cid := who]
  {
  }

  lemma ConnectKeepsMoney(w: World, cid: Name, who: Name, cn: Name, d: Direction)
    requires SeenSound(w) && RebilledSound(w) && MoneyRight(w, cn, d) && cid !in w.sessions
    ensures MoneyRight(Joined(w, cid, who), cn, d)
  {
    ConnectPaysNothing(w, cid, who);
    assert cid !in PaidBySession(w);
    hide PaidBySession, OwnerOf, TotalOf, SeenSound, InStep, Right;
    TotalOfNewAccount(PaidBySession(w), OwnerOf(w), cn, cid, who, d);
    TotalOfNewAccount(w.rebilled, OwnerOf(w), cn, cid, who, d);
  }

  // -------------------------------------------------------------- whole runs

  lemma {:induction false} NextKeepsTransport(w: World, e: Event)
    requires Transport(w)
    ensures Transport(Next(w, e))
  {
    hide Transport;
    match e
    case Connect(cid, cn) =>
      if cid !in w.sessions && cid != NO_NAME && cn != NO_NAME {
        ConnectKeepsTransport(w, cid, cn);
      }
    case Move(cid, b) =>
      if cid in w.sessions && w.sessions[cid].stage.Live? && b.NonNegative() {
        MoveKeepsTransport(w, cid, b);
      }
    case Disconnect(cid) =>
      if cid in w.sessions && w.sessions[cid].stage.Live? {
        DisconnectKeepsTransport(w, cid);
      }
    case Reply(rows) =>
      if w.asked > 0 && Snapshot(w, rows) {
        ReplyKeepsTransport(w, rows);
      }
    case Receive =>
      if w.stream != [] {
        ReceiveKeepsTransport(w);
      }
    case Copy =>
      if w.phase.Ready? {
        CopyKeepsTransport(w);
      }
    case Collect =>
      if w.phase.Holding? {
        CollectKeepsTransport(w);
      }
    case _ => QuietKeepsTransport(w, Next(w, e));
  }

  lemma {:induction false} NextKeepsMoney(w: World, e: Event, cn: Name, d: Direction)
    requires Transport(w) && MoneyRight(w, cn, d)
    ensures MoneyRight(Next(w, e), cn, d)
  {
    match e
    case Connect(cid, who) =>
      if cid !in w.sessions && cid != NO_NAME && who != NO_NAME {
        ConnectKeepsMoney(w, cid, who, cn, d);
      }
    case Collect =>
      if w.phase.Holding? {
        CollectKeepsMoney(w, cn, d);
      }
    case Reads(read) =>
      QuietEvents(w, e);
      ReadingRight(w.money, read, cn, d);
      SamePaymentsKeepMoney(w, Next(w, e), cn, d);
    case _ =>
      QuietEvents(w, e);
      SamePaymentsKeepMoney(w, Next(w, e), cn, d);
    hide MoneyRight, Reading, Absorbed, Snapshot;
  }

  lemma {:induction false} InvariantsHold(events: seq<Event>, n: nat, cn: Name, d: Direction)
    requires n <= |events|
    ensures Transport(After(events, n)) && MoneyRight(After(events, n), cn, d)
  {
    if n == 0 {
      NoMoneyRight(cn, d);
      assert Share(PaidBySession(INITIAL), OwnerOf(INITIAL), cn) == map[];
      assert Share(INITIAL.rebilled, OwnerOf(INITIAL), cn) == map[];
    } else {
      hide Transport, MoneyRight, Next;
      InvariantsHold(events, n - 1, cn, d);
      NextKeepsTransport(After(events, n - 1), events[n - 1]);
      NextKeepsMoney(After(events, n - 1), events[n - 1], cn, d);
    }
  }

  /**
   * At every point of every run: billed plus pending for a user is the sum of
   * the final totals of their settled sessions and the last polled counters of
   * the others, and what was billed again after a request timed out. So it is
   * right if and only if nothing was, which is always so without timeouts: then no
   * byte is billed twice, none is billed that was not moved, and once all of a
   * user's sessions are settled every byte is accounted for.
   */
  lemma {:induction false} BilledExactlyOnce(events: seq<Event>, n: nat, cn: Name, d: Direction)
    requires n <= |events|
    ensures var w := After(events, n);
            var paid, again := TotalOf(PaidBySession(w), OwnerOf(w), cn, d), TotalOf(w.rebilled, OwnerOf(w), cn, d);
            && Charged(w.money, cn, d) == paid + again
            && 0 <= again && (!w.timedOut ==> again == 0)
            && paid <= TotalOf(MovedBySession(w), OwnerOf(w), cn, d)
            && ((forall cid :: cid in w.sessions && w.sessions[cid].cn == cn ==> w.sessions[cid].stage.Settled?) ==>
                  paid == TotalOf(MovedBySession(w), OwnerOf(w), cn, d))
  {
    InvariantsHold(events, n, cn, d);
    var w := After(events, n);
    hide After;
    PaidAgainstMoved(w, cn, d);
    RebilledTotals(w, cn, d);
    hide NamesSound, SeenSound, QueueSound, StreamSound, LeaversOnStream, StatusSound, Timely, LastSound, AnswersAhead, AnswersInOrder, RebilledSound;
    hide TotalOf, PaidBySession, MovedBySession, OwnerOf, InStep, Right, Charged;
  }

  lemma PaidAgainstMoved(w: World, cn: Name, d: Direction)
    requires NamesSound(w) && SeenSound(w)
    ensures TotalOf(PaidBySession(w), OwnerOf(w), cn, d) <= TotalOf(MovedBySession(w), OwnerOf(w), cn, d)
    ensures (forall cid :: cid in w.sessions && w.sessions[cid].cn == cn ==> w.sessions[cid].stage.Settled?) ==>
              TotalOf(PaidBySession(w), OwnerOf(w), cn, d) == TotalOf(MovedBySession(w), OwnerOf(w), cn, d)
  {
    TotalOfAtMost(PaidBySession(w), MovedBySession(w), OwnerOf(w), cn, d);
    if forall cid :: cid in w.sessions && w.sessions[cid].cn == cn ==> w.sessions[cid].stage.Settled? {
      assert Share(PaidBySession(w), OwnerOf(w), cn) == Share(MovedBySession(w), OwnerOf(w), cn);
    }
  }

  lemma RebilledTotals(w: World, cn: Name, d: Direction)
    requires RebilledSound(w)
    ensures 0 <= TotalOf(w.rebilled, OwnerOf(w), cn, d)
    ensures !w.timedOut ==> TotalOf(w.rebilled, OwnerOf(w), cn, d) == 0
  {
    SumMapNonNegative(Share(w.rebilled, OwnerOf(w), cn), d);
    if !w.timedOut {
      TotalOfZero(w.rebilled, OwnerOf(w), cn, d);
    }
  }

  /** The node-level total and the per-user totals are two views of the same bytes. */
  lemma {:induction false} ViewsAgree(events: seq<Event>, n: nat, d: Direction)
    requires n <= |events|
    ensures After(events, n).money.total.Of(d) == SumMap(After(events, n).money.cumulative, d)
  {
    InvariantsHold(events, n, NO_NAME, d);
  }

  /** The node's total never goes back, so its own counter never takes it for a restart. */
  lemma {:induction false} TotalNeverShrinks(events: seq<Event>, n: nat)
    requires n < |events|
    ensures After(events, n).money.total.AtMost(After(events, n + 1).money.total)
  {
    hide Transport, MoneyRight, Next;
    InvariantsHold(events, n, NO_NAME, Uplink);
    TotalGrows(After(events, n), events[n]);
  }

  lemma TotalGrows(w: World, e: Event)
    requires Transport(w)
    ensures w.money.total.AtMost(Next(w, e).money.total)
  {
    if e.Collect? && w.phase.Holding? {
      CollectGrowthNonNegative(w);
      hide *;
      AbsorbedGrows(w.money, Folded(w.books, w.phase.rows).growth);
      CollectAbsorbs(w);
    } else {
      hide Transport, Snapshot, Received, Reading;
      OtherTotals(w, e);
    }
  }

  lemma CollectAbsorbs(w: World)
    requires w.phase.Holding?
    ensures Next(w, Collect).money == Absorbed(w.money, Folded(w.books, w.phase.rows).growth)
  {
    hide Absorbed, Folded, Collected, SettleQueued, Rebill;
  }

  lemma OtherTotals(w: World, e: Event)
    requires !(e.Collect? && w.phase.Holding?)
    ensures Next(w, e).money.total == w.money.total
  {
    hide Snapshot, Billed;
  }

  lemma CollectGrowthNonNegative(w: World)
    requires Transport(w) && w.phase.Holding?
    ensures forall cn :: cn in Folded(w.books, w.phase.rows).growth ==> Folded(w.books, w.phase.rows).growth[cn].NonNegative()
  {
    assert RowsSound(w, w.phase.rows);
    hide Folded, Transport;
    FoldedNonNegative(w.books, w.phase.rows);
  }
}

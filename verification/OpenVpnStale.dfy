/**
 * What a status request that times out does to an OpenVPN bill
 * (backend/openvpn/mgmt.go, `requestStatus`).
 */
module OpenVpnStale {
  import opened Traffic
  import opened RunningTotals
  import opened OpenVpnStats
  import opened OpenVpnWorld
  import opened OpenVpnBilling

  /**
   * Why answers have to be fresh: when a status request times out, the node
   * collects with the rows it collected with before. A row taken twice adds
   * nothing, unless the end of its session was folded together with it the first
   * time; then all its bytes are billed again.
   */
  lemma StaleAnswer(b: Books, rows: seq<Row>, i: nat, d: Direction)
    requires Distinct(rows) && i < |rows|
    ensures RowDelta(Collected(b, rows).seen, rows[i], d)
         == if rows[i].clientID in ClientIDs(b.ended) then rows[i].bytes.Of(d) else 0
  {
    CollectedSeen(b, rows, rows[i].clientID);
    hide Collected;
  }

  /** The bytes of a user's rows whose sessions' ends were folded with them, over the first `n` rows. */
  ghost function EndedBytes(b: Books, rows: seq<Row>, n: nat, cn: Name, d: Direction): int
    requires n <= |rows|
  {
    if n == 0 then 0
    else EndedBytes(b, rows, n - 1, cn, d)
         + if rows[n - 1].commonName == cn && rows[n - 1].clientID in ClientIDs(b.ended) then rows[n - 1].bytes.Of(d) else 0
  }

  /** What the rows of a second collection add to a user's bill: nothing but those bytes, and all of them. */
  lemma {:induction false} StaleGrowth(b: Books, rows: seq<Row>, start: Tally, n: nat, cn: Name, d: Direction)
    requires Distinct(rows) && n <= |rows| && start.seen == Collected(b, rows).seen
    ensures At(FoldRows(start, rows, n).growth, cn, d) == At(start.growth, cn, d) + EndedBytes(b, rows, n, cn, d)
  {
    hide Collected, RowDelta, ClientIDs;
    if n > 0 {
      var row, before := rows[n - 1], FoldRows(start, rows, n - 1);
      StaleGrowth(b, rows, start, n - 1, cn, d);
      FoldRowsSeen(start, rows, n - 1, row.clientID);
      StaleAnswer(b, rows, n - 1, Uplink);
      StaleAnswer(b, rows, n - 1, Downlink);
      SameDelta(before.seen, start.seen, row);
      AddedAt(before.growth, row.commonName, RowDelta(before.seen, row, Uplink), RowDelta(before.seen, row, Downlink), cn, d);
      hide Added;
    }
  }

  lemma SameDelta(a: map<Name, Row>, b: map<Name, Row>, row: Row)
    requires row.clientID in a <==> row.clientID in b
    requires row.clientID in a ==> a[row.clientID] == b[row.clientID]
    ensures RowDelta(a, row, Uplink) == RowDelta(b, row, Uplink) && RowDelta(a, row, Downlink) == RowDelta(b, row, Downlink)
  {
  }

  /**
   * In every run: what a poll bills a settled session again is its row less the
   * base line it may have got back. If the rows are the ones collected with
   * before, that is all of the row where the session has no base line, because
   * its end was folded with the row, and nothing elsewhere.
   */
  lemma BilledAgainWhen(events: seq<Event>, n: nat, i: nat, d: Direction)
    requires n <= |events| && After(events, n).phase.Holding? && i < |After(events, n).phase.rows|
    ensures var w := After(events, n);
            var rows, row, again := w.phase.rows, w.phase.rows[i], Next(w, Collect).rebilled;
            && row.clientID in w.sessions
            && At(again, row.clientID, d) - At(w.rebilled, row.clientID, d)
               == (if w.sessions[row.clientID].stage.Settled? then row.bytes.Of(d) - SeenOf(w.books.seen, row.clientID, d) else 0)
            && (rows == w.last ==>
                  At(again, row.clientID, d) - At(w.rebilled, row.clientID, d)
                  == if row.clientID in w.books.seen then 0 else row.bytes.Of(d))
  {
    hide After, MoneyRight, Next, Billed, Transport, At;
    var w := After(events, n);
    InvariantsHold(events, n, NO_NAME, d);
    StaleBilled(w, w.phase.rows);
    CollectedAgain(w, w.phase.rows, i, d);
  }

  lemma CollectedAgain(w: World, rows: seq<Row>, i: nat, d: Direction)
    requires Transport(w) && w.phase == Holding(rows) && i < |rows|
    ensures var cid, again := rows[i].clientID, Billed(w, rows).rebilled;
            && cid in w.sessions
            && At(again, cid, d) - At(w.rebilled, cid, d)
               == (if w.sessions[cid].stage.Settled? then rows[i].bytes.Of(d) - SeenOf(w.books.seen, cid, d) else 0)
            && (rows == w.last ==>
                  At(again, cid, d) - At(w.rebilled, cid, d) == if cid in w.books.seen then 0 else rows[i].bytes.Of(d))
  {
    assert RowsSound(w, rows) && LastSound(w);
    hide Billed, Rebill, Transport;
    RebillIs(w, rows, rows[i].clientID, d);
    BilledAgain(w, rows, rows[i].clientID, d);
  }

  /** A session that is asked about while it lives, ends before the answer is collected, and a second request that times out. */
  function StaleRun(cid: Name, cn: Name, b: Bytes): (run: seq<Event>)
    ensures |run| == 13
  {
    [Connect(cid, cn), Move(cid, b), Ask, Reply([Row(cid, cn, b)]), Disconnect(cid), Receive, Receive, Copy, Collect,
     Ask, Timeout, Copy, Collect]
  }

  /** Where the run stands: one session, its stage, the stream, the phase and the books. */
  ghost predicate Stands(w: World, cid: Name, cn: Name, b: Bytes, stage: Stage, stream: seq<Message>, phase: Phase) {
    && w.sessions.Keys == {cid} && w.sessions[cid] == Session(cn, b, stage)
    && w.stream == stream && w.phase == phase && w.books.seen == map[]
  }

  lemma StaleOpens(w: World, cid: Name, cn: Name, b: Bytes)
    requires w == INITIAL && cid != NO_NAME && cn != NO_NAME && b.NonNegative()
    ensures var w2 := Next(Next(w, Connect(cid, cn)), Move(cid, b));
            Stands(w2, cid, cn, b, Live, [], Idle) && w2.books.ended == []
  {
    var w1 := Next(w, Connect(cid, cn));
    assert w1 == Joined(w, cid, cn);
    assert Next(w1, Move(cid, b)) == Moved(w1, cid, b);
  }

  lemma StaleAsks(w: World, cid: Name, cn: Name, b: Bytes)
    requires Stands(w, cid, cn, b, Live, [], Idle) && w.books.ended == []
    ensures var w', rows := Next(Next(w, Ask), Reply([Row(cid, cn, b)])), [Row(cid, cn, b)];
            Stands(w', cid, cn, b, Live, [Status(rows)], Waiting) && w'.books.ended == []
  {
    var w1, rows := Next(w, Ask), [Row(cid, cn, b)];
    assert rows[0].clientID in ClientIDs(rows);
    assert Snapshot(w1, rows);
    hide Snapshot;
  }

  lemma StaleLeaves(w: World, cid: Name, cn: Name, b: Bytes, rows: seq<Row>)
    requires Stands(w, cid, cn, b, Live, [Status(rows)], Waiting) && w.books.ended == []
    ensures var w' := Next(w, Disconnect(cid));
            Stands(w', cid, cn, b, Leaving, [Status(rows), End(Row(cid, cn, b))], Waiting) && w'.books.ended == []
  {
  }

  lemma StaleReceives(w: World, cid: Name, cn: Name, b: Bytes, rows: seq<Row>)
    requires Stands(w, cid, cn, b, Leaving, [Status(rows), End(Row(cid, cn, b))], Waiting) && w.books.ended == []
    requires cid != NO_NAME && cn != NO_NAME
    ensures var w' := Next(Next(w, Receive), Receive);
            Stands(w', cid, cn, b, Queued, [], Ready) && w'.status == rows && w'.books.ended == [Row(cid, cn, b)]
  {
    var w1 := Next(w, Receive);
    assert w.stream[1..] == [End(Row(cid, cn, b))];
    assert w1.stream == [End(Row(cid, cn, b))] && w1.phase == Ready && w1.status == rows;
    assert w1.stream[1..] == [];
  }

  /** The end is folded together with the row. */
  lemma StaleCollects(w: World, cid: Name, cn: Name, b: Bytes)
    requires Stands(w, cid, cn, b, Queued, [], Ready) && w.status == [Row(cid, cn, b)] && w.books.ended == [Row(cid, cn, b)]
    ensures var w' := Next(Next(w, Copy), Collect);
            Stands(w', cid, cn, b, Settled, [], Idle) && w'.status == [Row(cid, cn, b)]
  {
    var rows, w1 := [Row(cid, cn, b)], Next(w, Copy);
    var w' := Next(w1, Collect);
    assert w1 == w.(phase := Holding(rows));
    assert w' == Billed(w1, rows);
    CollectSettles(w1, rows);
    assert w.books.ended[0].clientID == cid;
    assert cid in ClientIDs(w.books.ended);
    hide Collected, Billed, Next;
    forall c ensures c !in w'.books.seen {
      CollectedSeen(w.books, rows, c);
      if c in ClientIDs(rows) {
        var i :| 0 <= i < |rows| && rows[i].clientID == c;
      }
    }
    assert w'.books.seen == map[];
  }

  /** The second collection takes the row for a new session's. */
  lemma StaleCollectsAgain(w: World, cid: Name, cn: Name, b: Bytes, d: Direction)
    requires Transport(w) && Stands(w, cid, cn, b, Settled, [], Idle) && w.status == [Row(cid, cn, b)]
    ensures var w' := Next(Next(Next(Next(w, Ask), Timeout), Copy), Collect);
            && w'.sessions.Keys == {cid} == w'.rebilled.Keys && w'.sessions[cid] == Session(cn, b, Settled)
            && At(w'.rebilled, cid, d) == At(w.rebilled, cid, d) + b.Of(d)
  {
    var rows := [Row(cid, cn, b)];
    var w3 := Next(Next(Next(w, Ask), Timeout), Copy);
    assert w3 == w.(phase := Holding(rows), asked := w.asked + 1, timedOut := true);
    hide Transport, Next, Billed, Rebill;
    assert rows[0].clientID == cid;
    RebillIs(w3, rows, cid, d);
    BilledAgain(w3, rows, cid, d);
    StaleBilled(w3, rows);
  }

  lemma StaleBilled(w: World, rows: seq<Row>)
    requires w.phase == Holding(rows)
    ensures Next(w, Collect) == Billed(w, rows) && Billed(w, rows).sessions == SettleQueued(w.sessions)
    ensures Billed(w, rows).rebilled.Keys == w.sessions.Keys
  {
    hide Folded, Absorbed, Rebill, Collected;
  }

  /** In that run everything the session moved is billed twice. */
  lemma {:induction false} StaleBilledTwice(cid: Name, cn: Name, b: Bytes, d: Direction)
    requires cid != NO_NAME && cn != NO_NAME && b.NonNegative()
    ensures var w := After(StaleRun(cid, cn, b), 13);
            && TotalOf(MovedBySession(w), OwnerOf(w), cn, d) == b.Of(d)
            && Charged(w.money, cn, d) == b.Of(d) + b.Of(d)
  {
    var events, rows := StaleRun(cid, cn, b), [Row(cid, cn, b)];
    hide Next, Stands, Transport, MoneyRight, Charged, TotalOf, PaidBySession, MovedBySession, OwnerOf;
    StaleRunEvents(cid, cn, b);
    hide StaleRun;
    assert After(events, 0) == INITIAL;
    StaleOpens(After(events, 0), cid, cn, b);
    TwoSteps(events, 0);
    StaleAsks(After(events, 2), cid, cn, b);
    TwoSteps(events, 2);
    StaleLeaves(After(events, 4), cid, cn, b, rows);
    StaleReceives(After(events, 5), cid, cn, b, rows);
    TwoSteps(events, 5);
    StaleCollects(After(events, 7), cid, cn, b);
    TwoSteps(events, 7);
    InvariantsHold(events, 9, cn, d);
    StaleCollectsAgain(After(events, 9), cid, cn, b, d);
    TwoSteps(events, 9);
    TwoSteps(events, 11);
    hide After;
    StaleNotBefore(events, cid, d);
    BilledExactlyOnce(events, 13, cn, d);
    OnlySession(After(events, 13), cid, cn, d);
  }

  lemma TwoSteps(events: seq<Event>, n: nat)
    requires n + 2 <= |events|
    ensures After(events, n + 1) == Next(After(events, n), events[n])
    ensures After(events, n + 2) == Next(Next(After(events, n), events[n]), events[n + 1])
  {
    hide Next;
  }

  lemma StaleRunEvents(cid: Name, cn: Name, b: Bytes)
    ensures var e := StaleRun(cid, cn, b);
            && e[0] == Connect(cid, cn) && e[1] == Move(cid, b) && e[2] == Ask && e[3] == Reply([Row(cid, cn, b)])
            && e[4] == Disconnect(cid) && e[5] == e[6] == Receive && e[7] == Copy && e[8] == Collect
            && e[9] == Ask && e[10] == Timeout && e[11] == Copy && e[12] == Collect
  {
  }

  /** Until a request times out nothing is billed again. */
  lemma StaleNotBefore(events: seq<Event>, cid: Name, d: Direction)
    requires |events| >= 9 && forall i :: 0 <= i < 9 ==> !events[i].Timeout?
    ensures At(After(events, 9).rebilled, cid, d) == 0
  {
    InvariantsHold(events, 9, NO_NAME, d);
    NotTimedOut(events, 9);
    var w := After(events, 9);
    hide After, MoneyRight;
    assert RebilledSound(w);
  }

  lemma {:induction false} NotTimedOut(events: seq<Event>, n: nat)
    requires n <= |events| && forall i :: 0 <= i < n ==> !events[i].Timeout?
    ensures !After(events, n).timedOut
  {
    if n > 0 {
      NotTimedOut(events, n - 1);
      OtherEventsInTime(After(events, n - 1), events[n - 1]);
      hide Next;
    }
  }

  lemma OtherEventsInTime(w: World, e: Event)
    requires !e.Timeout?
    ensures Next(w, e).timedOut == w.timedOut
  {
    hide Snapshot, Collected, Folded, Absorbed, Rebill;
  }

  lemma OnlySession(w: World, cid: Name, cn: Name, d: Direction)
    requires w.sessions.Keys == {cid} && w.sessions[cid].cn == cn && w.rebilled.Keys == w.sessions.Keys
    ensures TotalOf(MovedBySession(w), OwnerOf(w), cn, d) == w.sessions[cid].bytes.Of(d)
    ensures TotalOf(w.rebilled, OwnerOf(w), cn, d) == At(w.rebilled, cid, d)
  {
    OneOfTheUser(MovedBySession(w), OwnerOf(w), cid, cn, d);
    OneOfTheUser(w.rebilled, OwnerOf(w), cid, cn, d);
    hide TotalOf;
  }
}

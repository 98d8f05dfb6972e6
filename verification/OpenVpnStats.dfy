/**
 * OpenVPN accounting (backend/openvpn/stats.go): the poll that folds status
 * rows and ended sessions into per-user totals.
 */
module OpenVpnStats {
  import opened Traffic
  import opened RunningTotals

  /** A session's counters: a row of `status 3`, or the totals of a disconnect event. */
  datatype Row = Row(clientID: Name, commonName: Name, bytes: Bytes)

  // ------------------------------------------------------------ specification

  function SeenOf(seen: map<Name, Row>, cid: Name, d: Direction): int {
    if cid in seen then seen[cid].bytes.Of(d) else 0
  }

  /** A counter that went back is taken for a fresh session. */
  function RowDelta(seen: map<Name, Row>, row: Row, d: Direction): int {
    var delta := row.bytes.Of(d) - SeenOf(seen, row.clientID, d);
    if row.clientID in seen && delta < 0 then row.bytes.Of(d) else delta
  }

  /** Unlike a row, a final total below its base line bills nothing. */
  function EndDelta(seen: map<Name, Row>, fin: Row, d: Direction): int {
    ClampAtZero(fin.bytes.Of(d) - SeenOf(seen, fin.clientID, d))
  }

  datatype Tally = Tally(seen: map<Name, Row>, growth: map<Name, Bytes>)

  function FoldRow(t: Tally, row: Row): Tally {
    Tally(t.seen[row.clientID := row],
          Added(t.growth, row.commonName, RowDelta(t.seen, row, Uplink), RowDelta(t.seen, row, Downlink)))
  }

  function FoldRows(t: Tally, rows: seq<Row>, n: nat): Tally
    requires n <= |rows|
  {
    if n == 0 then t else FoldRow(FoldRows(t, rows, n - 1), rows[n - 1])
  }

  function FoldEnd(t: Tally, fin: Row): Tally {
    var dRx, dTx := EndDelta(t.seen, fin, Uplink), EndDelta(t.seen, fin, Downlink);
    Tally(t.seen - {fin.clientID},
          if dRx == 0 && dTx == 0 then t.growth else Added(t.growth, fin.commonName, dRx, dTx))
  }

  function FoldEnds(t: Tally, ended: seq<Row>, n: nat): Tally
    requires n <= |ended|
  {
    if n == 0 then t else FoldEnd(FoldEnds(t, ended, n - 1), ended[n - 1])
  }

  function ClientIDs(rows: seq<Row>): set<Name> {
    set i | 0 <= i < |rows| :: rows[i].clientID
  }

  datatype Books = Books(seen: map<Name, Row>, ended: seq<Row>)

  /** Status rows first, then the queue of ended sessions: the order the billing rests on. */
  function Folded(b: Books, rows: seq<Row>): Tally {
    FoldEnds(FoldRows(Tally(b.seen, map[]), rows, |rows|), b.ended, |b.ended|)
  }

  /** Base lines of sessions that are gone from the answer are forgotten; the queue is drained. */
  function Collected(b: Books, rows: seq<Row>): Books {
    var t := Folded(b, rows);
    Books(map cid | cid in t.seen && cid in ClientIDs(rows) :: t.seen[cid], [])
  }

  // ---------------------------------------------------------- implementation

  class OpenVPN {
    const totals: Totals  // cnCumulative, totalRx/totalTx and the tracker they feed
    var sessionSeen: map<Name, Row>
    var endedSessions: seq<Row>

    constructor ()
      ensures totals.Valid() && fresh(totals) && fresh(totals.tracker)
      ensures Account() == Books(map[], []) && totals.Standing(map[]) == NO_MONEY
    {
      totals := new Totals();
      sessionSeen, endedSessions := map[], [];
    }

    ghost function Account(): Books
      reads this
    {
      Books(sessionSeen, endedSessions)
    }

    method RecordSessionEnd(cid: Name, commonName: Name, bytes: Bytes)
      modifies this
      ensures Account() == if cid == NO_NAME || commonName == NO_NAME then old(Account())
                           else old(Account()).(ended := old(endedSessions) + [Row(cid, commonName, bytes)])
    {
      if cid == NO_NAME || commonName == NO_NAME {
        return;
      }
      endedSessions := endedSessions + [Row(cid, commonName, bytes)];
    }

    method FoldEndedSessions(perCN: map<Name, Bytes>) returns (perCN': map<Name, Bytes>)
      modifies this
      ensures endedSessions == []
      ensures Tally(sessionSeen, perCN')
           == FoldEnds(Tally(old(sessionSeen), perCN), old(endedSessions), |old(endedSessions)|)
    {
      var ended := endedSessions;
      endedSessions := [];
      perCN' := perCN;
      for i := 0 to |ended|
        invariant endedSessions == []
        invariant Tally(sessionSeen, perCN') == FoldEnds(Tally(old(sessionSeen), perCN), ended, i)
      {
        var fin := ended[i];
        var dRx, dTx := fin.bytes.rx, fin.bytes.tx;
        if fin.clientID in sessionSeen {
          var prev := sessionSeen[fin.clientID];
          dRx, dTx := fin.bytes.rx - prev.bytes.rx, fin.bytes.tx - prev.bytes.tx;
        }
        sessionSeen := sessionSeen - {fin.clientID};
        dRx, dTx := ClampAtZero(dRx), ClampAtZero(dTx);
        if dRx != 0 || dTx != 0 {
          perCN' := Added(perCN', fin.commonName, dRx, dTx);
        }
      }
    }

    method FoldStatusRows(rows: seq<Row>) returns (perCN: map<Name, Bytes>, seenSessions: set<Name>)
      requires forall row :: row in rows ==> row.bytes.NonNegative()
      modifies this
      ensures endedSessions == old(endedSessions)
      ensures seenSessions == ClientIDs(rows)
      ensures Tally(sessionSeen, perCN) == FoldRows(Tally(old(sessionSeen), map[]), rows, |rows|)
      ensures forall cn :: cn in perCN ==> perCN[cn].NonNegative()
    {
      perCN, seenSessions := map[], {};
      for i := 0 to |rows|
        invariant endedSessions == old(endedSessions)
        invariant seenSessions == ClientIDs(rows[..i])
        invariant Tally(sessionSeen, perCN) == FoldRows(Tally(old(sessionSeen), map[]), rows, i)
        invariant forall cn :: cn in perCN ==> perCN[cn].NonNegative()
      {
        var row := rows[i];
        ClientIDsSnoc(rows, i);
        hide ClientIDs;
        seenSessions := seenSessions + {row.clientID};
        var dRx, dTx := row.bytes.rx, row.bytes.tx;
        if row.clientID in sessionSeen {
          var prev := sessionSeen[row.clientID];
          dRx, dTx := row.bytes.rx - prev.bytes.rx, row.bytes.tx - prev.bytes.tx;
          if dRx < 0 {
            dRx := row.bytes.rx;
          }
          if dTx < 0 {
            dTx := row.bytes.tx;
          }
        }
        sessionSeen := sessionSeen[row.clientID := row];
        perCN := Added(perCN, row.commonName, dRx, dTx);
      }
      assert rows[..|rows|] == rows;
    }

    method CollectStats(rows: seq<Row>)
      requires totals.Valid() && forall row :: row in rows ==> row.bytes.NonNegative()
      modifies this, totals, totals.tracker
      ensures totals.Valid() && Account() == Collected(old(Account()), rows)
      ensures totals.Standing(map[]) == Absorbed(old(totals.Standing(map[])), Folded(old(Account()), rows).growth)
    {
      hide FoldRows, FoldEnds, ClientIDs, Absorbed;
      var perCN, seenSessions := FoldStatusRows(rows);
      FoldEndsNonNegative(Tally(sessionSeen, perCN), endedSessions, |endedSessions|);
      perCN := FoldEndedSessions(perCN);
      sessionSeen := map cid | cid in sessionSeen && cid in seenSessions :: sessionSeen[cid];
      totals.Absorb(perCN);
    }
  }

  lemma ClientIDsSnoc(rows: seq<Row>, i: nat)
    requires i < |rows|
    ensures ClientIDs(rows[..i + 1]) == ClientIDs(rows[..i]) + {rows[i].clientID}
  {
    var more, fewer := rows[..i + 1], rows[..i];
    forall cid | cid in ClientIDs(fewer) ensures cid in ClientIDs(more) {
      var j :| 0 <= j < i && fewer[j].clientID == cid;
      assert more[j].clientID == cid;
    }
    assert more[i].clientID == rows[i].clientID;
    forall cid | cid in ClientIDs(more) ensures cid in ClientIDs(fewer) + {rows[i].clientID} {
      var j :| 0 <= j < i + 1 && more[j].clientID == cid;
      assert j < i ==> fewer[j].clientID == cid;
    }
  }

  lemma {:induction false} FoldRowsNonNegative(t: Tally, rows: seq<Row>, n: nat)
    requires n <= |rows| && forall i :: 0 <= i < |rows| ==> rows[i].bytes.NonNegative()
    requires forall cn :: cn in t.growth ==> t.growth[cn].NonNegative()
    ensures forall cn :: cn in FoldRows(t, rows, n).growth ==> FoldRows(t, rows, n).growth[cn].NonNegative()
  {
    if n > 0 {
      FoldRowsNonNegative(t, rows, n - 1);
    }
  }

  lemma {:induction false} FoldEndsNonNegative(t: Tally, ended: seq<Row>, n: nat)
    requires n <= |ended|
    requires forall cn :: cn in t.growth ==> t.growth[cn].NonNegative()
    ensures forall cn :: cn in FoldEnds(t, ended, n).growth ==> FoldEnds(t, ended, n).growth[cn].NonNegative()
  {
    if n > 0 {
      FoldEndsNonNegative(t, ended, n - 1);
    }
  }

  // --------------------------------------------------- counters that went back

  lemma OneRowFolded(seen: map<Name, Row>, row: Row, d: Direction)
    ensures var t := FoldRows(Tally(seen, map[]), [row], 1);
            && t.seen == seen[row.clientID := row]
            && At(t.growth, row.commonName, d)
               == if row.clientID !in seen then row.bytes.Of(d)
                  else if row.bytes.Of(d) < seen[row.clientID].bytes.Of(d) then row.bytes.Of(d)
                  else row.bytes.Of(d) - seen[row.clientID].bytes.Of(d)
  {
    assert FoldRows(Tally(seen, map[]), [row], 0) == Tally(seen, map[]);
  }

  lemma FirstPoll(row: Row, d: Direction)
    ensures var b, rows := Books(map[], []), [row];
            At(Folded(b, rows).growth, row.commonName, d) == row.bytes.Of(d) && Collected(b, rows) == Books(map[row.clientID := row], [])
  {
    var b, rows := Books(map[], []), [row];
    OneRowFolded(map[], row, d);
    assert rows[0].clientID in ClientIDs(rows);
    hide FoldRows;
    assert Folded(b, rows) == FoldRows(Tally(map[], map[]), rows, 1);
  }

  /**
   * A client id whose counter went back between two polls is taken for a fresh
   * session, in each direction by itself: all of the new counter is billed on top
   * of the old one.
   */
  lemma RowWentBack(cid: Name, cn: Name, a: Bytes, b: Bytes, d: Direction)
    ensures var first, second := [Row(cid, cn, a)], [Row(cid, cn, b)];
            var books := Collected(Books(map[], []), first);
            At(Folded(Books(map[], []), first).growth, cn, d) + At(Folded(books, second).growth, cn, d)
            == if b.Of(d) < a.Of(d) then a.Of(d) + b.Of(d) else b.Of(d)
  {
    FirstPoll(Row(cid, cn, a), d);
    OneRowFolded(map[cid := Row(cid, cn, a)], Row(cid, cn, b), d);
    hide Collected, FoldRows;
  }

  /** Final totals below the last poll's counters bill nothing more: with the poll it is the larger of the two. */
  lemma EndWentBack(cid: Name, cn: Name, a: Bytes, b: Bytes, d: Direction)
    ensures var rows := [Row(cid, cn, a)];
            var books := Collected(Books(map[], []), rows).(ended := [Row(cid, cn, b)]);
            At(Folded(Books(map[], []), rows).growth, cn, d) + At(Folded(books, []).growth, cn, d)
            == if b.Of(d) < a.Of(d) then a.Of(d) else b.Of(d)
  {
    FirstPoll(Row(cid, cn, a), d);
    hide Collected;
    var t, ended := Tally(map[cid := Row(cid, cn, a)], map[]), [Row(cid, cn, b)];
    assert FoldEnds(t, ended, 0) == t;
    assert FoldEnds(t, ended, 1) == FoldEnd(t, ended[0]);
  }
}

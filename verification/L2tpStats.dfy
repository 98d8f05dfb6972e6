/**
 * L2TP accounting (backend/l2tp/stats.go): interface counters are told apart
 * from one session to the next by a base line per interface.
 */
module L2tpStats {
  import opened Traffic
  import opened RunningTotals

  /** A session's counters: read off its interface while it is live, or left behind by the ip-down hook. */
  datatype Record = Record(ifname: Name, user: Name, bytes: Bytes, live: bool)

  // ------------------------------------------------------------ specification

  /**
   * What a record adds. A live counter below its base line belongs to a fresh
   * session; a final one may come from a lower layer, and then bills nothing.
   */
  function Delta(seen: map<Name, Bytes>, r: Record, d: Direction): int {
    var delta := r.bytes.Of(d) - At(seen, r.ifname, d);
    if delta >= 0 then delta else if r.live then r.bytes.Of(d) else 0
  }

  datatype Tally = Tally(seen: map<Name, Bytes>, growth: map<Name, Bytes>)

  /** A live record moves the base line; a final one clears it, for the interface starts again from zero. */
  function FoldOne(t: Tally, r: Record): Tally {
    Tally(if r.live then t.seen[r.ifname := r.bytes] else t.seen - {r.ifname},
          Added(t.growth, r.user, Delta(t.seen, r, Uplink), Delta(t.seen, r, Downlink)))
  }

  /** The tally after the first `n` records. */
  function Fold(t: Tally, records: seq<Record>, n: nat): Tally
    requires n <= |records|
  {
    if n == 0 then t else FoldOne(Fold(t, records, n - 1), records[n - 1])
  }

  /** The interfaces with a live session. */
  function Present(records: seq<Record>): set<Name> {
    set i | 0 <= i < |records| && records[i].live :: records[i].ifname
  }

  function Tallied(seen: map<Name, Bytes>, records: seq<Record>): Tally {
    Fold(Tally(seen, map[]), records, |records|)
  }

  /** Base lines survive only under a live session. */
  function BaseLines(seen: map<Name, Bytes>, records: seq<Record>): map<Name, Bytes> {
    map i | i in Tallied(seen, records).seen && i in Present(records) :: Tallied(seen, records).seen[i]
  }

  // ---------------------------------------------------------- implementation

  class L2TP {
    const totals: Totals  // cumRx/cumTx, totalRx/totalTx and the tracker they feed
    var ifSeen: map<Name, Bytes>

    constructor ()
      ensures totals.Valid() && fresh(totals) && fresh(totals.tracker)
      ensures ifSeen == map[] && totals.Standing(map[]) == NO_MONEY
    {
      totals := new Totals();
      ifSeen := map[];
    }

    method SettleFinals(finals: seq<Record>) returns (growth: map<Name, Bytes>)
      requires forall i :: 0 <= i < |finals| ==> !finals[i].live
      modifies this
      ensures Tally(ifSeen, growth) == Fold(Tally(old(ifSeen), map[]), finals, |finals|)
    {
      growth := map[];
      for i := 0 to |finals|
        invariant Tally(ifSeen, growth) == Fold(Tally(old(ifSeen), map[]), finals, i)
      {
        var rec := finals[i];
        var dRx, dTx := rec.bytes.rx, rec.bytes.tx;
        if rec.ifname in ifSeen {
          var last := ifSeen[rec.ifname];
          dRx, dTx := rec.bytes.rx - last.rx, rec.bytes.tx - last.tx;
        }
        dRx, dTx := ClampAtZero(dRx), ClampAtZero(dTx);
        ifSeen := ifSeen - {rec.ifname};
        growth := Added(growth, rec.user, dRx, dTx);
      }
    }

    method MeasureLive(sessions: seq<Record>, settled: map<Name, Bytes>) returns (growth: map<Name, Bytes>)
      requires forall i :: 0 <= i < |sessions| ==> sessions[i].live
      modifies this
      ensures Tally(ifSeen, growth) == Fold(Tally(old(ifSeen), settled), sessions, |sessions|)
    {
      growth := settled;
      for i := 0 to |sessions|
        invariant Tally(ifSeen, growth) == Fold(Tally(old(ifSeen), settled), sessions, i)
      {
        var s := sessions[i];
        var last := if s.ifname in ifSeen then ifSeen[s.ifname] else Bytes(0, 0);
        var dRx, dTx := s.bytes.rx - last.rx, s.bytes.tx - last.tx;
        if dRx < 0 {
          dRx := s.bytes.rx;
        }
        if dTx < 0 {
          dTx := s.bytes.tx;
        }
        ifSeen := ifSeen[s.ifname := s.bytes];
        growth := Added(growth, s.user, dRx, dTx);
      }
    }

    /** Ended sessions are settled before the live ones are measured. */
    method Poll(sessions: seq<Record>, finals: seq<Record>)
      requires totals.Valid()
      requires forall i :: 0 <= i < |sessions| ==> sessions[i].live && sessions[i].bytes.NonNegative()
      requires forall i :: 0 <= i < |finals| ==> !finals[i].live
      modifies this, totals, totals.tracker
      ensures totals.Valid() && ifSeen == BaseLines(old(ifSeen), finals + sessions)
      ensures totals.Standing(map[])
           == Absorbed(old(totals.Standing(map[])), Tallied(old(ifSeen), finals + sessions).growth)
    {
      ghost var start := Tally(ifSeen, map[]);
      hide Absorbed, Present, Fold;
      var present := set i | 0 <= i < |sessions| :: sessions[i].ifname;
      var settled := SettleFinals(finals);
      var growth := MeasureLive(sessions, settled);
      FoldConcat(start, finals, sessions, |sessions|);
      PresentConcat(finals, sessions);
      FoldNonNegative(start, finals, |finals|);
      FoldNonNegative(Tally(Fold(start, finals, |finals|).seen, settled), sessions, |sessions|);
      ifSeen := map i | i in ifSeen && i in present :: ifSeen[i];
      totals.Absorb(growth);
    }
  }

  lemma PresentConcat(finals: seq<Record>, sessions: seq<Record>)
    requires forall i :: 0 <= i < |sessions| ==> sessions[i].live
    requires forall i :: 0 <= i < |finals| ==> !finals[i].live
    ensures Present(finals + sessions) == set i | 0 <= i < |sessions| :: sessions[i].ifname
  {
    var all := finals + sessions;
    forall i | 0 <= i < |sessions| ensures sessions[i].ifname in Present(all) {
      assert all[|finals| + i] == sessions[i];
    }
    forall name | name in Present(all) ensures exists i :: 0 <= i < |sessions| && sessions[i].ifname == name {
      var i :| 0 <= i < |all| && all[i].live && all[i].ifname == name;
      assert i >= |finals| && sessions[i - |finals|].ifname == name;
    }
  }

  lemma {:induction false} FoldConcat(t: Tally, a: seq<Record>, b: seq<Record>, n: nat)
    requires n <= |b|
    ensures Fold(t, a + b, |a| + n) == Fold(Fold(t, a, |a|), b, n)
    decreases n
  {
    if n == 0 {
      FoldPrefix(t, a, b, |a|);
    } else {
      FoldConcat(t, a, b, n - 1);
      assert (a + b)[|a| + n - 1] == b[n - 1];
    }
  }

  lemma {:induction false} FoldPrefix(t: Tally, a: seq<Record>, b: seq<Record>, n: nat)
    requires n <= |a|
    ensures Fold(t, a + b, n) == Fold(t, a, n)
  {
    if n > 0 {
      FoldPrefix(t, a, b, n - 1);
    }
  }

  lemma {:induction false} FoldNonNegative(t: Tally, records: seq<Record>, n: nat)
    requires n <= |records| && forall i :: 0 <= i < |records| ==> records[i].live ==> records[i].bytes.NonNegative()
    requires forall u :: u in t.growth ==> t.growth[u].NonNegative()
    ensures forall u :: u in Fold(t, records, n).growth ==> Fold(t, records, n).growth[u].NonNegative()
  {
    if n > 0 {
      FoldNonNegative(t, records, n - 1);
    }
  }
}

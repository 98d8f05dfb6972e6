/**
 * Node-level usage (pkg/stats/interface_counters.go): a running total read off
 * against a base line.
 */
module InterfaceCounters {
  import opened Traffic

  // ------------------------------------------------------------ specification

  datatype Base = Unset | Set(bytes: Bytes)

  datatype Call = Call(total: Bytes, reset: bool)

  /** The base line a call is measured against: the first total, and again the total after a rollback. */
  function Rebased(b: Base, total: Bytes): Bytes {
    if b.Unset? || !b.bytes.AtMost(total) then total else b.bytes
  }

  function DeltaOf(b: Base, c: Call, d: Direction): int {
    c.total.Of(d) - Rebased(b, c.total).Of(d)
  }

  function BaseAfter(b: Base, c: Call): Base {
    Set(if c.reset then c.total else Rebased(b, c.total))
  }

  // ---------------------------------------------------------- implementation

  class InterfaceCountersTracker {
    var base: Bytes
    var baseSet: bool

    constructor ()
      ensures Contents() == Unset
    {
      base, baseSet := Bytes(0, 0), false;
    }

    ghost function Contents(): Base
      reads this
    {
      if baseSet then Set(base) else Unset
    }

    method Delta(current: Bytes, reset: bool) returns (delta: Bytes)
      modifies this
      ensures Contents() == BaseAfter(old(Contents()), Call(current, reset))
      ensures delta.rx == DeltaOf(old(Contents()), Call(current, reset), Uplink)
      ensures delta.tx == DeltaOf(old(Contents()), Call(current, reset), Downlink)
      ensures delta.NonNegative()
    {
      if !baseSet {
        base, baseSet := current, true;
      }
      if current.rx < base.rx || current.tx < base.tx {
        base := current;
      }
      delta := Bytes(current.rx - base.rx, current.tx - base.tx);
      if reset {
        base := current;
      }
    }
  }

  // --------------------------------------------------------------- whole runs

  function After(calls: seq<Call>, n: nat): Base
    requires n <= |calls|
  {
    if n == 0 then Unset else BaseAfter(After(calls, n - 1), calls[n - 1])
  }

  /** What the resetting calls reported. */
  function Reported(calls: seq<Call>, n: nat, d: Direction): int
    requires n <= |calls|
  {
    if n == 0 then 0
    else Reported(calls, n - 1, d) + if calls[n - 1].reset then DeltaOf(After(calls, n - 1), calls[n - 1], d) else 0
  }

  ghost predicate NonDecreasing(calls: seq<Call>) {
    forall i, j :: 0 <= i < j < |calls| ==> calls[i].total.AtMost(calls[j].total)
  }

  lemma {:induction false} BaseIsBehind(calls: seq<Call>, n: nat)
    requires 0 < n <= |calls| && NonDecreasing(calls)
    ensures After(calls, n).Set? && After(calls, n).bytes.AtMost(calls[n - 1].total)
  {
    if n > 1 {
      BaseIsBehind(calls, n - 1);
      assert calls[n - 2].total.AtMost(calls[n - 1].total);
    }
  }

  /**
   * For totals that only grow, what was reported on resets and what is pending
   * now add up to everything since the first reading, in each direction.
   */
  lemma {:induction false} DeltasConserve(calls: seq<Call>, n: nat, d: Direction)
    requires 0 < n <= |calls| && NonDecreasing(calls)
    ensures After(calls, n).Set?
    ensures Reported(calls, n, d) + (calls[n - 1].total.Of(d) - After(calls, n).bytes.Of(d))
         == calls[n - 1].total.Of(d) - calls[0].total.Of(d)
  {
    if n > 1 {
      DeltasConserve(calls, n - 1, d);
      BaseIsBehind(calls, n - 1);
      assert calls[n - 2].total.AtMost(calls[n - 1].total);
    } else {
      assert Reported(calls, 0, d) == 0;
    }
  }

  /**
   * Totals that go back: what is lower in either direction than the base line it
   * is measured against reports nothing and is the new base line.
   */
  lemma {:induction false} RollbackReportsNothing(a: Bytes, b: Bytes, c: Bytes, reset: bool, d: Direction)
    ensures Reported([Call(a, reset), Call(b, true)], 2, d) == if a.AtMost(b) then b.Of(d) - a.Of(d) else 0
    ensures Reported([Call(a, reset), Call(b, false), Call(c, true)], 3, d)
         == if a.AtMost(b) && a.AtMost(c) then c.Of(d) - a.Of(d)
            else if !a.AtMost(b) && b.AtMost(c) then c.Of(d) - b.Of(d)
            else 0
  {
    FirstCall([Call(a, reset), Call(b, true)], d);
    FirstCall([Call(a, reset), Call(b, false), Call(c, true)], d);
    var calls := [Call(a, reset), Call(b, false), Call(c, true)];
    assert After(calls, 2) == Set(if a.AtMost(b) then a else b);
    assert Reported(calls, 2, d) == 0;
  }

  /** The first total is the first base line, and reports nothing. */
  lemma FirstCall(calls: seq<Call>, d: Direction)
    requires |calls| > 0
    ensures After(calls, 1) == Set(calls[0].total) && Reported(calls, 1, d) == 0
  {
    assert After(calls, 0) == Unset;
    assert Reported(calls, 0, d) == 0;
  }
}

/**
 * A WireGuard peer that leaves and comes back with its counter at zero: what its
 * key is billed depends on what the panel and the clean-up did in between.
 */
module PeerReturns {
  import opened Traffic
  import StatsTracker
  import opened PeerBilling

  /** Polled at `a`; removed and added back, with other events before and after; polled again at `b`. */
  function ReturnRun(k: Name, email: Name, a: Bytes, b: Bytes, sampled: bool, before: seq<Event>, after: seq<Event>): seq<Event> {
    [AddPeer(k), Move(k, a), Poll(k, email)] + before + [RemovePeer(k, email, sampled)] + after
    + [AddPeer(k), Move(k, b), Poll(k, email)]
  }

  /** The state after some more events. */
  function Then(w: World, events: seq<Event>, n: nat): World
    requires n <= |events|
  {
    if n == 0 then w else Next(Then(w, events, n - 1), events[n - 1])
  }

  lemma {:induction false} ThenConcat(w: World, a: seq<Event>, b: seq<Event>, n: nat)
    requires n <= |b|
    ensures Then(w, a + b, |a| + n) == Then(Then(w, a, |a|), b, n)
    decreases n
  {
    hide Next;
    if n == 0 {
      ThenPrefix(w, a, b, |a|);
    } else {
      ThenConcat(w, a, b, n - 1);
      assert (a + b)[|a| + n - 1] == b[n - 1];
    }
  }

  lemma {:induction false} ThenPrefix(w: World, a: seq<Event>, b: seq<Event>, n: nat)
    requires n <= |a|
    ensures Then(w, a + b, n) == Then(w, a, n)
  {
    hide Next;
    if n > 0 {
      ThenPrefix(w, a, b, n - 1);
    }
  }

  lemma {:induction false} AfterIsThen(events: seq<Event>, n: nat)
    requires n <= |events|
    ensures After(events, n) == Then(INITIAL, events, n)
  {
    hide Next;
    if n > 0 {
      AfterIsThen(events, n - 1);
    }
  }

  // --------------------------------------------------------------- the stages

  /** Present with counter and last reading at `a`; `paid` billed and `due` pending. */
  ghost predicate Here(w: World, k: Name, a: Bytes, paid: Bytes, due: Bytes) {
    && k in w.counter && w.counter[k] == a
    && k in w.ledger && w.ledger[k].last == a && w.ledger[k].unbilled == due && !w.ledger[k].gone
    && (forall d :: At(w.billed, k, d) == paid.Of(d))
  }

  /** Removed; the tracker still has the key. */
  ghost predicate Away(w: World, k: Name, a: Bytes, paid: Bytes, due: Bytes) {
    && k !in w.counter
    && k in w.ledger && w.ledger[k].last == a && w.ledger[k].unbilled == due && w.ledger[k].gone
    && (forall d :: At(w.billed, k, d) == paid.Of(d))
  }

  /** Removed; the tracker has forgotten the key. */
  ghost predicate Forgotten(w: World, k: Name, paid: Bytes) {
    k !in w.counter && k !in w.ledger && forall d :: At(w.billed, k, d) == paid.Of(d)
  }

  /** Billed and pending together. */
  ghost predicate Charges(w: World, k: Name, amount: Bytes) {
    forall d :: At(w.billed, k, d) + StatsTracker.Unbilled(w.ledger, k, d) == amount.Of(d)
  }

  lemma Arrives(w: World, k: Name, email: Name, a: Bytes)
    requires w == INITIAL && a.NonNegative()
    ensures var w' := Next(Next(Next(w, AddPeer(k)), Move(k, a)), Poll(k, email));
            Here(w', k, a, Bytes(0, 0), a)
  {
    var w1 := Next(w, AddPeer(k));
    var w2 := Next(w1, Move(k, a));
    assert w1.counter[k] == Bytes(0, 0);
    assert w2.counter[k] == a && k !in w2.ledger && k !in w2.billed;
  }

  lemma Reads(w: World, k: Name, a: Bytes)
    requires Here(w, k, a, Bytes(0, 0), a)
    ensures Here(Next(w, BillKey(k)), k, a, a, Bytes(0, 0))
  {
  }

  lemma Leaves(w: World, k: Name, email: Name, sampled: bool, a: Bytes, paid: Bytes, due: Bytes)
    requires Here(w, k, a, paid, due)
    ensures Away(Next(w, RemovePeer(k, email, sampled)), k, a, paid, due)
  {
  }

  /** A read of a departed key hands over its bytes and drops it. */
  lemma ReadAway(w: World, k: Name, a: Bytes)
    requires Away(w, k, a, Bytes(0, 0), a)
    ensures Forgotten(Next(w, BillKey(k)), k, a)
  {
  }

  /** A clean-up drops a departed key with nothing pending. */
  lemma SweptAway(w: World, k: Name, a: Bytes)
    requires Away(w, k, a, a, Bytes(0, 0))
    ensures Forgotten(Next(w, CleanUp), k, a)
  {
  }

  function BackRun(k: Name, email: Name, b: Bytes): seq<Event> {
    [AddPeer(k), Move(k, b), Poll(k, email)]
  }

  ghost function Back(w: World, k: Name, email: Name, b: Bytes): World {
    Next(Next(Next(w, AddPeer(k)), Move(k, b)), Poll(k, email))
  }

  lemma ComesBack(w: World, k: Name, b: Bytes)
    requires k !in w.counter && b.NonNegative()
    ensures var w' := Next(Next(w, AddPeer(k)), Move(k, b));
            k in w'.counter && w'.counter[k] == b && w'.ledger == w.ledger && w'.billed == w.billed
  {
    var w1 := Next(w, AddPeer(k));
    assert w1.counter[k] == Bytes(0, 0);
  }

  lemma BackUnbilled(w: World, k: Name, email: Name, a: Bytes, b: Bytes)
    requires Away(w, k, a, Bytes(0, 0), a) && b.NonNegative()
    ensures Charges(Back(w, k, email, b), k, if a == Bytes(0, 0) then b else a)
  {
    ComesBack(w, k, b);
  }

  lemma BackBilled(w: World, k: Name, email: Name, a: Bytes, b: Bytes)
    requires Away(w, k, a, a, Bytes(0, 0)) && b.NonNegative()
    ensures Charges(Back(w, k, email, b), k, if a.AtMost(b) then b else a)
  {
    ComesBack(w, k, b);
  }

  lemma BackForgotten(w: World, k: Name, email: Name, a: Bytes, b: Bytes)
    requires Forgotten(w, k, a) && b.NonNegative()
    ensures Charges(Back(w, k, email, b), k, Bytes(a.rx + b.rx, a.tx + b.tx))
  {
    ComesBack(w, k, b);
  }

  // ------------------------------------------------------------ the four runs

  /** The run in parts. */
  lemma Parts(k: Name, email: Name, a: Bytes, b: Bytes, sampled: bool, before: seq<Event>, after: seq<Event>)
    ensures var run := ReturnRun(k, email, a, b, sampled, before, after);
            var w1 := Back(INITIAL, k, email, a);
            var w2 := Next(Then(w1, before, |before|), RemovePeer(k, email, sampled));
            After(run, |run|) == Back(Then(w2, after, |after|), k, email, b)
  {
    hide Next;
    var run := ReturnRun(k, email, a, b, sampled, before, after);
    var one, two := BackRun(k, email, a), [RemovePeer(k, email, sampled)];
    AfterIsThen(run, |run|);
    ThenConcat(INITIAL, one, before, |before|);
    ThenConcat(INITIAL, one + before, two, 1);
    ThenConcat(INITIAL, one + before + two, after, |after|);
    ThenConcat(INITIAL, one + before + two + after, BackRun(k, email, b), 3);
    ThreeSteps(INITIAL, k, email, a);
    OneStep(Then(Then(INITIAL, one, 3), before, |before|), RemovePeer(k, email, sampled));
    ThreeSteps(Then(INITIAL, one + before + two + after, |one + before + two + after|), k, email, b);
    hide Then;
    assert run == one + before + two + after + BackRun(k, email, b);
  }

  lemma OneStep(w: World, e: Event)
    ensures Then(w, [e], 1) == Next(w, e)
  {
    assert Then(w, [e], 0) == w;
    hide Next;
  }

  lemma NoSteps(w: World)
    ensures Then(w, [], 0) == w
  {
  }

  lemma ThreeSteps(w: World, k: Name, email: Name, b: Bytes)
    ensures Then(w, BackRun(k, email, b), 3) == Back(w, k, email, b)
  {
    hide Next;
    var run := BackRun(k, email, b);
    assert Then(w, run, 0) == w;
    assert Then(w, run, 1) == Next(w, AddPeer(k));
    assert Then(w, run, 2) == Next(Next(w, AddPeer(k)), Move(k, b));
  }

  /**
   * A key that comes back before its bytes were read is billed what it had moved
   * until then, and nothing of what it moved by the next poll, unless there was
   * nothing to read.
   */
  lemma {:induction false} ReturnUnread(k: Name, email: Name, a: Bytes, b: Bytes, sampled: bool)
    requires a.NonNegative() && b.NonNegative()
    ensures var run := ReturnRun(k, email, a, b, sampled, [], []);
            Charges(After(run, |run|), k, if a == Bytes(0, 0) then b else a)
  {
    hide Next, Back, Then, ReturnRun, Here, Away, Charges;
    Parts(k, email, a, b, sampled, [], []);
    var w1 := Back(INITIAL, k, email, a);
    HereFirst(k, email, a);
    NoSteps(w1);
    Leaves(w1, k, email, sampled, a, Bytes(0, 0), a);
    var w2 := Next(w1, RemovePeer(k, email, sampled));
    NoSteps(w2);
    BackUnbilled(w2, k, email, a, b);
  }

  lemma HereFirst(k: Name, email: Name, a: Bytes)
    requires a.NonNegative()
    ensures Here(Back(INITIAL, k, email, a), k, a, Bytes(0, 0), a)
  {
    hide Next, Here;
    Arrives(INITIAL, k, email, a);
  }

  /**
   * With a billing read before the removal, the new counter is taken for a
   * continuation of the old one if it has reached it, and for nothing if not.
   */
  lemma {:induction false} ReturnAfterRead(k: Name, email: Name, a: Bytes, b: Bytes, sampled: bool)
    requires a.NonNegative() && b.NonNegative()
    ensures var run := ReturnRun(k, email, a, b, sampled, [BillKey(k)], []);
            Charges(After(run, |run|), k, if a.AtMost(b) then b else a)
  {
    hide Next, Back, Then, ReturnRun, Here, Away, Charges;
    Parts(k, email, a, b, sampled, [BillKey(k)], []);
    var w1 := Back(INITIAL, k, email, a);
    HereFirst(k, email, a);
    OneStep(w1, BillKey(k));
    Reads(w1, k, a);
    Leaves(Next(w1, BillKey(k)), k, email, sampled, a, a, Bytes(0, 0));
    var w2 := Next(Next(w1, BillKey(k)), RemovePeer(k, email, sampled));
    NoSteps(w2);
    BackBilled(w2, k, email, a, b);
  }

  /** Read between the removal and the return, everything is billed. */
  lemma {:induction false} ReturnReadAway(k: Name, email: Name, a: Bytes, b: Bytes, sampled: bool)
    requires a.NonNegative() && b.NonNegative()
    ensures var run := ReturnRun(k, email, a, b, sampled, [], [BillKey(k)]);
            Charges(After(run, |run|), k, Bytes(a.rx + b.rx, a.tx + b.tx))
  {
    hide Next, Back, Then, ReturnRun, Here, Away, Forgotten, Charges;
    Parts(k, email, a, b, sampled, [], [BillKey(k)]);
    var w1 := Back(INITIAL, k, email, a);
    HereFirst(k, email, a);
    NoSteps(w1);
    Leaves(w1, k, email, sampled, a, Bytes(0, 0), a);
    var w2 := Next(w1, RemovePeer(k, email, sampled));
    OneStep(w2, BillKey(k));
    ReadAway(w2, k, a);
    BackForgotten(Next(w2, BillKey(k)), k, email, a, b);
  }

  /** And so it is if a clean-up came after a read and the removal. */
  lemma {:induction false} ReturnSwept(k: Name, email: Name, a: Bytes, b: Bytes, sampled: bool)
    requires a.NonNegative() && b.NonNegative()
    ensures var run := ReturnRun(k, email, a, b, sampled, [BillKey(k)], [CleanUp]);
            Charges(After(run, |run|), k, Bytes(a.rx + b.rx, a.tx + b.tx))
  {
    hide Next, Back, Then, ReturnRun, Here, Away, Forgotten, Charges;
    Parts(k, email, a, b, sampled, [BillKey(k)], [CleanUp]);
    var w1 := Back(INITIAL, k, email, a);
    HereFirst(k, email, a);
    OneStep(w1, BillKey(k));
    Reads(w1, k, a);
    Leaves(Next(w1, BillKey(k)), k, email, sampled, a, a, Bytes(0, 0));
    var w2 := Next(Next(w1, BillKey(k)), RemovePeer(k, email, sampled));
    OneStep(w2, CleanUp);
    SweptAway(w2, k, a);
    BackForgotten(Next(w2, CleanUp), k, email, a, b);
  }
}

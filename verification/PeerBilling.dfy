/**
 * WireGuard accounting end to end: kernel peer counters, the polls that sample
 * them (backend/wireguard/jobs.go), removals with their last-moment sample, and
 * the panel's reads of the tracker. A kernel counter starts again from zero
 * whenever its peer is added back or its interface is reset.
 */
module PeerBilling {
  import opened Traffic
  import opened StatsTracker

  datatype Event =
    | Move(key: Name, moved: Bytes)
    | Poll(key: Name, email: Name)
    | AddPeer(key: Name)
    | RemovePeer(key: Name, email: Name, sampled: bool)  // the last sample is best effort
    | ResetCounter(key: Name)
    | BillKey(key: Name)
    | BillAll
    | CleanUp

  datatype World = World(
    ledger: Ledger,
    counter: map<Name, Bytes>,    // kernel peers
    moved: map<Name, Bytes>,      // what each key really moved
    billed: map<Name, Bytes>,     // what the panel collected
    continuing: set<Name>)        // keys whose counter has not restarted since its last sample

  const INITIAL := World(map[], map[], map[], map[], {})

  function Bill(w: World, k: Name): map<Name, Bytes> {
    Added(w.billed, k, Unbilled(w.ledger, k, Uplink), Unbilled(w.ledger, k, Downlink))
  }

  function BillEvery(w: World): map<Name, Bytes> {
    map k | k in w.billed.Keys + w.ledger.Keys :: Bill(w, k)[k]
  }

  function Sampled(w: World, key: Name, email: Name): Ledger
    requires key in w.counter
  {
    Credit(w.ledger, Sample(key, email, w.counter[key]))
  }

  /** Events that make no sense in the current state leave it alone. */
  function Next(w: World, e: Event): World {
    match e
    case Move(k, b) =>
      if k in w.counter && b.NonNegative() then
        w.(counter := Added(w.counter, k, b.rx, b.tx), moved := Added(w.moved, k, b.rx, b.tx))
      else w
    case Poll(k, email) =>
      if k in w.counter then w.(ledger := Sampled(w, k, email), continuing := w.continuing + {k}) else w
    case AddPeer(k) =>
      if k in w.counter then w else w.(counter := w.counter[k := Bytes(0, 0)])
    case RemovePeer(k, email, sampled) =>
      if k in w.counter then
        w.(ledger := Retire(if sampled then Sampled(w, k, email) else w.ledger, k),
           counter := map j | j in w.counter && j != k :: w.counter[j],
           continuing := w.continuing - {k})
      else w
    case ResetCounter(k) =>
      if k in w.counter then w.(counter := w.counter[k := Bytes(0, 0)], continuing := w.continuing - {k}) else w
    case BillKey(k) => w.(ledger := Settle(w.ledger, k), billed := Bill(w, k))
    case BillAll => w.(ledger := SettleSome(w.ledger, w.ledger.Keys), billed := BillEvery(w))
    case CleanUp => w.(ledger := Sweep(w.ledger))
  }

  function After(events: seq<Event>, n: nat): World
    requires n <= |events|
  {
    if n == 0 then INITIAL else Next(After(events, n - 1), events[n - 1])
  }

  /** Bytes of `k` the tracker has not been shown yet. */
  function Unseen(w: World, k: Name, d: Direction): int {
    if k !in w.counter then 0
    else if k in w.continuing && k in w.ledger then w.counter[k].Of(d) - w.ledger[k].last.Of(d)
    else w.counter[k].Of(d)
  }

  // ------------------------------------------------------------ what is lost

  /**
   * A sample of a counter that restarted since the last one: if the tracker
   * notices, it credits nothing of it; if not, it takes the old reading off.
   */
  function LostBySample(w: World, k: Name, d: Direction): int {
    if k !in w.counter || k !in w.ledger || k in w.continuing then 0
    else if Discontinuous(w.ledger[k], w.counter[k]) then w.counter[k].Of(d)
    else w.ledger[k].last.Of(d)
  }

  /** What one event makes the tracker miss for good: a restart loses what was not sampled before it. */
  function Loss(w: World, e: Event, k: Name, d: Direction): int {
    match e
    case Poll(key, _) => if key == k then LostBySample(w, k, d) else 0
    case RemovePeer(key, _, sampled) =>
      if key != k then 0 else if sampled then LostBySample(w, k, d) else Unseen(w, k, d)
    case ResetCounter(key) => if key == k then Unseen(w, k, d) else 0
    case _ => 0
  }

  function LostBy(events: seq<Event>, n: nat, k: Name, d: Direction): int
    requires n <= |events|
  {
    if n == 0 then 0 else LostBy(events, n - 1, k, d) + Loss(After(events, n - 1), events[n - 1], k, d)
  }

  function Accounted(w: World, k: Name, d: Direction): int {
    At(w.billed, k, d) + Unbilled(w.ledger, k, d) + Unseen(w, k, d)
  }

  // ---------------------------------------------------------------- invariant

  ghost predicate Sound(w: World, k: Name) {
    && (k in w.counter ==> w.counter[k].NonNegative())
    && (k in w.ledger ==> w.ledger[k].last.NonNegative())
    && (k in w.continuing ==>
          k in w.counter && k in w.ledger && !w.ledger[k].gone && w.ledger[k].last.AtMost(w.counter[k]))
  }

  /** What an event does for one key: everything moved stays accounted for, but for the loss. */
  ghost predicate Balances(w: World, e: Event, k: Name, d: Direction) {
    && Accounted(Next(w, e), k, d) - At(Next(w, e).moved, k, d) == Accounted(w, k, d) - At(w.moved, k, d) - Loss(w, e, k, d)
    && 0 <= Loss(w, e, k, d)
  }

  lemma MoveBalances(w: World, key: Name, b: Bytes, k: Name, d: Direction)
    requires Sound(w, k)
    ensures Sound(Next(w, Move(key, b)), k) && Balances(w, Move(key, b), k, d)
  {
  }

  /** A sample shows the tracker all it had not seen, less what it misses. */
  lemma SampleCredits(w: World, k: Name, email: Name, d: Direction)
    requires Sound(w, k) && k in w.counter
    ensures Unbilled(Sampled(w, k, email), k, d) == Unbilled(w.ledger, k, d) + Unseen(w, k, d) - LostBySample(w, k, d)
    ensures 0 <= LostBySample(w, k, d)
  {
  }

  lemma SampleLeaves(w: World, key: Name, email: Name, k: Name)
    requires key in w.counter
    ensures var l := Sampled(w, key, email);
            && (key != k ==> (k in l <==> k in w.ledger) && (k in l ==> l[k] == w.ledger[k]))
            && (key == k ==> k in l && l[k].last == w.counter[k] && !l[k].gone)
  {
  }

  lemma RetireLeaves(l: Ledger, key: Name, k: Name, d: Direction)
    ensures Unbilled(Retire(l, key), k, d) == Unbilled(l, k, d)
    ensures k in Retire(l, key) <==> k in l
    ensures k in l ==> Retire(l, key)[k].last == l[k].last && (key != k ==> Retire(l, key)[k] == l[k])
  {
  }

  lemma PollBalances(w: World, key: Name, email: Name, k: Name, d: Direction)
    requires Sound(w, k)
    ensures Sound(Next(w, Poll(key, email)), k) && Balances(w, Poll(key, email), k, d)
  {
    if key in w.counter {
      SampleLeaves(w, key, email, k);
      if key == k {
        SampleCredits(w, k, email, d);
      }
      hide Sampled, Discontinuous;
    }
  }

  lemma AddBalances(w: World, key: Name, k: Name, d: Direction)
    requires Sound(w, k)
    ensures Sound(Next(w, AddPeer(key)), k) && Balances(w, AddPeer(key), k, d)
  {
  }

  lemma RemoveOwnBalances(w: World, k: Name, email: Name, sampled: bool, d: Direction)
    requires Sound(w, k) && k in w.counter
    ensures Sound(Next(w, RemovePeer(k, email, sampled)), k) && Balances(w, RemovePeer(k, email, sampled), k, d)
  {
    hide Sampled, Retire, Discontinuous, LostBySample;
    SampleLeaves(w, k, email, k);
    RetireLeaves(if sampled then Sampled(w, k, email) else w.ledger, k, k, d);
    SampleCredits(w, k, email, d);
  }

  lemma RemoveOtherBalances(w: World, key: Name, email: Name, sampled: bool, k: Name, d: Direction)
    requires Sound(w, k) && key in w.counter && key != k
    ensures Sound(Next(w, RemovePeer(key, email, sampled)), k) && Balances(w, RemovePeer(key, email, sampled), k, d)
  {
    hide Sampled, Retire, Discontinuous, LostBySample;
    SampleLeaves(w, key, email, k);
    RetireLeaves(if sampled then Sampled(w, key, email) else w.ledger, key, k, d);
  }

  lemma RemoveBalances(w: World, key: Name, email: Name, sampled: bool, k: Name, d: Direction)
    requires Sound(w, k)
    ensures Sound(Next(w, RemovePeer(key, email, sampled)), k) && Balances(w, RemovePeer(key, email, sampled), k, d)
  {
    hide Sound, Accounted, LostBySample, Retire, Sampled, Unseen;
    if key in w.counter && key == k {
      RemoveOwnBalances(w, k, email, sampled, d);
    } else if key in w.counter {
      RemoveOtherBalances(w, key, email, sampled, k, d);
    } else {
      AbsentBalances(w, key, email, sampled, k, d);
    }
  }

  lemma AbsentBalances(w: World, key: Name, email: Name, sampled: bool, k: Name, d: Direction)
    requires Sound(w, k) && key !in w.counter
    ensures Sound(Next(w, RemovePeer(key, email, sampled)), k) && Balances(w, RemovePeer(key, email, sampled), k, d)
  {
    hide Retire, Sampled, Discontinuous;
  }

  lemma ResetBalances(w: World, key: Name, k: Name, d: Direction)
    requires Sound(w, k)
    ensures Sound(Next(w, ResetCounter(key)), k) && Balances(w, ResetCounter(key), k, d)
  {
  }

  lemma BillKeyBalances(w: World, key: Name, k: Name, d: Direction)
    requires Sound(w, k)
    ensures Sound(Next(w, BillKey(key)), k) && Balances(w, BillKey(key), k, d)
  {
  }

  lemma BillAllBalances(w: World, k: Name, d: Direction)
    requires Sound(w, k)
    ensures Sound(Next(w, BillAll), k) && Balances(w, BillAll, k, d)
  {
  }

  lemma CleanUpBalances(w: World, k: Name, d: Direction)
    requires Sound(w, k)
    ensures Sound(Next(w, CleanUp), k) && Balances(w, CleanUp, k, d)
  {
  }

  lemma {:induction false} NextBalances(w: World, e: Event, k: Name, d: Direction)
    requires Sound(w, k)
    ensures Sound(Next(w, e), k) && Balances(w, e, k, d)
  {
    hide Sound, Next, Balances;
    match e
    case Move(key, b) => MoveBalances(w, key, b, k, d);
    case Poll(key, email) => PollBalances(w, key, email, k, d);
    case AddPeer(key) => AddBalances(w, key, k, d);
    case RemovePeer(key, email, sampled) => RemoveBalances(w, key, email, sampled, k, d);
    case ResetCounter(key) => ResetBalances(w, key, k, d);
    case BillKey(key) => BillKeyBalances(w, key, k, d);
    case BillAll => BillAllBalances(w, k, d);
    case CleanUp => CleanUpBalances(w, k, d);
  }

  lemma {:induction false} SoundAfter(events: seq<Event>, n: nat, k: Name, d: Direction)
    requires n <= |events|
    ensures Sound(After(events, n), k) && 0 <= LostBy(events, n, k, d)
    ensures Accounted(After(events, n), k, d) + LostBy(events, n, k, d) == At(After(events, n).moved, k, d)
  {
    if n > 0 {
      hide Sound, Next, Accounted, Loss, At;
      SoundAfter(events, n - 1, k, d);
      NextBalances(After(events, n - 1), events[n - 1], k, d);
    }
  }

  // ----------------------------------------------------------------- theorems

  /**
   * In every run, what a key has been or will be billed is what it moved, less
   * what it moved since the last sample and what restarts made the tracker miss.
   * So it is never too much, and exact after a poll if and only if nothing was
   * missed.
   */
  lemma {:induction false} BilledIs(events: seq<Event>, n: nat, k: Name, d: Direction)
    requires n <= |events|
    ensures var w := After(events, n);
            && At(w.billed, k, d) + Unbilled(w.ledger, k, d) == At(w.moved, k, d) - Unseen(w, k, d) - LostBy(events, n, k, d)
            && 0 <= Unseen(w, k, d) && 0 <= LostBy(events, n, k, d)
  {
    SoundAfter(events, n, k, d);
    hide After, LostBy;
  }

  /** What is missed, event by event: nothing altogether exactly if nothing each time. */
  ghost predicate NothingLost(events: seq<Event>, n: nat, k: Name, d: Direction)
    requires n <= |events|
  {
    n == 0 || (NothingLost(events, n - 1, k, d) && Loss(After(events, n - 1), events[n - 1], k, d) == 0)
  }

  lemma {:induction false} LostWhen(events: seq<Event>, n: nat, k: Name, d: Direction)
    requires n <= |events|
    ensures LostBy(events, n, k, d) == 0 <==> NothingLost(events, n, k, d)
  {
    if n > 0 {
      LostWhen(events, n - 1, k, d);
      SoundAfter(events, n - 1, k, d);
      hide Sound, Next, Accounted, At;
      NextBalances(After(events, n - 1), events[n - 1], k, d);
    }
  }

  /** An event that makes the counter of `k` start again. */
  predicate Restarts(e: Event, k: Name) {
    (e.RemovePeer? || e.ResetCounter?) && e.key == k
  }

  lemma {:induction false} ContinuesWithoutRestart(events: seq<Event>, n: nat, k: Name)
    requires n <= |events| && forall i :: 0 <= i < n ==> !Restarts(events[i], k)
    ensures k in After(events, n).ledger ==> k in After(events, n).continuing
  {
    if n > 0 {
      ContinuesWithoutRestart(events, n - 1, k);
      StepContinues(After(events, n - 1), events[n - 1], k);
      hide Next;
    }
  }

  lemma StepContinues(w: World, e: Event, k: Name)
    requires !Restarts(e, k) && (k in w.ledger ==> k in w.continuing)
    ensures k in Next(w, e).ledger ==> k in Next(w, e).continuing
  {
  }

  /** As long as a key's counter never restarts, nothing is missed. */
  lemma {:induction false} NothingLostWithoutRestart(events: seq<Event>, n: nat, k: Name, d: Direction)
    requires n <= |events| && forall i :: 0 <= i < n ==> !Restarts(events[i], k)
    ensures LostBy(events, n, k, d) == 0
  {
    if n > 0 {
      hide Next;
      NothingLostWithoutRestart(events, n - 1, k, d);
      ContinuesWithoutRestart(events, n - 1, k);
    }
  }

  // -------------------------------------------------------- a run with a restart

  /** Polled at `a`, reset, as a full sync does to every peer it keeps, and polled again after `b` more. */
  function ResetRun(k: Name, email: Name, a: Bytes, b: Bytes): (run: seq<Event>)
    ensures |run| == 6
  {
    [AddPeer(k), Move(k, a), Poll(k, email), ResetCounter(k), Move(k, b), Poll(k, email)]
  }

  ghost predicate Stands(w: World, k: Name, counter: Bytes, moved: Bytes) {
    k in w.counter && w.counter[k] == counter && k in w.moved && w.moved[k] == moved
  }

  lemma ResetStarts(w: World, k: Name, a: Bytes)
    requires w == INITIAL && a.NonNegative()
    ensures var w' := Next(Next(w, AddPeer(k)), Move(k, a));
            Stands(w', k, a, a) && k !in w'.ledger && At(w'.billed, k, Uplink) == 0 == At(w'.billed, k, Downlink)
  {
    var w1 := Next(w, AddPeer(k));
    assert w1.counter[k] == Bytes(0, 0) && k !in w1.moved;
  }

  lemma ResetPolls(w: World, k: Name, email: Name, a: Bytes)
    requires Stands(w, k, a, a) && k !in w.ledger
    ensures var w' := Next(Next(w, Poll(k, email)), ResetCounter(k));
            && Stands(w', k, Bytes(0, 0), a) && w'.billed == w.billed && k !in w'.continuing
            && k in w'.ledger && w'.ledger[k] == Account(email, a, a, false)
  {
  }

  lemma ResetPollsAgain(w: World, k: Name, email: Name, a: Bytes, b: Bytes)
    requires Stands(w, k, Bytes(0, 0), a) && k !in w.continuing && b.NonNegative()
    requires k in w.ledger && w.ledger[k] == Account(email, a, a, false)
    ensures var w' := Next(Next(w, Move(k, b)), Poll(k, email));
            && Stands(w', k, b, Bytes(a.rx + b.rx, a.tx + b.tx)) && w'.billed == w.billed
            && k in w'.ledger && w'.ledger[k].unbilled == if a.AtMost(b) then b else a
  {
  }

  /** One of the two amounts is missing from the bill: the second if it is the smaller in either direction, else the first. */
  lemma {:induction false} ResetLoses(k: Name, email: Name, a: Bytes, b: Bytes, d: Direction)
    requires a.NonNegative() && b.NonNegative()
    ensures var w := After(ResetRun(k, email, a, b), 6);
            && At(w.moved, k, d) == a.Of(d) + b.Of(d)
            && At(w.billed, k, d) + Unbilled(w.ledger, k, d) == if a.AtMost(b) then b.Of(d) else a.Of(d)
  {
    var events := ResetRun(k, email, a, b);
    assert After(events, 0) == INITIAL;
    assert events[0] == AddPeer(k) && events[1] == Move(k, a) && events[2] == Poll(k, email);
    assert events[3] == ResetCounter(k) && events[4] == Move(k, b) && events[5] == Poll(k, email);
    hide Next, ResetRun;
    ResetStarts(After(events, 0), k, a);
    TwoSteps(events, 0);
    ResetPolls(After(events, 2), k, email, a);
    TwoSteps(events, 2);
    ResetPollsAgain(After(events, 4), k, email, a, b);
    TwoSteps(events, 4);
    hide After;
  }

  lemma TwoSteps(events: seq<Event>, n: nat)
    requires n + 2 <= |events|
    ensures After(events, n + 2) == Next(Next(After(events, n), events[n]), events[n + 1])
  {
    hide Next;
  }
}

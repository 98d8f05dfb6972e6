/**
 * The per-key usage tracker shared by the WireGuard, OpenVPN and L2TP backends
 * (pkg/stats/tracker.go), and the labelling of its answers
 * (pkg/stats/interface_counters.go).
 *
 * `Tracker` keeps a moving base line and a parked delta per key. What it means
 * is the much simpler `Ledger`: the last counter value, the bytes not billed
 * yet, and whether the key is on its way out.
 */
module StatsTracker {
  import opened Traffic
  import opened Wrappers

  datatype Sample = Sample(publicKey: Name, email: Name, bytes: Bytes)

  datatype Stat = Stat(name: Name, kind: Direction, link: Name, value: int)

  // ------------------------------------------------------------ specification

  datatype Account = Account(email: Name, last: Bytes, unbilled: Bytes, gone: bool)

  type Ledger = map<Name, Account>

  function Unbilled(l: Ledger, key: Name, d: Direction): int {
    if key in l then l[key].unbilled.Of(d) else 0
  }

  /**
   * What a sample adds to its key. Nothing is credited when the counter went
   * back in either direction, nor to a key that comes back while bytes from
   * before its removal are still unbilled.
   */
  function Growth(l: Ledger, s: Sample, d: Direction): int {
    if s.publicKey !in l then s.bytes.Of(d)
    else if Discontinuous(l[s.publicKey], s.bytes) then 0
    else s.bytes.Of(d) - l[s.publicKey].last.Of(d)
  }

  predicate Discontinuous(a: Account, counter: Bytes) {
    (a.gone && a.unbilled != Bytes(0, 0)) || !a.last.AtMost(counter)
  }

  function Credit(l: Ledger, s: Sample): Ledger {
    l[s.publicKey := Account(s.email, s.bytes, Credited(l, s), false)]
  }

  function Credited(l: Ledger, s: Sample): Bytes {
    Bytes(Unbilled(l, s.publicKey, Uplink) + Growth(l, s, Uplink),
          Unbilled(l, s.publicKey, Downlink) + Growth(l, s, Downlink))
  }

  /** The ledger after the first `n` samples. */
  function CreditFirst(l: Ledger, samples: seq<Sample>, n: nat): Ledger
    requires n <= |samples|
  {
    if n == 0 then l else Credit(CreditFirst(l, samples, n - 1), samples[n - 1])
  }

  /** A billing read of one key: its bytes are handed over, and a departed key is dropped. */
  function Settle(l: Ledger, key: Name): Ledger {
    if key !in l then l
    else if l[key].gone then Without(l, key)
    else l[key := l[key].(unbilled := Bytes(0, 0))]
  }

  function Without(l: Ledger, key: Name): Ledger {
    map k | k in l && k != key :: l[k]
  }

  /** The ledger after a billing read of the first `n` keys. */
  function SettleFirst(l: Ledger, keys: seq<Name>, n: nat): Ledger
    requires n <= |keys|
  {
    if n == 0 then l else Settle(SettleFirst(l, keys, n - 1), keys[n - 1])
  }

  /** The ledger after a billing read of the keys in `done`. */
  function SettleSome(l: Ledger, done: set<Name>): Ledger {
    map k | k in l && !(k in done && l[k].gone) :: if k in done then l[k].(unbilled := Bytes(0, 0)) else l[k]
  }

  lemma SettleOneMore(l: Ledger, done: set<Name>, key: Name)
    requires key in l && key !in done
    ensures Settle(SettleSome(l, done), key) == SettleSome(l, done + {key})
    ensures forall d :: Unbilled(SettleSome(l, done), key, d) == Unbilled(l, key, d)
  {
  }

  function Retire(l: Ledger, key: Name): Ledger {
    if key in l then l[key := l[key].(gone := true)] else l
  }

  function Sweep(l: Ledger): Ledger {
    map k | k in l && !(l[k].gone && l[k].unbilled == Bytes(0, 0)) :: l[k]
  }

  // ----------------------------------------------------------------- answers

  /** A direction with no traffic is left out of the answer. */
  function BuildDeltaStats(name: Name, link: Name, delta: Bytes): seq<Stat> {
    OneDirection(name, Uplink, link, delta.rx) + OneDirection(name, Downlink, link, delta.tx)
  }

  function OneDirection(name: Name, kind: Direction, link: Name, value: int): seq<Stat> {
    if value > 0 then [Stat(name, kind, link, value)] else []
  }

  /** What an answer bills to one key in one direction. */
  function Reported(answer: seq<Stat>, key: Name, d: Direction): int {
    if answer == [] then 0
    else Value(answer[|answer| - 1], key, d) + Reported(answer[..|answer| - 1], key, d)
  }

  function Value(s: Stat, key: Name, d: Direction): int {
    if s.link == key && s.kind == d then s.value else 0
  }

  lemma {:induction false} ReportedConcat(a: seq<Stat>, b: seq<Stat>, key: Name, d: Direction)
    ensures Reported(a + b, key, d) == Reported(a, key, d) + Reported(b, key, d)
  {
    if b == [] {
      assert a + b == a;
    } else {
      ReportedConcat(a, b[..|b| - 1], key, d);
      assert (a + b)[..|a + b| - 1] == a + b[..|b| - 1];
    }
  }

  lemma ReportedSingle(s: Stat, key: Name, d: Direction)
    ensures Reported([s], key, d) == Value(s, key, d)
  {
    assert [s][..0] == [];
  }

  /** The labelled answer carries exactly the pending bytes of its key, each under its own direction. */
  lemma BuildDeltaStatsReports(name: Name, link: Name, delta: Bytes, key: Name, d: Direction)
    requires delta.NonNegative()
    ensures Reported(BuildDeltaStats(name, link, delta), key, d) == if key == link then delta.Of(d) else 0
  {
    ReportedConcat(OneDirection(name, Uplink, link, delta.rx), OneDirection(name, Downlink, link, delta.tx), key, d);
    ReportedSingle(Stat(name, Uplink, link, delta.rx), key, d);
    ReportedSingle(Stat(name, Downlink, link, delta.tx), key, d);
  }

  /** Every figure of an answer is billed to the owner of its key. */
  ghost predicate Labelled(l: Ledger, answer: seq<Stat>) {
    forall i :: 0 <= i < |answer| ==>
      answer[i].link in l && answer[i].name == l[answer[i].link].email && answer[i].value > 0
  }

  lemma LabelledConcat(l: Ledger, now: Ledger, a: seq<Stat>, b: seq<Stat>)
    requires Labelled(l, a) && Labelled(now, b)
    requires forall k :: k in now ==> k in l && now[k].email == l[k].email
    ensures Labelled(l, a + b)
  {
  }

  // ---------------------------------------------------------- implementation

  datatype Entry = Entry(email: Name, current: Bytes, base: Bytes, lastDelta: Bytes, isDeleted: bool) {
    function Pending(): Bytes {
      Bytes(current.rx - base.rx, current.tx - base.tx)
    }

    /**
     * The base line never passes the counter, so the two clamps at zero in
     * `ApplySample` change nothing; the parked delta is there exactly while the
     * entry is deleted, and is then the pending delta.
     */
    ghost predicate Valid() {
      && Pending().NonNegative()
      && lastDelta == if isDeleted then Pending() else Bytes(0, 0)
    }
  }

  function AccountOf(e: Entry): Account {
    Account(e.email, e.current, e.Pending(), e.isDeleted)
  }

  ghost function View(stats: map<Name, Entry>): Ledger {
    map k | k in stats :: AccountOf(stats[k])
  }

  lemma ViewUpdate(stats: map<Name, Entry>, key: Name, e: Entry)
    ensures View(stats[key := e]) == View(stats)[key := AccountOf(e)]
    ensures View(stats - {key}) == Without(View(stats), key)
  {
  }

  class Tracker {
    var stats: map<Name, Entry>

    ghost predicate Valid()
      reads this
    {
      forall k :: k in stats ==> stats[k].Valid()
    }

    ghost function Books(): Ledger
      reads this
    {
      View(stats)
    }

    constructor ()
      ensures Valid() && Books() == map[]
    {
      stats := map[];
    }

    method ApplySample(sample: Sample)
      requires Valid() && sample.bytes.NonNegative()
      modifies this
      ensures Valid() && Books() == Credit(old(Books()), sample)
    {
      var entry := if sample.publicKey in stats then stats[sample.publicKey]
                   else Entry(sample.email, Bytes(0, 0), Bytes(0, 0), Bytes(0, 0), false);
      entry := entry.(email := sample.email, isDeleted := false);

      var readded := false;
      if entry.lastDelta != Bytes(0, 0) {
        entry := entry.(base := Bytes(sample.bytes.rx - entry.lastDelta.rx, sample.bytes.tx - entry.lastDelta.tx),
                        lastDelta := Bytes(0, 0));
        readded := true;
      }
      if entry.current != sample.bytes {
        if !readded && (sample.bytes.rx < entry.current.rx || sample.bytes.tx < entry.current.tx) {
          var pendingRx := ClampAtZero(entry.current.rx - entry.base.rx);
          var pendingTx := ClampAtZero(entry.current.tx - entry.base.tx);
          entry := entry.(base := Bytes(sample.bytes.rx - pendingRx, sample.bytes.tx - pendingTx));
        }
        entry := entry.(current := sample.bytes);
      }
      assert AccountOf(entry) == Account(sample.email, sample.bytes, Credited(Books(), sample), false);
      ViewUpdate(stats, sample.publicKey, entry);
      stats := stats[sample.publicKey := entry];
    }

    method UpdateStatsBatch(samples: seq<Sample>)
      requires Valid() && forall s :: s in samples ==> s.bytes.NonNegative()
      modifies this
      ensures Valid() && Books() == CreditFirst(old(Books()), samples, |samples|)
    {
      hide Credit, View;
      for i := 0 to |samples|
        invariant Valid() && Books() == CreditFirst(old(Books()), samples, i)
      {
        ApplySample(samples[i]);
      }
    }

    /** What both reads do with one key: label its pending bytes and, on a reset, settle it. */
    method ReadEntry(key: Name, reset: bool) returns (chunk: seq<Stat>)
      requires Valid()
      modifies this
      ensures Valid() && Books() == if reset then Settle(old(Books()), key) else old(Books())
      ensures forall k, d :: Reported(chunk, k, d) == if k == key then Unbilled(old(Books()), key, d) else 0
      ensures Labelled(old(Books()), chunk)
    {
      if key !in stats {
        chunk := [];
        return;
      }
      var entry := stats[key];
      chunk := BuildDeltaStats(entry.email, key, entry.Pending());
      forall k, d ensures Reported(chunk, k, d) == if k == key then Unbilled(old(Books()), key, d) else 0 {
        BuildDeltaStatsReports(entry.email, key, entry.Pending(), k, d);
      }
      hide Unbilled;
      if reset {
        ViewUpdate(stats, key, entry.(base := entry.current));
        if entry.isDeleted {
          stats := stats - {key};
        } else {
          stats := stats[key := entry.(base := entry.current)];
        }
      }
    }

    method GetStats(keys: seq<Name>, reset: bool) returns (answer: seq<Stat>)
      requires Valid()
      modifies this
      ensures Valid() && Books() == if reset then SettleFirst(old(Books()), keys, |keys|) else old(Books())
      ensures forall k, d :: Reported(answer, k, d) == PaidByFirst(old(Books()), keys, |keys|, reset, k, d)
      ensures Labelled(old(Books()), answer)
    {
      answer := [];
      assert forall k, d :: Reported(answer, k, d) == 0;
      assert Labelled(old(Books()), answer);
      hide View, Settle, Unbilled, Labelled;
      for i := 0 to |keys|
        invariant Valid() && Books() == if reset then SettleFirst(old(Books()), keys, i) else old(Books())
        invariant forall k, d :: Reported(answer, k, d) == PaidByFirst(old(Books()), keys, i, reset, k, d)
        invariant Labelled(old(Books()), answer)
      {
        SettleFirstShows(old(Books()), keys, i);
        ghost var now := Books();
        var chunk := ReadEntry(keys[i], reset);
        LabelledConcat(old(Books()), now, answer, chunk);
        forall k, d ensures Reported(answer + chunk, k, d) == Reported(answer, k, d) + Reported(chunk, k, d) {
          ReportedConcat(answer, chunk, k, d);
        }
        answer := answer + chunk;
      }
    }

    /** Ranges over the map in any order. */
    method GetUsersStats(reset: bool) returns (answer: seq<Stat>)
      requires Valid()
      modifies this
      ensures Valid() && Books() == if reset then SettleSome(old(Books()), old(Books()).Keys) else old(Books())
      ensures forall k, d :: Reported(answer, k, d) == Unbilled(old(Books()), k, d)
      ensures Labelled(old(Books()), answer)
    {
      answer := [];
      ghost var start := Books();
      ghost var done: set<Name> := {};
      var todo := stats.Keys;
      assert forall k, d :: Reported(answer, k, d) == 0;
      assert Labelled(start, answer);
      hide Labelled;

      while todo != {}
        invariant Valid() && todo !! done && todo + done == start.Keys
        invariant Books() == if reset then SettleSome(start, done) else start
        invariant forall k, d :: Reported(answer, k, d) == if k in done then Unbilled(start, k, d) else 0
        invariant Labelled(start, answer)
      {
        var key :| key in todo;
        SettleOneMore(start, done, key);
        ghost var now := Books();
        var chunk := ReadEntry(key, reset);
        LabelledConcat(start, now, answer, chunk);
        forall k, d ensures Reported(answer + chunk, k, d) == Reported(answer, k, d) + Reported(chunk, k, d) {
          ReportedConcat(answer, chunk, k, d);
        }
        answer := answer + chunk;
        todo, done := todo - {key}, done + {key};
      }
    }

    method RemoveStats(publicKey: Name)
      requires Valid()
      modifies this
      ensures Valid() && Books() == Retire(old(Books()), publicKey)
    {
      if publicKey in stats {
        var entry := stats[publicKey];
        stats := stats[publicKey := entry.(lastDelta := entry.Pending(), isDeleted := true)];
      }
    }

    /** Drops departed keys that have nothing left to bill, and nothing else. */
    method CleanupDeletedEntries()
      requires Valid()
      modifies this
      ensures Valid() && Books() == Sweep(old(Books()))
    {
      var todo := stats.Keys;
      while todo != {}
        invariant Valid() && todo <= stats.Keys <= old(stats.Keys)
        invariant forall k :: k in stats ==> stats[k] == old(stats)[k]
        invariant forall k :: k in old(stats) && k !in todo ==>
                    (k in stats <==> !(old(stats)[k].isDeleted && old(stats)[k].current == old(stats)[k].base))
      {
        var key :| key in todo;
        todo := todo - {key};
        var entry := stats[key];
        if entry.isDeleted && entry.current == entry.base {
          stats := stats - {key};
        }
      }
    }
  }

  // -------------------------------------------------------------- whole runs

  datatype Op =
    | Batch(samples: seq<Sample>)
    | ReadKeys(keys: seq<Name>, reset: bool)
    | ReadAll(reset: bool)
    | Remove(key: Name)
    | Cleanup

  function Step(l: Ledger, op: Op): Ledger {
    match op
    case Batch(samples) => CreditFirst(l, samples, |samples|)
    case ReadKeys(keys, reset) => if reset then SettleFirst(l, keys, |keys|) else l
    case ReadAll(reset) => if reset then SettleSome(l, l.Keys) else l
    case Remove(key) => Retire(l, key)
    case Cleanup => Sweep(l)
  }

  /** What reading the first `n` keys one after the other answers for `key`. */
  function PaidByFirst(l: Ledger, keys: seq<Name>, n: nat, reset: bool, key: Name, d: Direction): int
    requires n <= |keys|
  {
    if n == 0 then
      0
    else
      var now := if reset then SettleFirst(l, keys, n - 1) else l;
      PaidByFirst(l, keys, n - 1, reset, key, d) + if keys[n - 1] == key then Unbilled(now, key, d) else 0
  }

  /** What one operation bills to `key`: only resetting reads count. */
  function Billed(l: Ledger, op: Op, key: Name, d: Direction): int {
    match op
    case ReadKeys(keys, true) => PaidByFirst(l, keys, |keys|, true, key, d)
    case ReadAll(true) => Unbilled(l, key, d)
    case _ => 0
  }

  /** The counter growth one operation credits to `key`. */
  function Grown(l: Ledger, op: Op, key: Name, d: Direction): int {
    if op.Batch? then GrownByFirst(l, op.samples, |op.samples|, key, d) else 0
  }

  function GrownByFirst(l: Ledger, samples: seq<Sample>, n: nat, key: Name, d: Direction): int
    requires n <= |samples|
  {
    if n == 0 then
      0
    else
      var s := samples[n - 1];
      GrownByFirst(l, samples, n - 1, key, d)
      + if s.publicKey == key then Growth(CreditFirst(l, samples, n - 1), s, d) else 0
  }

  /** The ledger after the first `n` operations of a run that starts with nothing. */
  function After(ops: seq<Op>, n: nat): Ledger
    requires n <= |ops|
  {
    if n == 0 then map[] else Step(After(ops, n - 1), ops[n - 1])
  }

  function BilledBy(ops: seq<Op>, n: nat, key: Name, d: Direction): int
    requires n <= |ops|
  {
    if n == 0 then 0 else BilledBy(ops, n - 1, key, d) + Billed(After(ops, n - 1), ops[n - 1], key, d)
  }

  function GrownBy(ops: seq<Op>, n: nat, key: Name, d: Direction): int
    requires n <= |ops|
  {
    if n == 0 then 0 else GrownBy(ops, n - 1, key, d) + Grown(After(ops, n - 1), ops[n - 1], key, d)
  }

  lemma CreditConserves(l: Ledger, s: Sample, key: Name, d: Direction)
    ensures Unbilled(Credit(l, s), key, d) == Unbilled(l, key, d) + if s.publicKey == key then Growth(l, s, d) else 0
  {
  }

  lemma {:induction false} CreditFirstConserves(l: Ledger, samples: seq<Sample>, n: nat, key: Name, d: Direction)
    requires n <= |samples|
    ensures Unbilled(CreditFirst(l, samples, n), key, d) == Unbilled(l, key, d) + GrownByFirst(l, samples, n, key, d)
  {
    hide Growth, Credit, Unbilled;
    if n > 0 {
      CreditFirstConserves(l, samples, n - 1, key, d);
      CreditConserves(CreditFirst(l, samples, n - 1), samples[n - 1], key, d);
    }
  }

  lemma SettleConserves(l: Ledger, read: Name, key: Name, d: Direction)
    ensures Unbilled(Settle(l, read), key, d) == if read == key then 0 else Unbilled(l, key, d)
  {
  }

  lemma {:induction false} SettleFirstConserves(l: Ledger, keys: seq<Name>, n: nat, key: Name, d: Direction)
    requires n <= |keys|
    ensures PaidByFirst(l, keys, n, true, key, d) + Unbilled(SettleFirst(l, keys, n), key, d) == Unbilled(l, key, d)
  {
    hide Settle, Unbilled;
    if n > 0 {
      SettleFirstConserves(l, keys, n - 1, key, d);
      SettleConserves(SettleFirst(l, keys, n - 1), keys[n - 1], key, d);
    }
  }

  lemma OtherStepsConserve(l: Ledger, retired: Name, key: Name, d: Direction)
    ensures Unbilled(SettleSome(l, l.Keys), key, d) == 0
    ensures Unbilled(Retire(l, retired), key, d) == Unbilled(l, key, d)
    ensures Unbilled(Sweep(l), key, d) == Unbilled(l, key, d)
  {
  }

  lemma StepConserves(l: Ledger, op: Op, key: Name, d: Direction)
    ensures Billed(l, op, key, d) + Unbilled(Step(l, op), key, d) == Unbilled(l, key, d) + Grown(l, op, key, d)
  {
    hide Unbilled, CreditFirst, GrownByFirst, SettleFirst, PaidByFirst, SettleSome, Sweep, Retire;
    match op
    case Batch(samples) => CreditFirstConserves(l, samples, |samples|, key, d);
    case ReadKeys(keys, reset) => SettleFirstConserves(l, keys, |keys|, key, d);
    case ReadAll(reset) => OtherStepsConserve(l, key, key, d);
    case Remove(k) => OtherStepsConserve(l, k, key, d);
    case Cleanup => OtherStepsConserve(l, key, key, d);
  }

  /**
   * At every point of every sequence of samples, reads, removals, re-additions
   * and clean-ups, billed plus pending is exactly the growth that was credited:
   * no operation loses a credited byte, and none bills it twice.
   */
  lemma {:induction false} Conservation(ops: seq<Op>, n: nat, key: Name, d: Direction)
    requires n <= |ops|
    ensures BilledBy(ops, n, key, d) + Unbilled(After(ops, n), key, d) == GrownBy(ops, n, key, d)
  {
    if n > 0 {
      Conservation(ops, n - 1, key, d);
      StepConserves(After(ops, n - 1), ops[n - 1], key, d);
    }
  }

  /** Samples with distinct keys touch one account each, whatever order they come in. */
  lemma {:induction false} CreditDistinct(l: Ledger, samples: seq<Sample>, n: nat, key: Name)
    requires n <= |samples|
    requires forall i, j :: 0 <= i < j < |samples| ==> samples[i].publicKey != samples[j].publicKey
    ensures (forall i :: 0 <= i < n ==> samples[i].publicKey != key) ==>
              (key in CreditFirst(l, samples, n) <==> key in l)
              && (key in l ==> CreditFirst(l, samples, n)[key] == l[key])
    ensures forall i :: 0 <= i < n && samples[i].publicKey == key ==>
              key in CreditFirst(l, samples, n) && CreditFirst(l, samples, n)[key] == Credit(l, samples[i])[key]
  {
    if n > 0 {
      CreditDistinct(l, samples, n - 1, key);
    }
  }

  // ------------------------------------------------- whose figures, and how old

  /** The last of the first `n` samples that is about `key`. */
  function LastOf(samples: seq<Sample>, n: nat, key: Name): Option<Sample>
    requires n <= |samples|
  {
    if n == 0 then None else if samples[n - 1].publicKey == key then Some(samples[n - 1]) else LastOf(samples, n - 1, key)
  }

  /** The last sample of `key` among all batches of the first `n` operations. */
  function LastSample(ops: seq<Op>, n: nat, key: Name): Option<Sample>
    requires n <= |ops|
  {
    if n == 0 then None
    else if ops[n - 1].Batch? && LastOf(ops[n - 1].samples, |ops[n - 1].samples|, key).Some? then
      LastOf(ops[n - 1].samples, |ops[n - 1].samples|, key)
    else LastSample(ops, n - 1, key)
  }

  ghost predicate Shows(l: Ledger, key: Name, s: Sample) {
    key in l && l[key].email == s.email && l[key].last == s.bytes
  }

  lemma {:induction false} BatchShows(l: Ledger, samples: seq<Sample>, n: nat, key: Name)
    requires n <= |samples|
    ensures match LastOf(samples, n, key)
            case Some(s) => Shows(CreditFirst(l, samples, n), key, s)
            case None => (key in CreditFirst(l, samples, n) <==> key in l)
                         && (key in l ==> CreditFirst(l, samples, n)[key] == l[key])
  {
    if n > 0 {
      BatchShows(l, samples, n - 1, key);
    }
  }

  lemma ReadsShow(l: Ledger, op: Op, key: Name)
    requires !op.Batch? && key in Step(l, op)
    ensures key in l && Step(l, op)[key].email == l[key].email && Step(l, op)[key].last == l[key].last
  {
    hide CreditFirst;
    if op.ReadKeys? {
      SettleFirstShows(l, op.keys, |op.keys|);
    }
  }

  lemma {:induction false} SettleFirstShows(l: Ledger, keys: seq<Name>, n: nat)
    requires n <= |keys|
    ensures forall k :: k in SettleFirst(l, keys, n) ==>
              k in l && SettleFirst(l, keys, n)[k].email == l[k].email && SettleFirst(l, keys, n)[k].last == l[k].last
  {
    if n > 0 {
      SettleFirstShows(l, keys, n - 1);
    }
  }

  /** In every run, a key the tracker has is billed to the owner its last sample named, from the counter it gave. */
  lemma {:induction false} BilledToLastOwner(ops: seq<Op>, n: nat, key: Name)
    requires n <= |ops| && key in After(ops, n)
    ensures LastSample(ops, n, key).Some? && Shows(After(ops, n), key, LastSample(ops, n, key).value)
  {
    hide Step;
    if n > 0 {
      var before, op := After(ops, n - 1), ops[n - 1];
      if op.Batch? {
        BatchShows(before, op.samples, |op.samples|, key);
        BatchSteps(before, op);
        hide CreditFirst, LastOf;
        if LastOf(op.samples, |op.samples|, key).None? {
          BilledToLastOwner(ops, n - 1, key);
        }
      } else {
        ReadsShow(before, op, key);
        BilledToLastOwner(ops, n - 1, key);
      }
    }
  }

  lemma BatchSteps(l: Ledger, op: Op)
    requires op.Batch?
    ensures Step(l, op) == CreditFirst(l, op.samples, |op.samples|)
  {
  }
}

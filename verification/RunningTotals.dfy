/**
 * The last stage every poll ends with (backend/openvpn/stats.go,
 * backend/l2tp/stats.go): one poll's growth per user is folded into running
 * totals per user and for the node, and the new totals are sampled.
 */
module RunningTotals {
  import opened Traffic
  import opened StatsTracker

  /** One sample per user that grew, carrying the new running total; the key is the user's name. */
  function CreditTotals(l: Ledger, growth: map<Name, Bytes>, totals: map<Name, Bytes>): Ledger
    requires growth.Keys <= totals.Keys
  {
    map k | k in l.Keys + growth.Keys ::
      if k in growth then Credit(l, Sample(k, k, totals[k]))[k] else l[k]
  }

  class Totals {
    const tracker: Tracker
    var cumulative: map<Name, Bytes>
    var total: Bytes

    constructor ()
      ensures Valid() && fresh(tracker)
      ensures Standing(map[]) == NO_MONEY
    {
      tracker := new Tracker();
      cumulative, total := map[], Bytes(0, 0);
    }

    ghost predicate Valid()
      reads this, tracker
    {
      && tracker.Valid()
      && (forall k :: k in cumulative ==> cumulative[k].NonNegative())
    }

    /** Where the accounts stand, given what the panel has collected so far. */
    ghost function Standing(billed: map<Name, Bytes>): Money
      reads this, tracker
    {
      Money(cumulative, total, tracker.Books(), billed)
    }

    method Absorb(growth: map<Name, Bytes>)
      requires Valid() && forall k :: k in growth ==> growth[k].NonNegative()
      modifies this, tracker
      ensures Valid() && Standing(map[]) == Absorbed(old(Standing(map[])), growth)
    {
      var samples := FoldGrowth(growth);
      MergedNonNegative(old(cumulative), growth);
      assert forall s :: s in samples ==> s.bytes.NonNegative();
      hide Lists, Merged, CreditTotals;
      CreditListed(tracker.Books(), samples, growth, cumulative);
      tracker.UpdateStatsBatch(samples);
    }

    /** User by user, in any order. */
    method FoldGrowth(growth: map<Name, Bytes>) returns (samples: seq<Sample>)
      modifies this
      ensures cumulative == Merged(old(cumulative), growth)
      ensures total == Bytes(old(total).rx + SumMap(growth, Uplink), old(total).tx + SumMap(growth, Downlink))
      ensures Lists(samples, growth, cumulative)
    {
      samples := [];
      var todo := growth.Keys;
      ghost var done := Except(growth, todo);
      MergedEmpty(cumulative);
      SumMapEmpty(done);
      assert Lists(samples, done, cumulative);
      hide SumMap, Merged, Lists, Except;
      while todo != {}
        invariant todo <= growth.Keys && done == Except(growth, todo)
        invariant cumulative == Merged(old(cumulative), done)
        invariant total == Bytes(old(total).rx + SumMap(done, Uplink), old(total).tx + SumMap(done, Downlink))
        invariant Lists(samples, done, cumulative)
      {
        var k :| k in todo;
        ExceptOneLess(growth, todo, k);
        SumMapUpdate(done, k, growth[k], Uplink);
        SumMapUpdate(done, k, growth[k], Downlink);
        MergedUpdate(old(cumulative), done, k, growth[k]);
        ListsSnoc(samples, done, cumulative, k, growth[k]);
        todo, done := todo - {k}, done[k := growth[k]];
        cumulative := Added(cumulative, k, growth[k].rx, growth[k].tx);
        samples := samples + [Sample(k, k, cumulative[k])];
        total := Bytes(total.rx + growth[k].rx, total.tx + growth[k].tx);
      }
      ExceptNothing(growth);
    }
  }

  ghost function Except(m: map<Name, Bytes>, todo: set<Name>): map<Name, Bytes> {
    map k | k in m && k !in todo :: m[k]
  }

  lemma ExceptOneLess(m: map<Name, Bytes>, todo: set<Name>, k: Name)
    requires k in todo && k in m
    ensures k !in Except(m, todo)
    ensures Except(m, todo - {k}) == Except(m, todo)[k := m[k]]
  {
  }

  lemma ExceptNothing(m: map<Name, Bytes>)
    ensures Except(m, {}) == m
  {
  }

  lemma MergedUpdate(m: map<Name, Bytes>, n: map<Name, Bytes>, k: Name, v: Bytes)
    requires k !in n
    ensures Added(Merged(m, n), k, v.rx, v.tx) == Merged(m, n[k := v])
  {
  }

  lemma MergedEmpty(m: map<Name, Bytes>)
    ensures Merged(m, map[]) == m
  {
  }

  lemma MergedNonNegative(m: map<Name, Bytes>, n: map<Name, Bytes>)
    requires forall k :: k in m ==> m[k].NonNegative()
    requires forall k :: k in n ==> n[k].NonNegative()
    ensures forall k :: k in Merged(m, n) ==> Merged(m, n)[k].NonNegative()
  {
  }

  /** `samples` holds, in some order, one sample of `totals` for every key of `growth`. */
  ghost predicate Lists(samples: seq<Sample>, growth: map<Name, Bytes>, totals: map<Name, Bytes>) {
    && growth.Keys <= totals.Keys
    && (forall i :: 0 <= i < |samples| ==>
          samples[i].publicKey in growth && samples[i] == Sample(samples[i].publicKey, samples[i].publicKey, totals[samples[i].publicKey]))
    && (forall i, j :: 0 <= i < j < |samples| ==> samples[i].publicKey != samples[j].publicKey)
    && (forall k :: k in growth ==> exists i :: 0 <= i < |samples| && samples[i].publicKey == k)
  }

  lemma ListsSnoc(samples: seq<Sample>, growth: map<Name, Bytes>, totals: map<Name, Bytes>, k: Name, v: Bytes)
    requires Lists(samples, growth, totals) && k !in growth
    ensures var totals' := Added(totals, k, v.rx, v.tx);
            Lists(samples + [Sample(k, k, totals'[k])], growth[k := v], totals')
  {
    var more := samples + [Sample(k, k, Added(totals, k, v.rx, v.tx)[k])];
    assert more[|samples|].publicKey == k;
    forall j | j in growth ensures exists i :: 0 <= i < |more| && more[i].publicKey == j {
      var i :| 0 <= i < |samples| && samples[i].publicKey == j;
      assert more[i].publicKey == j;
    }
  }

  lemma CreditListed(l: Ledger, samples: seq<Sample>, growth: map<Name, Bytes>, totals: map<Name, Bytes>)
    requires Lists(samples, growth, totals)
    ensures CreditFirst(l, samples, |samples|) == CreditTotals(l, growth, totals)
  {
    var result, expected := CreditFirst(l, samples, |samples|), CreditTotals(l, growth, totals);
    forall k ensures (k in result <==> k in expected) && (k in expected ==> result[k] == expected[k]) {
      CreditDistinct(l, samples, |samples|, k);
    }
  }

  // ----------------------------------------------- the accounts, and reads of them

  /** Running totals per user and for the node, the tracker they feed, and what the panel collected. */
  datatype Money = Money(cumulative: map<Name, Bytes>, total: Bytes, ledger: Ledger, billed: map<Name, Bytes>)

  const NO_MONEY := Money(map[], Bytes(0, 0), map[], map[])

  ghost function Absorbed(m: Money, growth: map<Name, Bytes>): Money {
    var cumulative := Merged(m.cumulative, growth);
    Money(cumulative,
          Bytes(m.total.rx + SumMap(growth, Uplink), m.total.tx + SumMap(growth, Downlink)),
          CreditTotals(m.ledger, growth, cumulative),
          m.billed)
  }

  function Bill(m: Money, k: Name): map<Name, Bytes> {
    Added(m.billed, k, Unbilled(m.ledger, k, Uplink), Unbilled(m.ledger, k, Downlink))
  }

  datatype Read = OneUser(k: Name) | AllUsers | CleanUp

  /** The panel's billing reads, and the tracker's own housekeeping. */
  function Reading(m: Money, r: Read): Money {
    match r
    case OneUser(k) => m.(ledger := Settle(m.ledger, k), billed := Bill(m, k))
    case AllUsers =>
      m.(ledger := SettleSome(m.ledger, m.ledger.Keys),
         billed := map k | k in m.billed.Keys + m.ledger.Keys :: Bill(m, k)[k])
    case CleanUp => m.(ledger := Sweep(m.ledger))
  }

  /** What a user has been billed or will be at the next read. */
  function Charged(m: Money, k: Name, d: Direction): int {
    At(m.billed, k, d) + Unbilled(m.ledger, k, d)
  }

  /** The tracker has seen every running total. */
  ghost predicate InStep(m: Money) {
    && m.ledger.Keys == m.cumulative.Keys
    && (forall k :: k in m.ledger ==> !m.ledger[k].gone && m.ledger[k].last == m.cumulative[k])
  }

  /** Charges are the running total; the node's total is the sum over its users. */
  ghost predicate Right(m: Money, k: Name, d: Direction) {
    && Charged(m, k, d) == At(m.cumulative, k, d)
    && m.total.Of(d) == SumMap(m.cumulative, d)
  }

  lemma NoMoneyRight(k: Name, d: Direction)
    ensures InStep(NO_MONEY) && Right(NO_MONEY, k, d)
  {
  }

  lemma AbsorbedInStep(m: Money, growth: map<Name, Bytes>)
    requires InStep(m)
    ensures InStep(Absorbed(m, growth))
  {
  }

  /** Growth passes through totals and tracker without loss. */
  lemma AbsorbedRight(m: Money, growth: map<Name, Bytes>, k: Name, d: Direction)
    requires InStep(m) && Right(m, k, d) && forall j :: j in growth ==> growth[j].NonNegative()
    ensures Right(Absorbed(m, growth), k, d)
    ensures Charged(Absorbed(m, growth), k, d) == Charged(m, k, d) + At(growth, k, d)
  {
    SumMapMerged(m.cumulative, growth, d);
    hide SumMap;
  }

  /** The node's total only ever grows. */
  lemma AbsorbedGrows(m: Money, growth: map<Name, Bytes>)
    requires forall j :: j in growth ==> growth[j].NonNegative()
    ensures m.total.AtMost(Absorbed(m, growth).total)
  {
    SumMapNonNegative(growth, Uplink);
    SumMapNonNegative(growth, Downlink);
    hide SumMap;
  }

  lemma AddedAt(m: map<Name, Bytes>, k: Name, rx: int, tx: int, j: Name, d: Direction)
    ensures At(Added(m, k, rx, tx), j, d) == At(m, j, d) + if j == k then Bytes(rx, tx).Of(d) else 0
  {
  }

  /** A read moves bytes from pending to billed; no read changes what a user is charged. */
  lemma ReadingRight(m: Money, r: Read, k: Name, d: Direction)
    requires InStep(m) && Right(m, k, d)
    ensures InStep(Reading(m, r)) && Right(Reading(m, r), k, d)
    ensures Charged(Reading(m, r), k, d) == Charged(m, k, d)
  {
    hide SumMap;
    match r
    case OneUser(j) =>
      SettleConserves(m.ledger, j, k, d);
      AddedAt(m.billed, j, Unbilled(m.ledger, j, Uplink), Unbilled(m.ledger, j, Downlink), k, d);
    case AllUsers =>
      OtherStepsConserve(m.ledger, k, k, d);
      AddedAt(m.billed, k, Unbilled(m.ledger, k, Uplink), Unbilled(m.ledger, k, Downlink), k, d);
    case CleanUp =>
      OtherStepsConserve(m.ledger, k, k, d);
  }
}

/** Byte counters in both directions, and sums over finite maps. */
module Traffic {

  /** A user, peer key, client id or interface: billing only ever compares them. */
  type Name(==, 0, !new)

  /** The empty string among them. */
  const NO_NAME: Name

  /** As the client sees it: what the server received is the client's upload. */
  datatype Direction = Uplink | Downlink

  /** `rx` is what the server received from the client, `tx` what it sent. */
  datatype Bytes = Bytes(rx: int, tx: int) {
    function Of(d: Direction): int {
      if d.Uplink? then rx else tx
    }

    predicate AtMost(other: Bytes) {
      rx <= other.rx && tx <= other.tx
    }

    predicate NonNegative() {
      0 <= rx && 0 <= tx
    }
  }

  function ClampAtZero(n: int): int {
    if n < 0 then 0 else n
  }

  /** The entry at `k` in one direction, counting an absent one as zero: how Go reads a map. */
  function At<K>(m: map<K, Bytes>, k: K, d: Direction): int {
    if k in m then m[k].Of(d) else 0
  }

  /** `m` with `rx` and `tx` added at `k`. */
  function Added<K>(m: map<K, Bytes>, k: K, rx: int, tx: int): map<K, Bytes> {
    m[k := Bytes(At(m, k, Uplink) + rx, At(m, k, Downlink) + tx)]
  }

  /** Key-wise sum: how a poll's growth is folded into running totals. */
  function Merged<K>(m: map<K, Bytes>, n: map<K, Bytes>): map<K, Bytes> {
    map k | k in m.Keys + n.Keys :: Bytes(At(m, k, Uplink) + At(n, k, Uplink), At(m, k, Downlink) + At(n, k, Downlink))
  }

  /** The sum of all values of a map in one direction. */
  ghost function SumMap<K>(m: map<K, Bytes>, d: Direction): int {
    if m == map[] then
      0
    else
      var k :| k in m;
      m[k].Of(d) + SumMap(m - {k}, d)
  }

  lemma SumMapEmpty<K>(m: map<K, Bytes>)
    requires m == map[]
    ensures forall d :: SumMap(m, d) == 0
  {
  }

  /** The order in which a map is summed does not matter. */
  lemma {:induction false} SumMapRemove<K>(m: map<K, Bytes>, k: K, d: Direction)
    requires k in m
    ensures SumMap(m, d) == m[k].Of(d) + SumMap(m - {k}, d)
    decreases |m|
  {
    var picked :| picked in m && SumMap(m, d) == m[picked].Of(d) + SumMap(m - {picked}, d);
    if picked == k {
      assert {picked} == {k};
    } else {
      Shrinks(m, picked);
      Shrinks(m, k);
      SumMapRemove(m - {picked}, k, d);
      SumMapRemove(m - {k}, picked, d);
      assert m - {picked} - {k} == m - {k} - {picked};
    }
  }

  lemma Shrinks<K>(m: map<K, Bytes>, k: K)
    requires k in m
    ensures |m - {k}| < |m|
  {
    assert (m - {k}).Keys == m.Keys - {k};
    assert |m.Keys| == |m|;
    assert |(m - {k}).Keys| == |m - {k}|;
  }

  lemma SumMapUpdate<K>(m: map<K, Bytes>, k: K, v: Bytes, d: Direction)
    ensures SumMap(m[k := v], d) == SumMap(m, d) - At(m, k, d) + v.Of(d)
  {
    var m' := m[k := v];
    SumMapRemove(m', k, d);
    if k in m {
      SumMapRemove(m, k, d);
      assert m' - {k} == m - {k};
    } else {
      assert m' - {k} == m;
    }
  }

  lemma {:induction false} SumMapAtMost<K>(m: map<K, Bytes>, n: map<K, Bytes>, d: Direction)
    requires m.Keys == n.Keys
    requires forall k :: k in m ==> m[k].Of(d) <= n[k].Of(d)
    ensures SumMap(m, d) <= SumMap(n, d)
    decreases |m|
  {
    if m == map[] {
      assert n == map[];
    } else {
      var k :| k in m;
      SumMapRemove(m, k, d);
      SumMapRemove(n, k, d);
      Shrinks(m, k);
      SumMapAtMost(m - {k}, n - {k}, d);
    }
  }

  lemma {:induction false} SumMapNonNegative<K>(m: map<K, Bytes>, d: Direction)
    requires forall k :: k in m ==> m[k].NonNegative()
    ensures 0 <= SumMap(m, d)
    decreases |m|
  {
    if m != map[] {
      var k :| k in m;
      SumMapRemove(m, k, d);
      Shrinks(m, k);
      SumMapNonNegative(m - {k}, d);
    }
  }

  /** The accounts of `m` that `owner` puts down to `who`. */
  ghost function Share<K>(m: map<K, Bytes>, owner: map<K, Name>, who: Name): map<K, Bytes> {
    map k | k in m && k in owner && owner[k] == who :: m[k]
  }

  /** What `who` holds over all the accounts in `m`. */
  ghost function TotalOf<K>(m: map<K, Bytes>, owner: map<K, Name>, who: Name, d: Direction): int {
    SumMap(Share(m, owner, who), d)
  }

  lemma TotalOfUpdate<K>(m: map<K, Bytes>, owner: map<K, Name>, who: Name, k: K, v: Bytes, d: Direction)
    requires k in owner
    ensures TotalOf(m[k := v], owner, who, d)
         == TotalOf(m, owner, who, d) + if owner[k] == who then v.Of(d) - At(m, k, d) else 0
  {
    if owner[k] == who {
      SumMapUpdate(Share(m, owner, who), k, v, d);
      assert Share(m[k := v], owner, who) == Share(m, owner, who)[k := v];
    } else {
      assert Share(m[k := v], owner, who) == Share(m, owner, who);
    }
  }

  /** An account nobody has charged yet changes no total. */
  lemma TotalOfNewAccount<K>(m: map<K, Bytes>, owner: map<K, Name>, who: Name, k: K, whose: Name, d: Direction)
    requires k !in m
    ensures TotalOf(m[k := Bytes(0, 0)], owner[k := whose], who, d) == TotalOf(m, owner, who, d)
  {
    var owner' := owner[k := whose];
    assert Share(m, owner', who) == Share(m, owner, who);
    TotalOfUpdate(m, owner', who, k, Bytes(0, 0), d);
  }

  lemma TotalOfAtMost<K>(m: map<K, Bytes>, n: map<K, Bytes>, owner: map<K, Name>, who: Name, d: Direction)
    requires m.Keys == n.Keys
    requires forall k :: k in m ==> m[k].Of(d) <= n[k].Of(d)
    ensures TotalOf(m, owner, who, d) <= TotalOf(n, owner, who, d)
  {
    SumMapAtMost(Share(m, owner, who), Share(n, owner, who), d);
  }

  lemma {:induction false} SumMapSum<K>(m: map<K, Bytes>, a: map<K, Bytes>, b: map<K, Bytes>, d: Direction)
    requires m.Keys == a.Keys == b.Keys
    requires forall k :: k in m ==> m[k].Of(d) == a[k].Of(d) + b[k].Of(d)
    ensures SumMap(m, d) == SumMap(a, d) + SumMap(b, d)
    decreases |m|
  {
    if m == map[] {
      assert a == map[] && b == map[];
    } else {
      var k :| k in m;
      SumMapRemove(m, k, d);
      SumMapRemove(a, k, d);
      SumMapRemove(b, k, d);
      Shrinks(m, k);
      SumMapSum(m - {k}, a - {k}, b - {k}, d);
    }
  }

  /** Accounts that add up one by one add up for everybody. */
  lemma TotalOfSum<K>(m: map<K, Bytes>, a: map<K, Bytes>, b: map<K, Bytes>, owner: map<K, Name>, who: Name, d: Direction)
    requires m.Keys == a.Keys == b.Keys
    requires forall k :: k in m ==> m[k].Of(d) == a[k].Of(d) + b[k].Of(d)
    ensures TotalOf(m, owner, who, d) == TotalOf(a, owner, who, d) + TotalOf(b, owner, who, d)
  {
    SumMapSum(Share(m, owner, who), Share(a, owner, who), Share(b, owner, who), d);
  }

  ghost function Difference<K>(a: map<K, Bytes>, b: map<K, Bytes>): map<K, Bytes> {
    map k | k in a :: Bytes(a[k].rx - At(b, k, Uplink), a[k].tx - At(b, k, Downlink))
  }

  lemma TotalOfDifference<K>(a: map<K, Bytes>, b: map<K, Bytes>, owner: map<K, Name>, who: Name, d: Direction)
    requires a.Keys == b.Keys
    ensures TotalOf(Difference(a, b), owner, who, d) == TotalOf(a, owner, who, d) - TotalOf(b, owner, who, d)
  {
    hide TotalOf;
    TotalOfSum(a, b, Difference(a, b), owner, who, d);
  }

  /** If what `a` grows by is, account by account, what `b` and `c` grow by, so it is for everybody. */
  lemma TotalOfBalance<K>(a: map<K, Bytes>, a': map<K, Bytes>, b: map<K, Bytes>, b': map<K, Bytes>, c: map<K, Bytes>, c': map<K, Bytes>,
                          owner: map<K, Name>, who: Name, d: Direction)
    requires a.Keys == a'.Keys == b.Keys == b'.Keys == c.Keys == c'.Keys
    requires forall k :: k in a ==> At(a', k, d) - At(a, k, d) == (At(b', k, d) - At(b, k, d)) + (At(c', k, d) - At(c, k, d))
    ensures TotalOf(a', owner, who, d) - TotalOf(a, owner, who, d)
         == (TotalOf(b', owner, who, d) - TotalOf(b, owner, who, d)) + (TotalOf(c', owner, who, d) - TotalOf(c, owner, who, d))
  {
    hide TotalOf;
    TotalOfDifference(a', a, owner, who, d);
    TotalOfDifference(b', b, owner, who, d);
    TotalOfDifference(c', c, owner, who, d);
    TotalOfSum(Difference(a', a), Difference(b', b), Difference(c', c), owner, who, d);
  }

  lemma TotalOfZero<K>(m: map<K, Bytes>, owner: map<K, Name>, who: Name, d: Direction)
    requires forall k :: k in m ==> m[k] == Bytes(0, 0)
    ensures TotalOf(m, owner, who, d) == 0
  {
    SumMapSum(Share(m, owner, who), Share(m, owner, who), Share(m, owner, who), d);
  }

  /** Somebody with one account. */
  lemma OneOfTheUser<K>(m: map<K, Bytes>, owner: map<K, Name>, k: K, who: Name, d: Direction)
    requires k in m && m.Keys == owner.Keys && forall j :: j in owner ==> (owner[j] == who <==> j == k)
    ensures TotalOf(m, owner, who, d) == m[k].Of(d)
  {
    var share := Share(m, owner, who);
    assert share.Keys == {k};
    SumMapRemove(share, k, d);
    assert share - {k} == map[];
  }

  lemma MergedOneMore<K>(m: map<K, Bytes>, n: map<K, Bytes>, k: K)
    requires k in n
    ensures Merged(m, n) == Added(Merged(m, n - {k}), k, n[k].rx, n[k].tx)
  {
  }

  lemma {:induction false} SumMapMerged<K>(m: map<K, Bytes>, n: map<K, Bytes>, d: Direction)
    ensures SumMap(Merged(m, n), d) == SumMap(m, d) + SumMap(n, d)
    decreases |n|
  {
    if n == map[] {
      assert Merged(m, n) == m;
    } else {
      var k :| k in n;
      var part := Merged(m, n - {k});
      Shrinks(n, k);
      SumMapMerged(m, n - {k}, d);
      SumMapRemove(n, k, d);
      MergedOneMore(m, n, k);
      hide SumMap, Merged;
      SumMapUpdate(part, k, Added(part, k, n[k].rx, n[k].tx)[k], d);
    }
  }
}

/**
 * The kernel's WireGuard peer table, and the changes the node makes to it
 * (backend/wireguard/user_common.go, `buildSyncDiff`).
 *
 * An address range belongs to at most one peer: giving it to one takes it away
 * from whoever had it.
 */
module WgKernel {
  import opened Traffic
  import opened WgPeerStore

  type Kernel = map<Name, set<Name>>

  const NO_PEERS: Kernel := map[]

  datatype Config = Set(key: Name, ips: seq<Name>, replace: bool) | Remove(key: Name)

  function Ranges(ips: seq<Name>): set<Name> {
    set c | c in ips
  }

  function Applied(k: Kernel, c: Config): Kernel {
    match c
    case Remove(key) => map j | j in k && j != key :: k[j]
    case Set(key, ips, replace) =>
      map j | j in k.Keys + {key} ::
        if j != key then k[j] - Ranges(ips)
        else if j in k && !replace then k[j] + Ranges(ips)
        else Ranges(ips)
  }

  /** The kernel takes a list of changes in order. */
  function ApplyFirst(k: Kernel, configs: seq<Config>, n: nat): Kernel
    requires n <= |configs|
  {
    if n == 0 then k else Applied(ApplyFirst(k, configs, n - 1), configs[n - 1])
  }

  ghost predicate Exclusive(k: Kernel) {
    forall i, j :: i in k && j in k && i != j ==> k[i] !! k[j]
  }

  lemma {:induction false} ApplyKeepsExclusive(k: Kernel, configs: seq<Config>, n: nat)
    requires n <= |configs| && Exclusive(k)
    ensures Exclusive(ApplyFirst(k, configs, n))
  {
    if n > 0 {
      ApplyKeepsExclusive(k, configs, n - 1);
    }
  }

  // ------------------------------------------------------- sets, then removals

  /** Ranges handed out by the first `n` changes. */
  ghost function Taken(configs: seq<Config>, n: nat): set<Name>
    requires n <= |configs|
  {
    if n == 0 then {}
    else Taken(configs, n - 1) + if configs[n - 1].Set? then Ranges(configs[n - 1].ips) else {}
  }

  /** Settings for different peers that want different ranges. */
  ghost predicate Separate(sets: seq<Config>) {
    && (forall i :: 0 <= i < |sets| ==> sets[i].Set?)
    && (forall i, j :: 0 <= i < j < |sets| ==> sets[i].key != sets[j].key)
    && (forall i, j :: 0 <= i < j < |sets| ==> Ranges(sets[i].ips) !! Ranges(sets[j].ips))
  }

  /** A peer that is set ends up with exactly its ranges, in whatever order the settings come. */
  lemma {:induction false} SetPeer(k: Kernel, sets: seq<Config>, n: nat, i: nat)
    requires Separate(sets) && i < n <= |sets| && (sets[i].replace || sets[i].key !in k)
    ensures sets[i].key in ApplyFirst(k, sets, n) && ApplyFirst(k, sets, n)[sets[i].key] == Ranges(sets[i].ips)
  {
    if i < n - 1 {
      SetPeer(k, sets, n - 1, i);
      assert Ranges(sets[i].ips) !! Ranges(sets[n - 1].ips);
      hide Ranges;
    } else {
      OtherPeer(k, sets, n - 1, sets[i].key);
    }
  }

  /** A peer that is not set keeps what nobody else was given. */
  lemma {:induction false} OtherPeer(k: Kernel, sets: seq<Config>, n: nat, key: Name)
    requires n <= |sets| && forall i :: 0 <= i < n ==> sets[i].Set? && sets[i].key != key
    ensures key in ApplyFirst(k, sets, n) <==> key in k
    ensures key in k ==> ApplyFirst(k, sets, n)[key] == k[key] - Taken(sets, n)
  {
    if n > 0 {
      OtherPeer(k, sets, n - 1, key);
      hide Ranges;
    }
  }

  function Removals(keys: seq<Name>): (r: seq<Config>)
    ensures |r| == |keys| && forall i :: 0 <= i < |keys| ==> r[i] == Remove(keys[i])
  {
    seq(|keys|, i requires 0 <= i < |keys| => Remove(keys[i]))
  }

  lemma {:induction false} RemovedPeers(k: Kernel, keys: seq<Name>, n: nat, key: Name)
    requires n <= |keys|
    ensures key in ApplyFirst(k, Removals(keys), n) <==> key in k && key !in keys[..n]
    ensures key in ApplyFirst(k, Removals(keys), n) ==> ApplyFirst(k, Removals(keys), n)[key] == k[key]
  {
    if n > 0 {
      RemovedPeers(k, keys, n - 1, key);
      assert keys[..n] == keys[..n - 1] + [keys[n - 1]];
    }
  }

  lemma {:induction false} ApplyConcat(k: Kernel, a: seq<Config>, b: seq<Config>, n: nat)
    requires n <= |b|
    ensures ApplyFirst(k, a + b, |a| + n) == ApplyFirst(ApplyFirst(k, a, |a|), b, n)
    decreases n
  {
    if n == 0 {
      ApplyPrefix(k, a, b, |a|);
    } else {
      ApplyConcat(k, a, b, n - 1);
      assert (a + b)[|a| + n - 1] == b[n - 1];
    }
  }

  lemma {:induction false} ApplyPrefix(k: Kernel, a: seq<Config>, b: seq<Config>, n: nat)
    requires n <= |a|
    ensures ApplyFirst(k, a + b, n) == ApplyFirst(k, a, n)
  {
    if n > 0 {
      ApplyPrefix(k, a, b, n - 1);
    }
  }

  // ----------------------------------------------------------------- the diff

  datatype Diff = Diff(removeKeys: seq<Name>, upserts: seq<Peer>, sets: seq<Config>) {
    function Configs(): seq<Config> {
      sets + Removals(removeKeys)
    }
  }

  /** The key's peer is new or differs; one without addresses cannot be configured, so it is passed over. */
  predicate Changes(existing: map<Name, Peer>, desired: map<Name, Peer>, key: Name)
    requires key in desired
  {
    if key in existing then
      && (existing[key].email != desired[key].email || existing[key].ips != desired[key].ips)
      && (existing[key].ips == desired[key].ips || desired[key].ips != [])
    else
      desired[key].ips != []
  }

  /** The kernel needs to hear about it. */
  predicate Reconfigures(existing: map<Name, Peer>, desired: map<Name, Peer>, key: Name)
    requires key in desired
  {
    desired[key].ips != [] && (key in existing ==> existing[key].ips != desired[key].ips)
  }

  ghost predicate Lists(keys: seq<Name>, all: set<Name>) {
    (forall k :: k in keys <==> k in all) && (forall i, j :: 0 <= i < j < |keys| ==> keys[i] != keys[j])
  }

  ghost predicate IsDiff(existing: map<Name, Peer>, desired: map<Name, Peer>, d: Diff) {
    && Lists(d.removeKeys, existing.Keys - desired.Keys)
    && UpsertsAre(existing, desired, d.upserts)
    && SetsAre(existing, desired, d.sets)
  }

  ghost predicate UpsertsAre(existing: map<Name, Peer>, desired: map<Name, Peer>, upserts: seq<Peer>) {
    && (forall i :: 0 <= i < |upserts| ==>
          && upserts[i].key in desired && desired[upserts[i].key] == upserts[i]
          && Changes(existing, desired, upserts[i].key))
    && (forall i, j :: 0 <= i < j < |upserts| ==> upserts[i].key != upserts[j].key)
    && (forall k :: k in desired && Changes(existing, desired, k) ==> desired[k] in upserts)
  }

  ghost predicate SetsAre(existing: map<Name, Peer>, desired: map<Name, Peer>, sets: seq<Config>) {
    && (forall i :: 0 <= i < |sets| ==>
          && sets[i].Set? && sets[i].key in desired && Reconfigures(existing, desired, sets[i].key)
          && sets[i] == Setting(existing, desired, sets[i].key))
    && (forall i, j :: 0 <= i < j < |sets| ==> sets[i].key != sets[j].key)
    && (forall k :: k in desired && Reconfigures(existing, desired, k) ==> Setting(existing, desired, k) in sets)
  }

  function Setting(existing: map<Name, Peer>, desired: map<Name, Peer>, key: Name): Config
    requires key in desired
  {
    Set(key, desired[key].ips, key in existing)
  }

  /** All maps are ranged over in any order; updates and additions are taken in one pass. */
  method BuildSyncDiff(existing: map<Name, Peer>, desired: map<Name, Peer>) returns (d: Diff)
    requires forall k :: k in desired ==> desired[k].key == k
    ensures IsDiff(existing, desired, d)
  {
    var removeKeys := ListKeys(existing.Keys - desired.Keys);
    var upserts: seq<Peer>, sets: seq<Config> := [], [];
    var todo := desired.Keys;
    while todo != {}
      invariant todo <= desired.Keys
      invariant UpsertsAre(existing, Except(desired, todo), upserts)
      invariant SetsAre(existing, Except(desired, todo), sets)
    {
      var key :| key in todo;
      var target := desired[key];
      ghost var done := Except(desired, todo);
      assert Except(desired, todo - {key}) == done[key := target];
      var changed, reconfigured := false, false;
      if key in existing {
        var ipsEqual := existing[key].ips == target.ips;
        if existing[key].email != target.email || !ipsEqual {
          reconfigured := !ipsEqual && target.ips != [];
          changed := ipsEqual || target.ips != [];
        }
      } else {
        changed, reconfigured := target.ips != [], target.ips != [];
      }
      UpsertsOneMore(existing, done, upserts, target);
      SetsOneMore(existing, done, sets, target);
      hide UpsertsAre, SetsAre;
      if changed {
        upserts := upserts + [target];
      }
      if reconfigured {
        sets := sets + [Set(key, target.ips, key in existing)];
      }
      todo := todo - {key};
    }
    assert Except(desired, {}) == desired;
    d := Diff(removeKeys, upserts, sets);
  }

  /** The settings of a full snapshot, and the peers they are for; one without addresses is passed over. */
  method BuildTargetPeerConfigs(targets: map<Name, Peer>) returns (sets: seq<Config>, applied: seq<Peer>)
    requires forall k :: k in targets ==> targets[k].key == k
    ensures SetsAre(map[], targets, sets) && UpsertsAre(map[], targets, applied)
  {
    sets, applied := [], [];
    var todo := targets.Keys;
    while todo != {}
      invariant todo <= targets.Keys
      invariant UpsertsAre(map[], Except(targets, todo), applied)
      invariant SetsAre(map[], Except(targets, todo), sets)
    {
      var key :| key in todo;
      ghost var done := Except(targets, todo);
      assert Except(targets, todo - {key}) == done[key := targets[key]];
      UpsertsOneMore(map[], done, applied, targets[key]);
      SetsOneMore(map[], done, sets, targets[key]);
      hide UpsertsAre, SetsAre;
      if targets[key].ips != [] {
        sets := sets + [Set(key, targets[key].ips, false)];
        applied := applied + [targets[key]];
      }
      todo := todo - {key};
    }
    assert Except(targets, {}) == targets;
  }

  ghost function Except(m: map<Name, Peer>, todo: set<Name>): map<Name, Peer> {
    map k | k in m && k !in todo :: m[k]
  }

  lemma UpsertsOneMore(existing: map<Name, Peer>, done: map<Name, Peer>, upserts: seq<Peer>, p: Peer)
    requires UpsertsAre(existing, done, upserts) && p.key !in done
    ensures var more := done[p.key := p];
            UpsertsAre(existing, more, if Changes(existing, more, p.key) then upserts + [p] else upserts)
  {
    var more := done[p.key := p];
    assert forall k :: k in done ==> (Changes(existing, more, k) <==> Changes(existing, done, k));
  }

  lemma SetsOneMore(existing: map<Name, Peer>, done: map<Name, Peer>, sets: seq<Config>, p: Peer)
    requires SetsAre(existing, done, sets) && p.key !in done
    ensures var more := done[p.key := p];
            SetsAre(existing, more, if Reconfigures(existing, more, p.key) then sets + [Setting(existing, more, p.key)] else sets)
  {
    var more := done[p.key := p];
    assert forall k :: k in done ==> (Reconfigures(existing, more, k) <==> Reconfigures(existing, done, k));
    assert forall k :: k in done ==> Setting(existing, more, k) == Setting(existing, done, k);
  }

  method ListKeys(all: set<Name>) returns (keys: seq<Name>)
    ensures Lists(keys, all)
  {
    keys := [];
    var todo := all;
    while todo != {}
      invariant todo <= all
      invariant forall k :: k in keys <==> k in all && k !in todo
      invariant forall i, j :: 0 <= i < j < |keys| ==> keys[i] != keys[j]
    {
      var k :| k in todo;
      keys, todo := keys + [k], todo - {k};
    }
  }
}

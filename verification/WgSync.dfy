/**
 * WireGuard user sync (backend/wireguard/user_partial_sync.go,
 * backend/wireguard/user_full_sync.go): users, store and kernel together.
 */
module WgSync {
  import opened Traffic
  import opened WgPeerStore
  import opened WgUsers
  import opened WgKernel

  // ------------------------------------------------------------ specification

  /** A partial update replaces the peers of the users it names and leaves the others alone. */
  ghost function Reconciled(s: set<Peer>, m: map<Name, User>): set<Peer> {
    (set p | p in s && p.email !in m) + Wanted(m)
  }

  /** A key the update wants belongs to a user it does not name. */
  ghost predicate KeyTaken(s: set<Peer>, m: map<Name, User>) {
    exists p, q :: p in s && q in Wanted(m) && p.email !in m && p.key == q.key
  }

  /** An address range the update wants belongs to a user it does not name. */
  ghost predicate RangeTaken(s: set<Peer>, m: map<Name, User>) {
    exists p, q, c :: p in s && q in Wanted(m) && p.email !in m && c in p.ips && c in q.ips
  }

  /** The kernel already has every wanted peer with its ranges, and nobody the update names is to go. */
  ghost predicate Quiet(s: set<Peer>, m: map<Name, User>) {
    && (forall p :: p in Wanted(m) ==> Configured(s, p))
    && (forall p :: p in s && p.email in m ==> HasKey(Wanted(m), p.key))
  }

  ghost predicate Configured(s: set<Peer>, p: Peer) {
    exists q :: q in s && q.key == p.key && q.ips == p.ips
  }

  /** No two peers share an email or a key. */
  ghost predicate Bijective(s: set<Peer>) {
    forall p, q :: p in s && q in s && p.Clashes(q) ==> p == q
  }

  /** The kernel has exactly the store's peers, with exactly their ranges. */
  ghost predicate Matches(k: Kernel, s: set<Peer>) {
    && (forall p :: p in s ==> p.key in k && k[p.key] == Ranges(p.ips))
    && (forall j :: j in k ==> HasKey(s, j))
  }

  ghost predicate HasKey(s: set<Peer>, key: Name) {
    exists p :: p in s && p.key == key
  }

  ghost predicate ProperEmails(m: map<Name, User>) {
    forall e :: e in m ==> m[e].email == e
  }

  // ----------------------------------------------- from users to desired peers

  /** Desired peers, by key. */
  ghost predicate DesiredBy(m: map<Name, User>, desired: map<Name, Peer>) {
    && (forall k :: k in desired ==> desired[k].key == k && desired[k] in Wanted(m))
    && (forall p :: p in Wanted(m) ==> p.key in desired && desired[p.key] == p)
  }

  lemma ApartIsConsistent(list: seq<User>, m: map<Name, User>)
    requires WgUsers.Enumerates(list, m)
    ensures Apart(list, |list|) <==> Consistent(m)
  {
    hide Collide;
    if Apart(list, |list|) {
      forall e, f | e in m && f in m && e != f ensures !Collide(m[e], m[f]) {
        var i :| 0 <= i < |list| && list[i].email == e;
        var j :| 0 <= j < |list| && list[j].email == f;
        CollideSymmetric(list[i], list[j]);
      }
    }
    if Consistent(m) {
      forall i, j | 0 <= i < j < |list| ensures !Collide(list[i], list[j]) {
        assert list[i].email != list[j].email;
      }
    }
  }

  lemma CollideSymmetric(u: User, v: User)
    ensures Collide(u, v) <==> Collide(v, u)
  {
  }

  lemma DesiresAreWanted(list: seq<User>, m: map<Name, User>, desired: map<Name, Peer>)
    requires WgUsers.Enumerates(list, m) && Desires(list, |list|, desired)
    ensures DesiredBy(m, desired)
  {
    hide Wants, ClaimedBy;
    forall p | p in Wanted(m) ensures p.key in desired && desired[p.key] == p {
      var e :| e in m && Wants(m[e]) && PeerOf(m[e]) == p;
      var i :| 0 <= i < |list| && list[i].email == e;
      assert m[e] == list[i];
    }
    forall k | k in desired ensures desired[k].key == k && desired[k] in Wanted(m) {
      var j :| 0 <= j < |list| && Wants(list[j]) && list[j].publicKey == k;
      assert m[list[j].email] == list[j];
    }
  }

  /** Distinct users want distinct peers with distinct ranges. */
  lemma WantedApart(m: map<Name, User>, p: Peer, q: Peer)
    requires Consistent(m) && ProperEmails(m) && p in Wanted(m) && q in Wanted(m) && p != q
    ensures !p.Clashes(q) && Ranges(p.ips) !! Ranges(q.ips)
  {
    hide Wants, ClaimedBy;
    var e :| e in m && Wants(m[e]) && PeerOf(m[e]) == p;
    var f :| f in m && Wants(m[f]) && PeerOf(m[f]) == q;
    assert e != f && !Collide(m[e], m[f]);
    forall c | c in Ranges(p.ips) ensures c !in Ranges(q.ips) {
      assert c in ClaimedBy(m[e]);
    }
  }

  lemma WantedNonEmpty(m: map<Name, User>, p: Peer)
    requires p in Wanted(m) && ProperEmails(m)
    ensures p.ips != [] && p.email in m
  {
    var e :| e in m && Wants(m[e]) && PeerOf(m[e]) == p;
    hide ClaimedBy;
  }

  // ------------------------------------------------------------ partial: store

  /** The touched peers of the store, by key. */
  ghost predicate Touched(s: set<Peer>, m: map<Name, User>, existing: map<Name, Peer>) {
    && (forall k :: k in existing ==> existing[k].key == k && existing[k] in s && existing[k].email in m)
    && (forall p :: p in s && p.email in m ==> p.key in existing && existing[p.key] == p)
  }

  /** Everything a partial update has in hand once it is going to succeed. */
  ghost predicate Update(s: set<Peer>, m: map<Name, User>, existing: map<Name, Peer>, desired: map<Name, Peer>, d: Diff) {
    && Bijective(s) && ProperEmails(m) && Consistent(m) && !KeyTaken(s, m)
    && Touched(s, m, existing) && DesiredBy(m, desired) && IsDiff(existing, desired, d)
  }

  lemma StoreReconciled(s: set<Peer>, m: map<Name, User>, existing: map<Name, Peer>, desired: map<Name, Peer>, d: Diff)
    requires Update(s, m, existing, desired, d)
    ensures UpsertFirst(WithoutKeys(s, d.removeKeys), d.upserts, |d.upserts|) == Reconciled(s, m)
  {
    forall p ensures p in UpsertFirst(WithoutKeys(s, d.removeKeys), d.upserts, |d.upserts|) <==> p in Reconciled(s, m) {
      LastClaimWins(WithoutKeys(s, d.removeKeys), d.upserts, |d.upserts|, p);
      if p in Wanted(m) {
        WantedIsThere(s, m, existing, desired, d, p);
      } else if p in s && p.email !in m {
        UntouchedStays(s, m, existing, desired, d, p);
      } else {
        RestIsGone(s, m, existing, desired, d, p);
      }
      hide UpsertFirst, Update, Wanted;
    }
  }

  lemma WantedIsThere(s: set<Peer>, m: map<Name, User>, existing: map<Name, Peer>, desired: map<Name, Peer>, d: Diff, p: Peer)
    requires Update(s, m, existing, desired, d) && p in Wanted(m)
    ensures || (p in WithoutKeys(s, d.removeKeys) && Unclaimed(p, d.upserts, 0, |d.upserts|))
            || (exists i :: 0 <= i < |d.upserts| && d.upserts[i] == p && Unclaimed(p, d.upserts, i + 1, |d.upserts|))
  {
    WantedNonEmpty(m, p);
    hide Wanted, Consistent;
    if Changes(existing, desired, p.key) {
      var i :| 0 <= i < |d.upserts| && d.upserts[i] == p;
      forall j | i + 1 <= j < |d.upserts| ensures !p.Clashes(d.upserts[j]) {
        WantedApart(m, p, d.upserts[j]);
      }
    } else {
      assert p.key in existing && existing[p.key] == p;
      forall j | 0 <= j < |d.upserts| ensures !p.Clashes(d.upserts[j]) {
        WantedApart(m, p, d.upserts[j]);
      }
    }
  }

  lemma UntouchedStays(s: set<Peer>, m: map<Name, User>, existing: map<Name, Peer>, desired: map<Name, Peer>, d: Diff, p: Peer)
    requires Update(s, m, existing, desired, d) && p in s && p.email !in m
    ensures p in WithoutKeys(s, d.removeKeys) && Unclaimed(p, d.upserts, 0, |d.upserts|)
  {
    hide Wanted, Consistent;
    assert p.key in existing ==> existing[p.key].Clashes(p);
    forall j | 0 <= j < |d.upserts| ensures !p.Clashes(d.upserts[j]) {
      WantedNonEmpty(m, d.upserts[j]);
    }
  }

  lemma RestIsGone(s: set<Peer>, m: map<Name, User>, existing: map<Name, Peer>, desired: map<Name, Peer>, d: Diff, p: Peer)
    requires Update(s, m, existing, desired, d) && p !in Wanted(m) && !(p in s && p.email !in m)
    ensures !(p in WithoutKeys(s, d.removeKeys) && Unclaimed(p, d.upserts, 0, |d.upserts|))
    ensures forall i :: 0 <= i < |d.upserts| ==> d.upserts[i] != p
  {
    hide Wanted, Consistent, KeyTaken;
    if p in WithoutKeys(s, d.removeKeys) {
      assert p.key in existing && existing[p.key] == p;
      assert p.key in desired;
      WantedNonEmpty(m, desired[p.key]);
      assert Changes(existing, desired, p.key);
      var i :| 0 <= i < |d.upserts| && d.upserts[i] == desired[p.key];
      assert p.Clashes(d.upserts[i]);
    }
  }

  // ----------------------------------------------------------- partial: kernel

  lemma SetsSeparate(s: set<Peer>, m: map<Name, User>, existing: map<Name, Peer>, desired: map<Name, Peer>, d: Diff)
    requires Update(s, m, existing, desired, d)
    ensures Separate(d.sets)
  {
    hide Wanted, Consistent, KeyTaken, Ranges;
    forall i, j | 0 <= i < j < |d.sets| ensures Ranges(d.sets[i].ips) !! Ranges(d.sets[j].ips) {
      WantedApart(m, desired[d.sets[i].key], desired[d.sets[j].key]);
    }
  }

  lemma {:induction false} TakenFrom(sets: seq<Config>, n: nat, c: Name)
    requires n <= |sets| && forall i :: 0 <= i < |sets| ==> sets[i].Set?
    ensures c in Taken(sets, n) <==> exists i :: 0 <= i < n && c in sets[i].ips
  {
    if n > 0 {
      TakenFrom(sets, n - 1, c);
    }
  }

  ghost function KernelAfter(k: Kernel, d: Diff): Kernel {
    ApplyFirst(k, d.Configs(), |d.Configs()|)
  }

  lemma KernelAfterIs(k: Kernel, d: Diff, key: Name)
    ensures var mid := ApplyFirst(k, d.sets, |d.sets|);
            && (key in KernelAfter(k, d) <==> key in mid && key !in d.removeKeys)
            && (key in KernelAfter(k, d) ==> KernelAfter(k, d)[key] == mid[key])
  {
    ApplyConcat(k, d.sets, Removals(d.removeKeys), |d.removeKeys|);
    RemovedPeers(ApplyFirst(k, d.sets, |d.sets|), d.removeKeys, |d.removeKeys|, key);
    assert d.removeKeys[..|d.removeKeys|] == d.removeKeys;
  }

  /** A peer the update does not reconfigure keeps what the reconfigured ones were not given. */
  lemma NotSet(k: Kernel, s: set<Peer>, m: map<Name, User>, existing: map<Name, Peer>, desired: map<Name, Peer>, d: Diff, p: Peer)
    requires Update(s, m, existing, desired, d) && Matches(k, s) && p in s && p.key !in d.removeKeys
    requires p.key in desired ==> !Reconfigures(existing, desired, p.key)
    ensures p.key in KernelAfter(k, d) && KernelAfter(k, d)[p.key] == Ranges(p.ips) - Taken(d.sets, |d.sets|)
  {
    hide Wanted, Consistent, KeyTaken, Ranges, KernelAfter, Bijective, Touched;
    assert forall i :: 0 <= i < |d.sets| ==> d.sets[i].key != p.key;
    OtherPeer(k, d.sets, |d.sets|, p.key);
    KernelAfterIs(k, d, p.key);
  }

  lemma WantedInKernel(k: Kernel, s: set<Peer>, m: map<Name, User>, existing: map<Name, Peer>, desired: map<Name, Peer>, d: Diff, p: Peer)
    requires Update(s, m, existing, desired, d) && Matches(k, s) && p in Wanted(m)
    ensures p.key in KernelAfter(k, d) && KernelAfter(k, d)[p.key] == Ranges(p.ips)
  {
    WantedNonEmpty(m, p);
    SetsSeparate(s, m, existing, desired, d);
    hide Wanted, Consistent, Ranges, KernelAfter;
    KernelAfterIs(k, d, p.key);
    if Reconfigures(existing, desired, p.key) {
      var i :| 0 <= i < |d.sets| && d.sets[i] == Setting(existing, desired, p.key);
      NewKeyIsFree(k, s, m, existing, p);
      SetPeer(k, d.sets, |d.sets|, i);
    } else {
      NotSet(k, s, m, existing, desired, d, existing[p.key]);
      forall c | c in Ranges(p.ips) ensures c !in Taken(d.sets, |d.sets|) {
        OwnRangeNotTaken(s, m, existing, desired, d, p, c);
      }
    }
  }

  lemma NewKeyIsFree(k: Kernel, s: set<Peer>, m: map<Name, User>, existing: map<Name, Peer>, p: Peer)
    requires Matches(k, s) && Touched(s, m, existing) && !KeyTaken(s, m) && p in Wanted(m)
    ensures p.key in existing || p.key !in k
  {
    hide Wanted, Ranges;
  }

  lemma OwnRangeNotTaken(s: set<Peer>, m: map<Name, User>, existing: map<Name, Peer>, desired: map<Name, Peer>, d: Diff, p: Peer, c: Name)
    requires Update(s, m, existing, desired, d) && p in Wanted(m) && c in Ranges(p.ips)
    requires !Reconfigures(existing, desired, p.key)
    ensures c !in Taken(d.sets, |d.sets|)
  {
    hide Wanted, Consistent, KeyTaken, Bijective, Touched;
    TakenFrom(d.sets, |d.sets|, c);
    forall i | 0 <= i < |d.sets| ensures c !in d.sets[i].ips {
      WantedApart(m, p, desired[d.sets[i].key]);
      assert Ranges(p.ips) !! Ranges(d.sets[i].ips);
    }
  }

  /** Nobody untouched loses a key; what they lose is what the update was given. */
  lemma UntouchedInKernel(k: Kernel, s: set<Peer>, m: map<Name, User>, existing: map<Name, Peer>, desired: map<Name, Peer>, d: Diff, p: Peer)
    requires Update(s, m, existing, desired, d) && Matches(k, s) && p in s && p.email !in m
    ensures p.key in KernelAfter(k, d) && KernelAfter(k, d)[p.key] == Ranges(p.ips) - Taken(d.sets, |d.sets|)
  {
    assert p.key !in d.removeKeys && p.key !in desired by {
      hide Wanted, Consistent, Ranges;
      assert p.key in existing ==> existing[p.key].Clashes(p);
    }
    NotSet(k, s, m, existing, desired, d, p);
  }

  lemma NobodyElseInKernel(k: Kernel, s: set<Peer>, m: map<Name, User>, existing: map<Name, Peer>, desired: map<Name, Peer>, d: Diff, key: Name)
    requires Update(s, m, existing, desired, d) && Matches(k, s) && key in KernelAfter(k, d)
    ensures HasKey(Reconciled(s, m), key)
  {
    hide Wanted, Consistent, KeyTaken, Ranges, KernelAfter, Bijective;
    KernelAfterIs(k, d, key);
    if key in desired {
      assert desired[key] in Reconciled(s, m);
    } else {
      OtherPeer(k, d.sets, |d.sets|, key);
      var p :| p in s && p.key == key;
      assert p in Reconciled(s, m);
    }
  }

  lemma TakenRange(k: Kernel, s: set<Peer>, m: map<Name, User>, existing: map<Name, Peer>, desired: map<Name, Peer>, d: Diff,
                   p: Peer, q: Peer, c: Name)
    requires Update(s, m, existing, desired, d) && Matches(k, s) && Exclusive(k)
    requires p in s && p.email !in m && q in Wanted(m) && c in p.ips && c in q.ips
    ensures c in Taken(d.sets, |d.sets|)
  {
    TakenFrom(d.sets, |d.sets|, c);
    WantedNonEmpty(m, q);
    hide Wanted, Consistent, KeyTaken;
    if q.key in existing {
      OneHolder(k, s, p, existing[q.key], c);
    }
    assert Setting(existing, desired, q.key) in d.sets;
  }

  lemma OneHolder(k: Kernel, s: set<Peer>, p: Peer, q: Peer, c: Name)
    requires Bijective(s) && Matches(k, s) && Exclusive(k) && p in s && q in s
    ensures c in p.ips && c in q.ips ==> p == q
  {
    if c in p.ips && c in q.ips {
      assert c in k[p.key] && c in k[q.key];
      assert p.key == q.key && p.Clashes(q);
    }
  }

  /**
   * A partial update leaves the kernel in step with the store, whatever order
   * its changes are made in, exactly when no range it wants belongs to a user it
   * does not name: that check only covers the users of the request.
   */
  lemma KernelReconciled(k: Kernel, s: set<Peer>, m: map<Name, User>, existing: map<Name, Peer>, desired: map<Name, Peer>, d: Diff)
    requires Update(s, m, existing, desired, d) && Matches(k, s) && Exclusive(k)
    ensures Matches(KernelAfter(k, d), Reconciled(s, m)) <==> !RangeTaken(s, m)
  {
    if RangeTaken(s, m) {
      var p, q, c :| p in s && q in Wanted(m) && p.email !in m && c in p.ips && c in q.ips;
      TakenRange(k, s, m, existing, desired, d, p, q, c);
      UntouchedInKernel(k, s, m, existing, desired, d, p);
      assert p in Reconciled(s, m) && c in Ranges(p.ips);
    } else {
      forall p | p in Reconciled(s, m) ensures p.key in KernelAfter(k, d) && KernelAfter(k, d)[p.key] == Ranges(p.ips) {
        if p in Wanted(m) {
          WantedInKernel(k, s, m, existing, desired, d, p);
        } else {
          UntouchedInKernel(k, s, m, existing, desired, d, p);
          NothingTaken(s, m, existing, desired, d, p);
        }
      }
      forall key | key in KernelAfter(k, d) ensures HasKey(Reconciled(s, m), key) {
        NobodyElseInKernel(k, s, m, existing, desired, d, key);
      }
    }
    hide Update, KernelAfter, RangeTaken, Reconciled;
  }

  lemma NothingTaken(s: set<Peer>, m: map<Name, User>, existing: map<Name, Peer>, desired: map<Name, Peer>, d: Diff, p: Peer)
    requires Update(s, m, existing, desired, d) && !RangeTaken(s, m) && p in s && p.email !in m
    ensures Ranges(p.ips) - Taken(d.sets, |d.sets|) == Ranges(p.ips)
  {
    hide Wanted, Consistent, KeyTaken;
    forall c | c in Ranges(p.ips) ensures c !in Taken(d.sets, |d.sets|) {
      TakenFrom(d.sets, |d.sets|, c);
    }
  }

  // --------------------------------------------------------------- full: kernel

  lemma {:induction false} FreshKernel(sets: seq<Config>, n: nat, key: Name)
    requires n <= |sets| && forall i :: 0 <= i < |sets| ==> sets[i].Set?
    ensures key in ApplyFirst(NO_PEERS, sets, n) <==> exists i :: 0 <= i < n && sets[i].key == key
  {
    if n > 0 {
      FreshKernel(sets, n - 1, key);
    }
  }

  /** The settings of a full snapshot. */
  ghost predicate Snapshot(m: map<Name, User>, desired: map<Name, Peer>, sets: seq<Config>) {
    ProperEmails(m) && Consistent(m) && DesiredBy(m, desired) && SetsAre(map[], desired, sets)
  }

  lemma SnapshotSeparate(m: map<Name, User>, desired: map<Name, Peer>, sets: seq<Config>)
    requires Snapshot(m, desired, sets)
    ensures Separate(sets)
  {
    hide Consistent, Wanted, Ranges;
    forall i, j | 0 <= i < j < |sets| ensures Ranges(sets[i].ips) !! Ranges(sets[j].ips) {
      WantedApart(m, desired[sets[i].key], desired[sets[j].key]);
    }
  }

  lemma SnapshotPeer(m: map<Name, User>, desired: map<Name, Peer>, sets: seq<Config>, p: Peer)
    requires Snapshot(m, desired, sets) && p in Wanted(m)
    ensures var k := ApplyFirst(NO_PEERS, sets, |sets|); p.key in k && k[p.key] == Ranges(p.ips)
  {
    SnapshotSeparate(m, desired, sets);
    WantedNonEmpty(m, p);
    hide Consistent, Wanted, Ranges, ApplyFirst, Separate;
    assert Reconfigures(map[], desired, p.key);
    var i :| 0 <= i < |sets| && sets[i] == Setting(map[], desired, p.key);
    SetPeer(NO_PEERS, sets, |sets|, i);
  }

  lemma SnapshotOnly(m: map<Name, User>, desired: map<Name, Peer>, sets: seq<Config>, key: Name)
    requires Snapshot(m, desired, sets) && key in ApplyFirst(NO_PEERS, sets, |sets|)
    ensures HasKey(Wanted(m), key)
  {
    hide ApplyFirst, Wanted, Ranges, Consistent;
    FreshKernel(sets, |sets|, key);
    assert desired[key] in Wanted(m);
  }

  /** A full snapshot of peers with different ranges is taken over exactly. */
  lemma KernelReplaced(m: map<Name, User>, desired: map<Name, Peer>, sets: seq<Config>)
    requires Snapshot(m, desired, sets)
    ensures Matches(ApplyFirst(NO_PEERS, sets, |sets|), Wanted(m))
  {
    hide ApplyFirst, Wanted, Ranges, Snapshot, HasKey;
    var k := ApplyFirst(NO_PEERS, sets, |sets|);
    forall key | key in k ensures HasKey(Wanted(m), key) {
      SnapshotOnly(m, desired, sets, key);
    }
    forall p | p in Wanted(m) ensures p.key in k && k[p.key] == Ranges(p.ips) {
      SnapshotPeer(m, desired, sets, p);
    }
  }

  /** Nothing to change means the store is already right. */
  lemma UnchangedIsRight(s: set<Peer>, m: map<Name, User>, existing: map<Name, Peer>, desired: map<Name, Peer>, d: Diff)
    requires ProperEmails(m) && DesiredBy(m, desired) && IsDiff(existing, desired, d) && d.removeKeys == [] && d.upserts == []
    requires forall k :: k in existing ==> existing[k].key == k && existing[k] in s
    requires forall p :: p in s ==> p.key in existing && existing[p.key] == p
    ensures s == Wanted(m)
  {
    hide Wanted;
    forall p | p in s ensures p in Wanted(m) {
      assert p.key !in d.removeKeys && p.key in desired;
      WantedNonEmpty(m, desired[p.key]);
    }
    forall p | p in Wanted(m) ensures p in s {
      WantedNonEmpty(m, p);
    }
  }

  // ------------------------------------------------------------- requests

  /** What the node holds: the store's peers and the kernel's table. */
  datatype Node = Node(store: set<Peer>, kernel: Kernel)

  /** A partial or a full sync; `kernelUp` is whether the interface is running and takes the changes. */
  datatype Request = Partial(users: seq<User>, kernelUp: bool) | Full(users: seq<User>, kernelUp: bool)

  /** A request is refused exactly on a collision, a taken key, or changes for a kernel that is down. */
  ghost predicate Accepts(n: Node, r: Request) {
    var m := Normalized(r.users);
    && Consistent(m)
    && (r.Partial? ==> !KeyTaken(n.store, m) && (r.kernelUp || Quiet(n.store, m)))
    && (r.Full? ==> r.kernelUp || n.store == Wanted(m))
  }

  /** The kernel after a partial update's changes, in one of the orders they may be made in. */
  ghost predicate KernelMay(n: Node, m: map<Name, User>, kernel: Kernel) {
    exists existing, desired, d :: Update(n.store, m, existing, desired, d) && kernel == KernelAfter(n.kernel, d)
  }

  /** The kernel after a full snapshot. */
  ghost predicate SnapshotMay(m: map<Name, User>, kernel: Kernel) {
    exists desired, sets :: Snapshot(m, desired, sets) && kernel == ApplyFirst(NO_PEERS, sets, |sets|)
  }

  ghost predicate Steps(n: Node, r: Request, n': Node) {
    var m := Normalized(r.users);
    if !Accepts(n, r) then n' == n
    else if r.Partial? then n'.store == Reconciled(n.store, m) && KernelMay(n, m, n'.kernel)
    else n'.store == Wanted(m) && if n.store == Wanted(m) then n'.kernel == n.kernel else SnapshotMay(m, n'.kernel)
  }

  lemma NormalizedProper(users: seq<User>)
    ensures ProperEmails(Normalized(users))
  {
    NormalizedEmails(users, |users|);
  }

  lemma WantedBijective(m: map<Name, User>)
    requires ProperEmails(m) && Consistent(m)
    ensures Bijective(Wanted(m))
  {
    hide Wanted, Consistent, ProperEmails;
    forall p, q | p in Wanted(m) && q in Wanted(m) && p.Clashes(q) ensures p == q {
      if p != q {
        WantedApart(m, p, q);
      }
    }
  }

  lemma ReconciledBijective(s: set<Peer>, m: map<Name, User>)
    requires Bijective(s) && ProperEmails(m) && Consistent(m) && !KeyTaken(s, m)
    ensures Bijective(Reconciled(s, m))
  {
    WantedBijective(m);
    forall p | p in Wanted(m) ensures p.email in m {
      WantedNonEmpty(m, p);
    }
    hide Wanted, Consistent, ProperEmails;
  }

  /** A partial update makes no kernel changes exactly when it is quiet. */
  lemma QuietConfigs(s: set<Peer>, m: map<Name, User>, existing: map<Name, Peer>, desired: map<Name, Peer>, d: Diff)
    requires Update(s, m, existing, desired, d)
    ensures d.Configs() == [] <==> Quiet(s, m)
  {
    if d.Configs() == [] {
      NoConfigsIsQuiet(s, m, existing, desired, d);
    }
    if Quiet(s, m) {
      QuietHasNoConfigs(s, m, existing, desired, d);
    }
    hide Update, Quiet;
  }

  lemma NoConfigsIsQuiet(s: set<Peer>, m: map<Name, User>, existing: map<Name, Peer>, desired: map<Name, Peer>, d: Diff)
    requires Update(s, m, existing, desired, d) && d.Configs() == []
    ensures Quiet(s, m)
  {
    hide Wanted, Consistent, KeyTaken;
    assert d.sets == [] && d.removeKeys == [];
    forall p | p in Wanted(m) ensures Configured(s, p) {
      WantedNonEmpty(m, p);
      assert !Reconfigures(existing, desired, p.key);
      assert existing[p.key] in s;
    }
    forall p | p in s && p.email in m ensures HasKey(Wanted(m), p.key) {
      assert p.key !in d.removeKeys && p.key in desired;
      assert desired[p.key] in Wanted(m);
    }
  }

  lemma QuietHasNoConfigs(s: set<Peer>, m: map<Name, User>, existing: map<Name, Peer>, desired: map<Name, Peer>, d: Diff)
    requires Update(s, m, existing, desired, d) && Quiet(s, m)
    ensures d.Configs() == []
  {
    hide Wanted, Consistent;
    forall k | k in desired ensures !Reconfigures(existing, desired, k) {
      var p := desired[k];
      assert Configured(s, p);
      var q :| q in s && q.key == p.key && q.ips == p.ips;
      NamedOrTaken(s, m, existing, p, q);
    }
    forall k | k in existing ensures k in desired {
      assert HasKey(Wanted(m), existing[k].key);
    }
    assert existing.Keys - desired.Keys == {};
    ListsNothing(d.removeKeys, existing.Keys - desired.Keys);
    SetsNothing(existing, desired, d.sets);
  }

  lemma ListsNothing(keys: seq<Name>, all: set<Name>)
    requires Lists(keys, all)
    ensures keys == [] <==> all == {}
  {
    if keys != [] {
      assert keys[0] in keys;
    } else {
      assert forall k :: k in all ==> k in keys;
    }
  }

  lemma SetsNothing(existing: map<Name, Peer>, desired: map<Name, Peer>, sets: seq<Config>)
    requires SetsAre(existing, desired, sets)
    ensures sets == [] <==> forall k :: k in desired ==> !Reconfigures(existing, desired, k)
  {
    if sets != [] {
      assert sets[0].key in desired && Reconfigures(existing, desired, sets[0].key);
    }
  }

  lemma NamedOrTaken(s: set<Peer>, m: map<Name, User>, existing: map<Name, Peer>, p: Peer, q: Peer)
    requires Touched(s, m, existing) && !KeyTaken(s, m) && p in Wanted(m) && q in s && q.key == p.key
    ensures p.key in existing && existing[p.key] == q
  {
    hide Wanted;
  }

  // --------------------------------------------------------------- whole runs

  ghost predicate Trace(nodes: seq<Node>, requests: seq<Request>) {
    && |nodes| == |requests| + 1 && nodes[0] == Node({}, NO_PEERS)
    && (forall i :: 0 <= i < |requests| ==> Steps(nodes[i], requests[i], nodes[i + 1]))
  }

  /** A partial sync has taken a range from somebody it did not name, since the last full sync that changed anything. */
  ghost predicate Robbed(nodes: seq<Node>, requests: seq<Request>, n: nat)
    requires n <= |requests| < |nodes|
  {
    n > 0 && RobbedAfter(nodes[n - 1], requests[n - 1], Robbed(nodes, requests, n - 1))
  }

  ghost predicate RobbedAfter(n: Node, r: Request, robbed: bool) {
    var m := Normalized(r.users);
    if !Accepts(n, r) then robbed
    else if r.Partial? then robbed || RangeTaken(n.store, m)
    else robbed && n.store == Wanted(m)
  }

  lemma PartialKeeps(n: Node, r: Request, n': Node)
    requires Steps(n, r, n') && r.Partial? && Bijective(n.store) && Exclusive(n.kernel)
    ensures Bijective(n'.store) && Exclusive(n'.kernel)
    ensures Accepts(n, r) && Matches(n.kernel, n.store) ==>
              (Matches(n'.kernel, n'.store) <==> !RangeTaken(n.store, Normalized(r.users)))
  {
    var m := Normalized(r.users);
    if Accepts(n, r) {
      NormalizedProper(r.users);
      hide Normalized, Consistent, Wanted, KeyTaken, RangeTaken, Reconciled, Bijective, Quiet, ProperEmails, Matches, Exclusive;
      ReconciledBijective(n.store, m);
      var existing, desired, d :| Update(n.store, m, existing, desired, d) && n'.kernel == KernelAfter(n.kernel, d);
      ApplyKeepsExclusive(n.kernel, d.Configs(), |d.Configs()|);
      if Matches(n.kernel, n.store) {
        KernelReconciled(n.kernel, n.store, m, existing, desired, d);
      }
      hide Update, ApplyFirst;
    }
  }

  lemma FullKeeps(n: Node, r: Request, n': Node)
    requires Steps(n, r, n') && r.Full? && Bijective(n.store) && Exclusive(n.kernel)
    ensures Bijective(n'.store) && Exclusive(n'.kernel)
    ensures Accepts(n, r) && n.store != Wanted(Normalized(r.users)) ==> Matches(n'.kernel, n'.store)
  {
    var m := Normalized(r.users);
    if Accepts(n, r) {
      NormalizedProper(r.users);
      hide Normalized, Consistent, Wanted, KeyTaken, Bijective, Quiet, ProperEmails, Matches;
      WantedBijective(m);
      if n.store != Wanted(m) {
        SnapshotKeeps(m, n'.kernel);
      }
    }
  }

  lemma SnapshotKeeps(m: map<Name, User>, kernel: Kernel)
    requires SnapshotMay(m, kernel)
    ensures Exclusive(kernel) && Matches(kernel, Wanted(m))
  {
    var desired, sets :| Snapshot(m, desired, sets) && kernel == ApplyFirst(NO_PEERS, sets, |sets|);
    hide Snapshot, Wanted, Matches, ApplyFirst;
    ApplyKeepsExclusive(NO_PEERS, sets, |sets|);
    KernelReplaced(m, desired, sets);
  }

  /**
   * Over every sequence of full and partial syncs from an empty node, refused ones
   * included: no two peers of the store share an email or a key, no range has two
   * owners in the kernel, and the kernel matches the store as long as no accepted
   * partial sync since the last changing full one took a range from somebody it
   * did not name.
   */
  lemma {:induction false} KernelStaysInStep(nodes: seq<Node>, requests: seq<Request>, n: nat)
    requires Trace(nodes, requests) && n <= |requests|
    ensures Bijective(nodes[n].store) && Exclusive(nodes[n].kernel)
    ensures !Robbed(nodes, requests, n) ==> Matches(nodes[n].kernel, nodes[n].store)
  {
    hide Bijective, Exclusive, Matches, Steps, RobbedAfter;
    if n == 0 {
      NothingYet(nodes[0]);
    } else {
      KernelStaysInStep(nodes, requests, n - 1);
      assert Steps(nodes[n - 1], requests[n - 1], nodes[n]);
      StepKeeps(nodes[n - 1], requests[n - 1], nodes[n], Robbed(nodes, requests, n - 1));
    }
  }

  lemma NothingYet(n: Node)
    requires n.store == {} && n.kernel == NO_PEERS
    ensures Bijective(n.store) && Exclusive(n.kernel) && Matches(n.kernel, n.store)
  {
  }

  lemma StepKeeps(n: Node, r: Request, n': Node, robbed: bool)
    requires Steps(n, r, n') && Bijective(n.store) && Exclusive(n.kernel) && (!robbed ==> Matches(n.kernel, n.store))
    ensures Bijective(n'.store) && Exclusive(n'.kernel)
    ensures !RobbedAfter(n, r, robbed) ==> Matches(n'.kernel, n'.store)
  {
    hide Bijective, Exclusive, Matches, RangeTaken, Wanted, Normalized, Accepts, Reconciled, KernelMay, SnapshotMay;
    if r.Partial? {
      PartialKeeps(n, r, n');
    } else {
      FullKeeps(n, r, n');
    }
  }

  // ------------------------------------------------------- a range taken away

  function Asking(email: Name, key: Name, range: Name): User {
    User(email, true, key, true, [Inside(range)])
  }

  lemma OneAsks(email: Name, key: Name, range: Name)
    requires email != NO_NAME && key != NO_NAME
    ensures var m := Normalized([Asking(email, key, range)]);
            && m.Keys == {email} && m[email] == Asking(email, key, range)
            && ProperEmails(m) && Consistent(m) && Wanted(m) == {Peer(email, key, [range])}
  {
    var users, u := [Asking(email, key, range)], Asking(email, key, range);
    assert WgUsers.LastByEmail(users, 0) == map[];
    assert Claimed(u.peerIPs, 0) == [];
    assert !Broken(u.peerIPs, 1) && ClaimedBy(u) == [range];
    assert PeerOf(u) == Peer(email, key, [range]);
  }

  /** One peer that the kernel does not have yet. */
  lemma NewPeer(p: Peer, range: Name)
    requires p.ips == [range]
    ensures var desired, d := map[p.key := p], Diff([], [p], [Set(p.key, p.ips, false)]);
            IsDiff(map[], desired, d)
  {
  }

  lemma RangeGiven(key: Name, range: Name)
    ensures ApplyFirst(NO_PEERS, [Set(key, [range], false)], 1) == map[key := {range}]
  {
    assert ApplyFirst(NO_PEERS, [Set(key, [range], false)], 0) == NO_PEERS;
    assert Ranges([range]) == {range};
  }

  lemma RangeMoves(from: Name, to: Name, range: Name)
    requires from != to
    ensures ApplyFirst(map[from := {range}], [Set(to, [range], false)], 1) == map[from := {}, to := {range}]
  {
    var k, c := map[from := {range}], Set(to, [range], false);
    assert ApplyFirst(k, [c], 0) == k;
    assert Ranges([range]) == {range};
    assert k[from] - {range} == {};
    var k' := Applied(k, c);
    assert k'.Keys == {from, to} && k'[from] == {} && k'[to] == {range};
  }

  lemma FirstPeerSynced(email: Name, key: Name, range: Name)
    requires email != NO_NAME && key != NO_NAME
    ensures Steps(Node({}, NO_PEERS), Full([Asking(email, key, range)], true),
                  Node({Peer(email, key, [range])}, map[key := {range}]))
  {
    var m, p, sets := Normalized([Asking(email, key, range)]), Peer(email, key, [range]), [Set(key, [range], false)];
    OneAsks(email, key, range);
    hide Normalized, Wanted, Consistent;
    NewPeer(p, range);
    assert Snapshot(m, map[key := p], sets);
    RangeGiven(key, range);
    hide ApplyFirst;
    assert SnapshotMay(m, map[key := {range}]);
  }

  lemma SecondPeerSynced(p: Peer, q: Peer, range: Name)
    requires p.email != q.email && p.key != q.key && q.email != NO_NAME && q.key != NO_NAME
    requires p.ips == q.ips == [range]
    ensures Steps(Node({p}, map[p.key := {range}]), Partial([Asking(q.email, q.key, range)], true),
                  Node({p, q}, map[p.key := {}, q.key := {range}]))
  {
    var n, m := Node({p}, map[p.key := {range}]), Normalized([Asking(q.email, q.key, range)]);
    var desired, d := map[q.key := q], Diff([], [q], [Set(q.key, [range], false)]);
    OneAsks(q.email, q.key, range);
    hide Normalized, Wanted, Consistent;
    NewPeer(q, range);
    assert Update(n.store, m, map[], desired, d);
    assert Reconciled(n.store, m) == {p, q};
    RangeMoves(p.key, q.key, range);
    assert d.Configs() == d.sets;
    hide ApplyFirst, Update;
    assert KernelMay(n, m, map[p.key := {}, q.key := {range}]);
  }

  /**
   * What happens otherwise: alice is synced, then bob with the same range. The
   * second sync is accepted, the kernel gives the range to bob, and the store
   * still lists it as alice's.
   */
  lemma RangeLost(alice: Name, bob: Name, a: Name, b: Name, range: Name)
    requires alice != bob && a != b && alice != NO_NAME && bob != NO_NAME && a != NO_NAME && b != NO_NAME
    ensures var p, q := Peer(alice, a, [range]), Peer(bob, b, [range]);
            var nodes := [Node({}, NO_PEERS), Node({p}, map[a := {range}]), Node({p, q}, map[a := {}, b := {range}])];
            && Trace(nodes, [Full([Asking(alice, a, range)], true), Partial([Asking(bob, b, range)], true)])
            && Matches(nodes[1].kernel, nodes[1].store) && !Matches(nodes[2].kernel, nodes[2].store)
  {
    var p, q := Peer(alice, a, [range]), Peer(bob, b, [range]);
    hide Steps, Matches;
    FirstPeerSynced(alice, a, range);
    SecondPeerSynced(p, q, range);
    TwoSyncs(Node({p}, map[a := {range}]), Node({p, q}, map[a := {}, b := {range}]),
             Full([Asking(alice, a, range)], true), Partial([Asking(bob, b, range)], true));
    AloneMatches(p, range);
    WithoutRange(p, {p, q}, map[a := {}, b := {range}], range);
  }

  lemma TwoSyncs(first: Node, second: Node, r: Request, q: Request)
    requires Steps(Node({}, NO_PEERS), r, first) && Steps(first, q, second)
    ensures Trace([Node({}, NO_PEERS), first, second], [r, q])
  {
    hide Steps;
  }

  lemma AloneMatches(p: Peer, range: Name)
    requires p.ips == [range]
    ensures Matches(map[p.key := {range}], {p})
  {
    assert Ranges(p.ips) == {range};
  }

  lemma WithoutRange(p: Peer, s: set<Peer>, k: Kernel, range: Name)
    requires p in s && range in p.ips && p.key in k && range !in k[p.key]
    ensures !Matches(k, s)
  {
    assert range in Ranges(p.ips);
  }

  // ---------------------------------------------------------- implementation

  class WireGuard {
    const store: PeerStore
    var kernel: Kernel

    constructor ()
      ensures store.Valid() && fresh(store) && store.Contents() == {} && kernel == NO_PEERS
    {
      store := new PeerStore();
      kernel := NO_PEERS;
    }

    ghost function View(): Node
      reads this, store
    {
      Node(store.Contents(), kernel)
    }

    method BuildExistingSubset(list: seq<User>, ghost m: map<Name, User>) returns (existing: map<Name, Peer>)
      requires store.Valid() && WgUsers.Enumerates(list, m)
      ensures Touched(store.Contents(), m, existing)
    {
      existing := map[];
      for i := 0 to |list|
        invariant forall k :: k in existing ==> existing[k].key == k && existing[k] in store.Contents() && existing[k].email in m
        invariant forall j :: 0 <= j < i && list[j].email in store.emailToKey ==>
                    var key := store.emailToKey[list[j].email];
                    key in existing && existing[key] == store.peers[key]
      {
        var email := list[i].email;
        if email in store.emailToKey {
          existing := existing[store.emailToKey[email] := store.peers[store.emailToKey[email]]];
        }
      }
      forall p | p in store.Contents() && p.email in m ensures p.key in existing && existing[p.key] == p {
        var j :| 0 <= j < |list| && list[j].email == p.email;
      }
    }

    /** Whether a wanted key is held by a user the update does not name. */
    method FindTakenKey(list: seq<User>, ghost m: map<Name, User>, desired: map<Name, Peer>) returns (taken: bool)
      requires store.Valid() && WgUsers.Enumerates(list, m) && DesiredBy(m, desired)
      ensures taken <==> KeyTaken(store.Contents(), m)
    {
      hide Wanted;
      var touched := set i | 0 <= i < |list| :: list[i].email;
      assert forall e :: e in touched <==> e in m;
      taken := false;
      var todo := desired.Keys;
      while todo != {}
        invariant todo <= desired.Keys && !taken
        invariant forall k :: k in desired && k !in todo && k in store.peers ==> store.peers[k].email in m
      {
        var key :| key in todo;
        todo := todo - {key};
        if key in store.peers && store.peers[key].email != desired[key].email && store.peers[key].email !in touched {
          assert store.peers[key] in store.Contents() && desired[key] in Wanted(m);
          taken := true;
          return;
        }
        WantedNonEmpty(m, desired[key]);
      }
    }

    /** Everything that can be refused is refused before anything changes. */
    method PlanPartial(users: seq<User>) returns (ok: bool, d: Diff, ghost existing: map<Name, Peer>, ghost desired: map<Name, Peer>)
      requires store.Valid()
      ensures ok <==> Consistent(Normalized(users)) && !KeyTaken(store.Contents(), Normalized(users))
      ensures ok ==> Update(store.Contents(), Normalized(users), existing, desired, d)
    {
      ghost var m := Normalized(users);
      d := Diff([], [], []);
      var list := NormalizeUsers(users);
      NormalizedEmails(users, |users|);
      ValidIsBijective(store.peers, store.emailToKey);
      ApartIsConsistent(list, m);
      assert ProperEmails(m) && DistinctEmails(list);
      hide Normalized, Consistent, Wanted, KeyTaken, Inverse, Bijective, Apart, Desires, DesiredBy, Touched, IsDiff;
      var subset := BuildExistingSubset(list, m);
      var collected, wanted := CollectDesiredPeers(list);
      existing, desired := subset, wanted;
      if !collected {
        return false, d, existing, desired;
      }
      DesiresAreWanted(list, m, wanted);
      var taken := FindTakenKey(list, m, wanted);
      if taken {
        return false, d, existing, desired;
      }
      DesiredKeys(m, wanted);
      d := BuildSyncDiff(subset, wanted);
      ok := true;
    }

    /** Reconciles the users named in a request. */
    method SyncUsersPartial(users: seq<User>, kernelUp: bool) returns (ok: bool)
      requires store.Valid()
      modifies this, store
      ensures store.Valid()
      ensures ok <==> Accepts(old(View()), Partial(users, kernelUp))
      ensures Steps(old(View()), Partial(users, kernelUp), View())
      ensures Exclusive(old(kernel)) ==> Exclusive(kernel)
      ensures ok && Exclusive(old(kernel)) && Matches(old(kernel), old(store.Contents())) ==>
                (Matches(kernel, store.Contents()) <==> !RangeTaken(old(store.Contents()), Normalized(users)))
    {
      ghost var m, s, before := Normalized(users), store.Contents(), View();
      ValidIsBijective(store.peers, store.emailToKey);
      hide Normalized, Consistent, KeyTaken, RangeTaken, Inverse, Update, Reconciled, Matches, Exclusive, ApplyFirst, UpsertFirst, Quiet, Bijective;
      var planned, d, existing, desired := PlanPartial(users);
      if planned {
        QuietConfigs(s, m, existing, desired, d);
      }
      if !planned || (d.Configs() != [] && !kernelUp) {
        return false;
      }
      StoreReconciled(s, m, existing, desired, d);
      kernel := ApplyFirst(kernel, d.Configs(), |d.Configs()|);
      assert KernelMay(before, m, kernel);
      hide KernelMay;
      var _ := store.ApplyChanges(d.removeKeys, d.upserts);
      if Exclusive(before.kernel) {
        PartialKeeps(before, Partial(users, kernelUp), View());
      }
      return true;
    }

    /** The same for a full set. */
    method PlanFull(users: seq<User>) returns (ok: bool, d: Diff, desired: map<Name, Peer>)
      requires store.Valid()
      ensures ok <==> Consistent(Normalized(users))
      ensures ok ==> DesiredBy(Normalized(users), desired) && IsDiff(store.peers, desired, d)
    {
      ghost var m := Normalized(users);
      d := Diff([], [], []);
      var list := NormalizeUsers(users);
      ApartIsConsistent(list, m);
      assert DistinctEmails(list);
      hide Normalized, Consistent, Wanted, Inverse, Apart, Desires, DesiredBy, IsDiff;
      ok, desired := CollectDesiredPeers(list);
      if ok {
        DesiresAreWanted(list, m, desired);
        DesiredKeys(m, desired);
        d := BuildSyncDiff(store.peers, desired);
      }
    }

    /** Replaces everybody; the kernel is told only if something changed. */
    method SyncUsersFull(users: seq<User>, kernelUp: bool) returns (ok: bool)
      requires store.Valid()
      modifies this, store
      ensures store.Valid()
      ensures ok <==> Accepts(old(View()), Full(users, kernelUp))
      ensures Steps(old(View()), Full(users, kernelUp), View())
      ensures Exclusive(old(kernel)) ==> Exclusive(kernel)
      ensures ok && store.Contents() != old(store.Contents()) ==> Matches(kernel, store.Contents())
    {
      ghost var m, before := Normalized(users), View();
      NormalizedProper(users);
      ValidIsBijective(store.peers, store.emailToKey);
      hide Normalized, Consistent, Wanted, DesiredBy, Matches, ApplyFirst, IsDiff, ProperEmails, Exclusive, Bijective;
      var planned, d, desired := PlanFull(users);
      if !planned {
        return false;
      }
      if d.removeKeys == [] && d.upserts == [] {
        StoreIsRight(store.peers, store.emailToKey, m, desired, d);
        return true;
      }
      ChangedIsWrong(store.peers, store.emailToKey, m, desired, d);
      if !kernelUp {
        return false;
      }
      DesiredKeys(m, desired);
      var sets, applied := BuildTargetPeerConfigs(desired);
      AppliedAreWanted(m, desired, applied);
      assert Snapshot(m, desired, sets);
      hide Inverse, Snapshot, SetsAre, UpsertsAre, NoClashes, AllOf;
      kernel := ApplyFirst(NO_PEERS, sets, |sets|);
      assert SnapshotMay(m, kernel);
      hide SnapshotMay;
      var _ := store.ReplaceAll(applied);
      if Exclusive(before.kernel) {
        FullKeeps(before, Full(users, kernelUp), View());
      }
      SnapshotMatches(m, kernel);
      return true;
    }
  }

  lemma SnapshotMatches(m: map<Name, User>, kernel: Kernel)
    requires SnapshotMay(m, kernel)
    ensures Matches(kernel, Wanted(m))
  {
    SnapshotKeeps(m, kernel);
  }

  lemma AppliedAreWanted(m: map<Name, User>, desired: map<Name, Peer>, applied: seq<Peer>)
    requires ProperEmails(m) && Consistent(m) && DesiredBy(m, desired) && UpsertsAre(map[], desired, applied)
    ensures NoClashes(applied) && AllOf(applied) == Wanted(m)
  {
    hide Wanted, Consistent;
    forall i, j | 0 <= i < j < |applied| ensures !applied[i].Clashes(applied[j]) {
      WantedApart(m, applied[i], applied[j]);
    }
    forall p | p in Wanted(m) ensures p in AllOf(applied) {
      WantedNonEmpty(m, p);
      assert Changes(map[], desired, p.key);
    }
  }

  lemma StoreIsRight(peers: map<Name, Peer>, index: map<Name, Name>, m: map<Name, User>, desired: map<Name, Peer>, d: Diff)
    requires Inverse(peers, index) && ProperEmails(m) && DesiredBy(m, desired) && IsDiff(peers, desired, d)
    requires d.removeKeys == [] && d.upserts == []
    ensures peers.Values == Wanted(m)
  {
    UnchangedIsRight(peers.Values, m, peers, desired, d);
  }

  lemma ChangedIsWrong(peers: map<Name, Peer>, index: map<Name, Name>, m: map<Name, User>, desired: map<Name, Peer>, d: Diff)
    requires Inverse(peers, index) && DesiredBy(m, desired) && IsDiff(peers, desired, d)
    requires d.removeKeys != [] || d.upserts != []
    ensures peers.Values != Wanted(m)
  {
    hide Wanted;
    if d.removeKeys != [] {
      var k := d.removeKeys[0];
      assert k in d.removeKeys && k in peers && k !in desired;
      assert peers[k] in peers.Values;
    } else {
      var p := d.upserts[0];
      assert p in Wanted(m) && Changes(peers, desired, p.key);
    }
  }

  lemma ValidIsBijective(peers: map<Name, Peer>, emailToKey: map<Name, Name>)
    requires Inverse(peers, emailToKey)
    ensures Bijective(peers.Values)
  {
  }

  lemma DesiredKeys(m: map<Name, User>, desired: map<Name, Peer>)
    requires DesiredBy(m, desired)
    ensures forall k :: k in desired ==> desired[k].key == k
  {
  }

  // ------------------------------------------------- incremental against full

  /** A user the update does not name, and one it does, claim one range. */
  ghost predicate ClaimTaken(v: map<Name, User>, u: map<Name, User>) {
    exists e, f :: e in v && e !in u && f in u && ShareClaim(v[e], u[f])
  }

  lemma OverrideStore(v: map<Name, User>, u: map<Name, User>)
    requires ProperEmails(v)
    ensures Reconciled(Wanted(v), u) == Wanted(v + u)
  {
    hide Wants, ClaimedBy;
    forall p | p in Wanted(v + u) ensures p in Reconciled(Wanted(v), u) {
      var e :| e in v + u && Wants((v + u)[e]) && PeerOf((v + u)[e]) == p;
      if e !in u {
        assert p in Wanted(v);
      }
    }
    forall p | p in Reconciled(Wanted(v), u) ensures p in Wanted(v + u) {
      if p in Wanted(u) {
        var e :| e in u && Wants(u[e]) && PeerOf(u[e]) == p;
        assert (v + u)[e] == u[e];
      } else {
        var e :| e in v && Wants(v[e]) && PeerOf(v[e]) == p;
        assert (v + u)[e] == v[e];
      }
    }
  }

  lemma WantedOf(m: map<Name, User>, e: Name)
    requires e in m && Wants(m[e])
    ensures PeerOf(m[e]) in Wanted(m)
  {
  }

  lemma KeyTakenIs(v: map<Name, User>, u: map<Name, User>)
    requires ProperEmails(v)
    ensures KeyTaken(Wanted(v), u) <==> exists e, f :: e in v && e !in u && f in u && ShareKey(v[e], u[f])
  {
    hide Wants, ClaimedBy;
    if KeyTaken(Wanted(v), u) {
      var p, q :| p in Wanted(v) && q in Wanted(u) && p.email !in u && p.key == q.key;
      var e :| e in v && Wants(v[e]) && PeerOf(v[e]) == p;
      var f :| f in u && Wants(u[f]) && PeerOf(u[f]) == q;
      assert ShareKey(v[e], u[f]);
    }
    if e, f :| e in v && e !in u && f in u && ShareKey(v[e], u[f]) {
      WantedOf(v, e);
      WantedOf(u, f);
    }
  }

  lemma RangeTakenIsClaimed(v: map<Name, User>, u: map<Name, User>)
    requires ProperEmails(v) && RangeTaken(Wanted(v), u)
    ensures ClaimTaken(v, u)
  {
    hide Wants, ClaimedBy;
    var p, q, c :| p in Wanted(v) && q in Wanted(u) && p.email !in u && c in p.ips && c in q.ips;
    var e :| e in v && Wants(v[e]) && PeerOf(v[e]) == p;
    var f :| f in u && Wants(u[f]) && PeerOf(u[f]) == q;
    assert ShareClaim(v[e], u[f]);
  }

  lemma OverrideConsistent(v: map<Name, User>, u: map<Name, User>)
    requires ProperEmails(v) && Consistent(v)
    ensures Consistent(v + u) <==> Consistent(u) && !KeyTaken(Wanted(v), u) && !ClaimTaken(v, u)
  {
    KeyTakenIs(v, u);
    hide ShareKey, ShareClaim, Wanted, KeyTaken;
    if Consistent(v + u) {
      assert forall e :: e in u ==> (v + u)[e] == u[e];
      assert forall e :: e in v && e !in u ==> (v + u)[e] == v[e];
    } else {
      var e, f :| e in v + u && f in v + u && e != f && Collide((v + u)[e], (v + u)[f]);
      CollideEither((v + u)[e], (v + u)[f]);
    }
  }

  lemma CollideEither(a: User, b: User)
    ensures (ShareKey(a, b) <==> ShareKey(b, a)) && (ShareClaim(a, b) <==> ShareClaim(b, a))
  {
  }

  /**
   * A full sync followed by a partial one gives the store of one full sync of
   * both lists. Given the first, the full sync of both succeeds exactly when the
   * partial one does and no range is claimed on both sides; and then the kernel
   * is in step too.
   */
  lemma IncrementalEqualsFull(v: seq<User>, u: seq<User>)
    requires Consistent(Normalized(v))
    ensures Reconciled(Wanted(Normalized(v)), Normalized(u)) == Wanted(Normalized(v + u))
    ensures Consistent(Normalized(v + u))
       <==> && Consistent(Normalized(u)) && !KeyTaken(Wanted(Normalized(v)), Normalized(u))
            && !ClaimTaken(Normalized(v), Normalized(u))
    ensures Consistent(Normalized(v + u)) ==> !RangeTaken(Wanted(Normalized(v)), Normalized(u))
  {
    NormalizedConcat(v, u, |u|);
    NormalizedEmails(v, |v|);
    assert ProperEmails(Normalized(v)) && Normalized(v + u) == Normalized(v) + Normalized(u);
    hide *;
    OverrideStore(Normalized(v), Normalized(u));
    OverrideConsistent(Normalized(v), Normalized(u));
    if RangeTaken(Wanted(Normalized(v)), Normalized(u)) {
      RangeTakenIsClaimed(Normalized(v), Normalized(u));
    }
  }
}

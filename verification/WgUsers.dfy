/**
 * Which WireGuard peers a list of users asks for (backend/wireguard/user_common.go).
 */
module WgUsers {
  import opened Traffic
  import opened WgPeerStore

  /** One of a user's addresses: unreadable, outside the interface's pools, or a range of one. */
  datatype PeerIP = Invalid | Outside | Inside(cidr: Name)

  /** `onInterface`: whether the user is entitled to this interface; `keyParses`: whether the key is a key. */
  datatype User = User(email: Name, onInterface: bool, publicKey: Name, keyParses: bool, peerIPs: seq<PeerIP>)

  // ------------------------------------------------------------ specification

  predicate Listed(u: User) {
    u.email != NO_NAME && u.publicKey != NO_NAME && u.peerIPs != []
  }

  /** The last word on every user among the first `n` entries. */
  function LastByEmail(users: seq<User>, n: nat): map<Name, User>
    requires n <= |users|
  {
    if n == 0 then map[]
    else if Listed(users[n - 1]) then LastByEmail(users, n - 1)[users[n - 1].email := users[n - 1]]
    else LastByEmail(users, n - 1)
  }

  function Normalized(users: seq<User>): map<Name, User> {
    LastByEmail(users, |users|)
  }

  /** An unreadable address puts the user in quarantine; the addresses before it stay claimed. */
  predicate Broken(ips: seq<PeerIP>, n: nat)
    requires n <= |ips|
  {
    exists i :: 0 <= i < n && ips[i].Invalid?
  }

  function Claimed(ips: seq<PeerIP>, n: nat): seq<Name>
    requires n <= |ips|
  {
    if n == 0 then []
    else if Broken(ips, n) || !ips[n - 1].Inside? then Claimed(ips, n - 1)
    else Claimed(ips, n - 1) + [ips[n - 1].cidr]
  }

  function ClaimedBy(u: User): seq<Name> {
    if u.onInterface && u.keyParses then Claimed(u.peerIPs, |u.peerIPs|) else []
  }

  predicate Wants(u: User) {
    u.onInterface && u.keyParses && !Broken(u.peerIPs, |u.peerIPs|) && ClaimedBy(u) != []
  }

  function PeerOf(u: User): Peer {
    Peer(u.email, u.publicKey, ClaimedBy(u))
  }

  ghost predicate ShareClaim(u: User, v: User) {
    exists c :: c in ClaimedBy(u) && c in ClaimedBy(v)
  }

  ghost predicate ShareKey(u: User, v: User) {
    Wants(u) && Wants(v) && u.publicKey == v.publicKey
  }

  /** Two users claim one address range, or want one key. */
  ghost predicate Collide(u: User, v: User) {
    ShareClaim(u, v) || ShareKey(u, v)
  }

  ghost predicate Consistent(m: map<Name, User>) {
    forall e, f :: e in m && f in m && e != f ==> !Collide(m[e], m[f])
  }

  /** The peers that a consistent set of users asks for. */
  ghost function Wanted(m: map<Name, User>): set<Peer> {
    set e | e in m && Wants(m[e]) :: PeerOf(m[e])
  }

  /** The map of users that a list enumerates, in some order. */
  ghost predicate Enumerates(list: seq<User>, m: map<Name, User>) {
    && (forall i :: 0 <= i < |list| ==> list[i].email in m && m[list[i].email] == list[i])
    && (forall i, j :: 0 <= i < j < |list| ==> list[i].email != list[j].email)
    && (forall e :: e in m ==> exists i :: 0 <= i < |list| && list[i].email == e)
  }

  lemma {:induction false} NormalizedEmails(users: seq<User>, n: nat)
    requires n <= |users|
    ensures forall e :: e in LastByEmail(users, n) ==> LastByEmail(users, n)[e].email == e && Listed(LastByEmail(users, n)[e])
  {
    if n > 0 {
      NormalizedEmails(users, n - 1);
    }
  }

  /** Normalising one list after another is normalising the two together. */
  lemma {:induction false} NormalizedConcat(v: seq<User>, u: seq<User>, n: nat)
    requires n <= |u|
    ensures LastByEmail(v + u, |v| + n) == Normalized(v) + LastByEmail(u, n)
    decreases n
  {
    if n == 0 {
      NormalizedPrefix(v, u, |v|);
    } else {
      NormalizedConcat(v, u, n - 1);
      assert (v + u)[|v| + n - 1] == u[n - 1];
    }
  }

  lemma {:induction false} NormalizedPrefix(v: seq<User>, u: seq<User>, n: nat)
    requires n <= |v|
    ensures LastByEmail(v + u, n) == LastByEmail(v, n)
  {
    if n > 0 {
      NormalizedPrefix(v, u, n - 1);
    }
  }

  // ------------------------------------------------- on the address list itself

  /** The ranges on a list of addresses, in order. */
  function InsideRanges(ips: seq<PeerIP>): seq<Name> {
    if ips == [] then [] else (if ips[0].Inside? then [ips[0].cidr] else []) + InsideRanges(ips[1..])
  }

  /** Entitled, with a proper key, every address readable and one of them in a pool. */
  ghost predicate Asks(u: User) {
    && u.onInterface && u.keyParses
    && (forall i :: 0 <= i < |u.peerIPs| ==> !u.peerIPs[i].Invalid?)
    && (exists i :: 0 <= i < |u.peerIPs| && u.peerIPs[i].Inside?)
  }

  /** The range is on the user's list, in front of anything unreadable. */
  ghost predicate Takes(u: User, c: Name) {
    && u.onInterface && u.keyParses
    && exists i :: 0 <= i < |u.peerIPs| && u.peerIPs[i] == Inside(c) && forall k :: 0 <= k < i ==> !u.peerIPs[k].Invalid?
  }

  /** Two users take one range, or ask for one key. */
  ghost predicate Compete(u: User, v: User) {
    (exists c :: Takes(u, c) && Takes(v, c)) || (Asks(u) && Asks(v) && u.publicKey == v.publicKey)
  }

  lemma {:induction false} InsideRangesSnoc(ips: seq<PeerIP>, ip: PeerIP)
    ensures InsideRanges(ips + [ip]) == InsideRanges(ips) + if ip.Inside? then [ip.cidr] else []
  {
    if ips == [] {
      assert [ip][1..] == [];
      assert InsideRanges([]) == [];
    } else {
      InsideRangesSnoc(ips[1..], ip);
      assert (ips + [ip])[1..] == ips[1..] + [ip];
    }
  }

  lemma {:induction false} ClaimedAreInside(ips: seq<PeerIP>, n: nat)
    requires n <= |ips| && !Broken(ips, n)
    ensures Claimed(ips, n) == InsideRanges(ips[..n])
    ensures Claimed(ips, n) != [] <==> exists i :: 0 <= i < n && ips[i].Inside?
  {
    if n > 0 {
      assert !Broken(ips, n - 1);
      ClaimedAreInside(ips, n - 1);
      assert ips[..n] == ips[..n - 1] + [ips[n - 1]];
      InsideRangesSnoc(ips[..n - 1], ips[n - 1]);
      hide Broken;
    }
  }

  lemma {:induction false} ClaimedAre(ips: seq<PeerIP>, n: nat, c: Name)
    requires n <= |ips|
    ensures c in Claimed(ips, n) <==> exists i :: 0 <= i < n && ips[i] == Inside(c) && forall k :: 0 <= k < i ==> !ips[k].Invalid?
  {
    if n > 0 {
      ClaimedAre(ips, n - 1, c);
      if Broken(ips, n) || !ips[n - 1].Inside? {
        if i :| 0 <= i < n && ips[i] == Inside(c) && forall k :: 0 <= k < i ==> !ips[k].Invalid? {
          assert i < n - 1;
        }
      }
    }
  }

  /** Who gets a peer, and which ranges it has. */
  lemma WantsWhen(u: User)
    ensures Wants(u) <==> Asks(u)
    ensures Asks(u) ==> PeerOf(u) == Peer(u.email, u.publicKey, InsideRanges(u.peerIPs))
    ensures forall c :: c in ClaimedBy(u) <==> Takes(u, c)
  {
    var ips := u.peerIPs;
    assert ips[..|ips|] == ips;
    if !Broken(ips, |ips|) {
      ClaimedAreInside(ips, |ips|);
    }
    forall c ensures c in ClaimedBy(u) <==> Takes(u, c) {
      ClaimedAre(ips, |ips|, c);
    }
    hide Claimed;
  }

  lemma CollideWhen(u: User, v: User)
    ensures Collide(u, v) <==> Compete(u, v)
  {
    WantsWhen(u);
    WantsWhen(v);
    hide Wants, Asks, Takes, ClaimedBy;
    if exists c :: Takes(u, c) && Takes(v, c) {
      var c :| Takes(u, c) && Takes(v, c);
      assert c in ClaimedBy(u) && c in ClaimedBy(v);
    }
  }

  /** The peers by key: exactly those of the users who ask for one, with all their ranges. */
  ghost predicate Gives(list: seq<User>, desired: map<Name, Peer>) {
    && (forall j :: 0 <= j < |list| ==>
          (Asks(list[j]) <==> list[j].publicKey in desired && desired[list[j].publicKey].email == list[j].email))
    && (forall j :: 0 <= j < |list| && Asks(list[j]) ==>
          desired[list[j].publicKey] == Peer(list[j].email, list[j].publicKey, InsideRanges(list[j].peerIPs)))
    && (forall k :: k in desired ==> exists j :: 0 <= j < |list| && Asks(list[j]) && list[j].publicKey == k)
  }

  lemma DesiresGive(list: seq<User>, desired: map<Name, Peer>)
    requires DistinctEmails(list) && Desires(list, |list|, desired)
    ensures Gives(list, desired)
  {
    forall j | 0 <= j < |list| ensures Wants(list[j]) <==> Asks(list[j])
      ensures Asks(list[j]) ==> PeerOf(list[j]) == Peer(list[j].email, list[j].publicKey, InsideRanges(list[j].peerIPs))
    {
      WantsWhen(list[j]);
    }
    hide Wants, Asks, ClaimedBy, InsideRanges;
    forall k | k in desired ensures exists j :: 0 <= j < |list| && Asks(list[j]) && list[j].publicKey == k {
      var j :| 0 <= j < |list| && Wants(list[j]) && list[j].publicKey == k;
      assert Asks(list[j]);
    }
  }

  ghost predicate NoneCompete(list: seq<User>) {
    forall i, j :: 0 <= i < j < |list| ==> !Compete(list[i], list[j])
  }

  lemma ApartWhen(list: seq<User>)
    ensures Apart(list, |list|) <==> NoneCompete(list)
  {
    forall i, j ensures 0 <= i < j < |list| ==> (Collide(list[i], list[j]) <==> Compete(list[i], list[j])) {
      if 0 <= i < j < |list| {
        CollideWhen(list[i], list[j]);
      }
    }
    hide Collide, Compete;
  }

  /** Entry `i` is the last word on its user: named, with a key and addresses, and no such entry of theirs behind it. */
  ghost predicate LastWord(users: seq<User>, i: nat)
    requires i < |users|
  {
    && users[i].email != NO_NAME && users[i].publicKey != NO_NAME && users[i].peerIPs != []
    && (forall j :: i < j < |users| && users[j].email == users[i].email ==> users[j].publicKey == NO_NAME || users[j].peerIPs == [])
  }

  lemma {:induction false} LastWordCounts(users: seq<User>, n: nat, e: Name)
    requires n <= |users|
    ensures e in LastByEmail(users, n) <==> exists i :: 0 <= i < n && LastWord(users[..n], i) && users[i].email == e
    ensures forall i :: 0 <= i < n && LastWord(users[..n], i) && users[i].email == e ==>
              e in LastByEmail(users, n) && LastByEmail(users, n)[e] == users[i]
  {
    if n > 0 {
      LastWordCounts(users, n - 1, e);
      var last := users[n - 1];
      assert users[..n] == users[..n - 1] + [last];
      if Listed(last) && last.email == e {
        assert LastWord(users[..n], n - 1);
      } else {
        forall i | 0 <= i < n && users[i].email == e
          ensures LastWord(users[..n], i) <==> i < n - 1 && LastWord(users[..n - 1], i)
        {
          LastWordBefore(users[..n - 1], last, i);
        }
        hide LastWord;
      }
    }
  }

  lemma LastWordBefore(users: seq<User>, last: User, i: nat)
    requires i <= |users| && !(Listed(last) && last.email == (users + [last])[i].email)
    ensures LastWord(users + [last], i) <==> i < |users| && LastWord(users, i)
  {
    var all := users + [last];
    assert forall k :: 0 <= k < |users| ==> all[k] == users[k];
    assert all[|users|] == last;
  }

  /** The peers a list of users asks for, in the panel's own terms. */
  lemma WantedAre(users: seq<User>, p: Peer)
    ensures p in Wanted(Normalized(users))
       <==> exists i :: 0 <= i < |users| && LastWord(users, i) && Asks(users[i])
                        && p == Peer(users[i].email, users[i].publicKey, InsideRanges(users[i].peerIPs))
  {
    var m := Normalized(users);
    assert users[..|users|] == users;
    if p in Wanted(m) {
      var e :| e in m && Wants(m[e]) && PeerOf(m[e]) == p;
      LastWordCounts(users, |users|, e);
      var i :| 0 <= i < |users| && LastWord(users, i) && users[i].email == e;
      WantsWhen(users[i]);
    }
    hide Wants, Asks, ClaimedBy, LastWord;
    if i :| 0 <= i < |users| && LastWord(users, i) && Asks(users[i])
            && p == Peer(users[i].email, users[i].publicKey, InsideRanges(users[i].peerIPs)) {
      WantsWhen(users[i]);
      LastWordCounts(users, |users|, users[i].email);
      assert m[users[i].email] == users[i];
    }
  }

  // ---------------------------------------------------------- implementation

  /** The map is ranged over in any order. */
  method NormalizeUsers(users: seq<User>) returns (list: seq<User>)
    ensures Enumerates(list, Normalized(users))
  {
    var lastByEmail: map<Name, User> := map[];
    for i := 0 to |users|
      invariant lastByEmail == LastByEmail(users, i)
    {
      if users[i].email == NO_NAME || users[i].publicKey == NO_NAME || users[i].peerIPs == [] {
        continue;
      }
      lastByEmail := lastByEmail[users[i].email := users[i]];
    }
    NormalizedEmails(users, |users|);
    list := ListValues(lastByEmail);
  }

  method ListValues(m: map<Name, User>) returns (list: seq<User>)
    requires forall e :: e in m ==> m[e].email == e
    ensures Enumerates(list, m)
  {
    list := [];
    var todo := m.Keys;
    while todo != {}
      invariant todo <= m.Keys
      invariant forall i :: 0 <= i < |list| ==> list[i].email in m && list[i].email !in todo && m[list[i].email] == list[i]
      invariant forall i, j :: 0 <= i < j < |list| ==> list[i].email != list[j].email
      invariant forall e :: e in m && e !in todo ==> m[e] in list
    {
      var e :| e in todo;
      list := list + [m[e]];
      todo := todo - {e};
    }
  }

  /** Somebody else claimed one of the user's addresses. */
  ghost predicate Contested(user: User, seenIPs: map<Name, Name>) {
    exists c :: c in ClaimedBy(user) && c in seenIPs && seenIPs[c] != user.email
  }

  ghost predicate Recorded(user: User, seenIPs: map<Name, Name>, seen': map<Name, Name>) {
    && seen'.Keys == seenIPs.Keys + (set c | c in ClaimedBy(user))
    && (forall c :: c in seen' ==> seen'[c] == if c in ClaimedBy(user) then user.email else seenIPs[c])
  }

  /** Claims a user's addresses one by one, until one is unreadable or somebody else's. */
  method ClaimIPs(user: User, seenIPs: map<Name, Name>) returns (conflict: bool, seen': map<Name, Name>, ips: seq<Name>, hasInvalid: bool)
    requires user.onInterface && user.keyParses
    ensures conflict <==> Contested(user, seenIPs)
    ensures !conflict ==> ips == ClaimedBy(user) && hasInvalid == Broken(user.peerIPs, |user.peerIPs|)
    ensures !conflict ==> Recorded(user, seenIPs, seen')
  {
    conflict, seen', ips, hasInvalid := false, seenIPs, [], false;
    for i := 0 to |user.peerIPs|
      invariant !conflict && ips == Claimed(user.peerIPs, i) && hasInvalid == Broken(user.peerIPs, i)
      invariant forall c :: c in ips ==> c in seenIPs ==> seenIPs[c] == user.email
      invariant seen'.Keys == seenIPs.Keys + (set c | c in ips)
      invariant forall c :: c in seen' ==> seen'[c] == if c in ips then user.email else seenIPs[c]
    {
      match user.peerIPs[i]
      case Invalid =>
        hasInvalid := true;
        ClaimedStays(user.peerIPs, i + 1, |user.peerIPs|);
        break;
      case Outside =>
      case Inside(cidr) =>
        if cidr in seen' && seen'[cidr] != user.email {
          ClaimedGrows(user.peerIPs, i + 1, |user.peerIPs|, cidr);
          conflict := true;
          return;
        }
        seen' := seen'[cidr := user.email];
        ips := ips + [cidr];
    }
  }

  lemma {:induction false} ClaimedStays(ips: seq<PeerIP>, from: nat, n: nat)
    requires from <= n <= |ips| && Broken(ips, from)
    ensures Claimed(ips, n) == Claimed(ips, from) && Broken(ips, n)
  {
    if from < n {
      ClaimedStays(ips, from, n - 1);
    }
  }

  lemma {:induction false} ClaimedGrows(ips: seq<PeerIP>, from: nat, n: nat, c: Name)
    requires from <= n <= |ips| && c in Claimed(ips, from)
    ensures c in Claimed(ips, n)
  {
    if from < n {
      ClaimedGrows(ips, from, n - 1, c);
    }
  }

  /** Who claimed what, after the first `n` users. */
  ghost predicate Claims(list: seq<User>, n: nat, seenIPs: map<Name, Name>)
    requires n <= |list|
  {
    && (forall j, c :: 0 <= j < n && c in ClaimedBy(list[j]) ==> c in seenIPs && seenIPs[c] == list[j].email)
    && (forall c :: c in seenIPs ==> exists j :: 0 <= j < n && c in ClaimedBy(list[j]))
  }

  /** Which peers the first `n` users ask for, by key. */
  ghost predicate Desires(list: seq<User>, n: nat, desired: map<Name, Peer>)
    requires n <= |list|
  {
    && (forall j :: 0 <= j < n && Wants(list[j]) ==> list[j].publicKey in desired && desired[list[j].publicKey] == PeerOf(list[j]))
    && (forall k :: k in desired ==> exists j :: 0 <= j < n && Wants(list[j]) && list[j].publicKey == k)
  }

  ghost predicate DistinctEmails(list: seq<User>) {
    forall i, j :: 0 <= i < j < |list| ==> list[i].email != list[j].email
  }

  ghost predicate ClaimsAlone(list: seq<User>, n: nat)
    requires n < |list|
  {
    forall j :: 0 <= j < n ==> !ShareClaim(list[j], list[n])
  }

  ghost predicate KeyedAlone(list: seq<User>, n: nat)
    requires n < |list|
  {
    forall j :: 0 <= j < n ==> !ShareKey(list[j], list[n])
  }

  ghost predicate Apart(list: seq<User>, n: nat)
    requires n <= |list|
  {
    forall i, j :: 0 <= i < j < n ==> !Collide(list[i], list[j])
  }

  /** Fails exactly on a collision, whatever the order of the list. */
  method CollectDesiredPeers(list: seq<User>) returns (ok: bool, desired: map<Name, Peer>)
    requires DistinctEmails(list)
    ensures ok <==> Apart(list, |list|)
    ensures ok <==> NoneCompete(list)
    ensures ok ==> Desires(list, |list|, desired) && Gives(list, desired)
  {
    hide Apart, Claims, Desires, Gives, NoneCompete, ClaimedBy, Broken, Contested, Recorded, DistinctEmails, ClaimsAlone, KeyedAlone;
    ok, desired := true, map[];
    var seenIPs: map<Name, Name> := map[];
    NobodyYet(list, seenIPs, desired);
    ApartWhen(list);
    for n := 0 to |list|
      invariant ok && Apart(list, n) && Claims(list, n, seenIPs) && Desires(list, n, desired)
    {
      var user := list[n];
      if !user.onInterface || !user.keyParses {
        NotEligible(user);
        NothingClaimed(list, n, seenIPs);
        NothingWanted(list, n, desired);
        ApartOneMore(list, n);
        continue;
      }
      var conflict, seen', ips, hasInvalid := ClaimIPs(user, seenIPs);
      if conflict {
        ClaimCollides(list, n, seenIPs);
        ok := false;
        return;
      }
      ClaimsOneMore(list, n, seenIPs, seen');
      seenIPs := seen';
      if hasInvalid || ips == [] {
        NothingWanted(list, n, desired);
        ApartOneMore(list, n);
        continue;
      }
      if user.publicKey in desired && desired[user.publicKey].email != user.email {
        KeyCollides(list, n, desired);
        ok := false;
        return;
      }
      DesiresOneMore(list, n, desired);
      ApartOneMore(list, n);
      desired := desired[user.publicKey := Peer(user.email, user.publicKey, ips)];
    }
    DesiresGive(list, desired);
  }

  lemma NobodyYet(list: seq<User>, seenIPs: map<Name, Name>, desired: map<Name, Peer>)
    requires seenIPs == map[] && desired == map[]
    ensures Apart(list, 0) && Claims(list, 0, seenIPs) && Desires(list, 0, desired)
  {
  }

  lemma ApartOneMore(list: seq<User>, n: nat)
    requires n < |list| && Apart(list, n)
    requires ClaimsAlone(list, n) && KeyedAlone(list, n)
    ensures Apart(list, n + 1)
  {
    hide ShareClaim, ShareKey;
  }

  lemma NotEligible(u: User)
    requires !u.onInterface || !u.keyParses
    ensures ClaimedBy(u) == [] && !Wants(u)
  {
  }

  lemma NothingClaimed(list: seq<User>, n: nat, seenIPs: map<Name, Name>)
    requires n < |list| && Claims(list, n, seenIPs) && ClaimedBy(list[n]) == []
    ensures Claims(list, n + 1, seenIPs)
    ensures ClaimsAlone(list, n)
  {
    hide ClaimedBy;
    forall c | c in seenIPs ensures exists j :: 0 <= j < n + 1 && c in ClaimedBy(list[j]) {
      var j :| 0 <= j < n && c in ClaimedBy(list[j]);
      assert j < n + 1;
    }
  }

  lemma ClaimCollides(list: seq<User>, n: nat, seenIPs: map<Name, Name>)
    requires n < |list| && Claims(list, n, seenIPs)
    requires Contested(list[n], seenIPs)
    ensures !Apart(list, |list|)
  {
    hide ClaimedBy;
    var c :| c in ClaimedBy(list[n]) && c in seenIPs && seenIPs[c] != list[n].email;
    var j :| 0 <= j < n && c in ClaimedBy(list[j]);
    assert Collide(list[j], list[n]);
  }

  lemma ClaimsOneMore(list: seq<User>, n: nat, seenIPs: map<Name, Name>, seen': map<Name, Name>)
    requires n < |list| && Claims(list, n, seenIPs)
    requires DistinctEmails(list)
    requires !Contested(list[n], seenIPs) && Recorded(list[n], seenIPs, seen')
    ensures Claims(list, n + 1, seen')
    ensures ClaimsAlone(list, n)
  {
    hide ClaimedBy;
    forall c | c in seen' ensures exists j :: 0 <= j < n + 1 && c in ClaimedBy(list[j]) {
      if c !in ClaimedBy(list[n]) {
        var j :| 0 <= j < n && c in ClaimedBy(list[j]);
        assert j < n + 1;
      }
    }
  }

  lemma NothingWanted(list: seq<User>, n: nat, desired: map<Name, Peer>)
    requires n < |list| && Desires(list, n, desired) && !Wants(list[n])
    ensures Desires(list, n + 1, desired)
    ensures KeyedAlone(list, n)
  {
    hide Wants;
    forall k | k in desired ensures exists j :: 0 <= j < n + 1 && Wants(list[j]) && list[j].publicKey == k {
      var j :| 0 <= j < n && Wants(list[j]) && list[j].publicKey == k;
      assert j < n + 1;
    }
  }

  lemma KeyCollides(list: seq<User>, n: nat, desired: map<Name, Peer>)
    requires n < |list| && Desires(list, n, desired) && Wants(list[n]) && list[n].publicKey in desired
    ensures !Apart(list, |list|)
  {
    hide Wants;
    var j :| 0 <= j < n && Wants(list[j]) && list[j].publicKey == list[n].publicKey;
    assert Collide(list[j], list[n]);
  }

  lemma DesiresOneMore(list: seq<User>, n: nat, desired: map<Name, Peer>)
    requires n < |list| && Desires(list, n, desired) && Wants(list[n])
    requires DistinctEmails(list)
    requires list[n].publicKey in desired ==> desired[list[n].publicKey].email == list[n].email
    ensures Desires(list, n + 1, desired[list[n].publicKey := PeerOf(list[n])])
    ensures KeyedAlone(list, n)
  {
    hide Wants, ClaimedBy;
    assert list[n].publicKey !in desired;
    var more := desired[list[n].publicKey := PeerOf(list[n])];
    forall k | k in more ensures exists j :: 0 <= j < n + 1 && Wants(list[j]) && list[j].publicKey == k {
      if k != list[n].publicKey {
        var j :| 0 <= j < n && Wants(list[j]) && list[j].publicKey == k;
        assert j < n + 1;
      }
    }
  }
}

/**
 * The WireGuard peer store (backend/wireguard/peer_store.go): two maps kept
 * inverse to each other. What it means is a set of peers in which no two share
 * an email or a key.
 */
module WgPeerStore {
  import opened Traffic
  import opened Wrappers

  datatype Peer = Peer(email: Name, key: Name, ips: seq<Name>) {
    /** Two peers that cannot be in the store together. */
    predicate Clashes(other: Peer) {
      email == other.email || key == other.key
    }
  }

  // ------------------------------------------------------------ specification

  function WithoutKeys(s: set<Peer>, keys: seq<Name>): set<Peer> {
    set p | p in s && p.key !in keys
  }

  /** A peer takes the place of whoever had its email and whoever had its key. */
  function Upsert(s: set<Peer>, p: Peer): set<Peer> {
    (set q | q in s && !q.Clashes(p)) + {p}
  }

  /** The peers after the first `n` upserts. */
  function UpsertFirst(s: set<Peer>, upserts: seq<Peer>, n: nat): set<Peer>
    requires n <= |upserts|
  {
    if n == 0 then s else Upsert(UpsertFirst(s, upserts, n - 1), upserts[n - 1])
  }

  ghost predicate Unclaimed(p: Peer, upserts: seq<Peer>, from: nat, to: nat)
    requires to <= |upserts|
  {
    forall i :: from <= i < to ==> !p.Clashes(upserts[i])
  }

  /**
   * Whatever swaps and cycles a batch describes: a peer is there afterwards
   * exactly if it was upserted, or was there before, and nothing after that
   * claimed its email or its key.
   */
  lemma {:induction false} LastClaimWins(s: set<Peer>, upserts: seq<Peer>, n: nat, p: Peer)
    requires n <= |upserts|
    ensures p in UpsertFirst(s, upserts, n)
       <==> || (p in s && Unclaimed(p, upserts, 0, n))
            || (exists i :: 0 <= i < n && upserts[i] == p && Unclaimed(p, upserts, i + 1, n))
  {
    if n > 0 {
      LastClaimWins(s, upserts, n - 1, p);
      if p == upserts[n - 1] {
        assert Unclaimed(p, upserts, n, n);
      } else {
        forall i | 0 <= i < n && upserts[i] == p && Unclaimed(p, upserts, i + 1, n)
          ensures i < n - 1 && Unclaimed(p, upserts, i + 1, n - 1)
        {
        }
        if i :| 0 <= i < n - 1 && upserts[i] == p && Unclaimed(p, upserts, i + 1, n - 1) {
          assert !p.Clashes(upserts[n - 1]) ==> Unclaimed(p, upserts, i + 1, n);
        }
      }
    }
  }

  // -------------------------------------------------------------- two maps

  /** The two maps are inverse to each other. */
  ghost predicate Inverse(peers: map<Name, Peer>, emailToKey: map<Name, Name>) {
    && (forall k :: k in peers ==>
          peers[k].key == k && peers[k].email in emailToKey && emailToKey[peers[k].email] == k)
    && (forall e :: e in emailToKey ==> emailToKey[e] in peers && peers[emailToKey[e]].email == e)
  }

  /** A list filled into both maps, later entries replacing earlier ones. */
  function ByKey(list: seq<Peer>, n: nat): map<Name, Peer>
    requires n <= |list|
  {
    if n == 0 then map[] else ByKey(list, n - 1)[list[n - 1].key := list[n - 1]]
  }

  function ByEmail(list: seq<Peer>, n: nat): map<Name, Name>
    requires n <= |list|
  {
    if n == 0 then map[] else ByEmail(list, n - 1)[list[n - 1].email := list[n - 1].key]
  }

  ghost predicate LastWithKey(list: seq<Peer>, i: nat) {
    i < |list| && forall j :: i < j < |list| ==> list[j].key != list[i].key
  }

  ghost predicate LastWithEmail(list: seq<Peer>, i: nat) {
    i < |list| && forall j :: i < j < |list| ==> list[j].email != list[i].email
  }

  lemma {:induction false} ByKeyIsLast(list: seq<Peer>, n: nat, k: Name)
    requires n <= |list|
    ensures forall i :: 0 <= i < n && list[i].key == k ==> k in ByKey(list, n)
    ensures k in ByKey(list, n) ==>
              exists i :: 0 <= i < n && list[i].key == k && ByKey(list, n)[k] == list[i]
                       && forall j :: i < j < n ==> list[j].key != k
  {
    if n > 0 {
      ByKeyIsLast(list, n - 1, k);
      if list[n - 1].key == k {
        assert ByKey(list, n)[k] == list[n - 1];
      }
    }
  }

  lemma {:induction false} ByEmailIsLast(list: seq<Peer>, n: nat, e: Name)
    requires n <= |list|
    ensures forall i :: 0 <= i < n && list[i].email == e ==> e in ByEmail(list, n)
    ensures e in ByEmail(list, n) ==>
              exists i :: 0 <= i < n && list[i].email == e && ByEmail(list, n)[e] == list[i].key
                       && forall j :: i < j < n ==> list[j].email != e
  {
    if n > 0 {
      ByEmailIsLast(list, n - 1, e);
      if list[n - 1].email == e {
        assert ByEmail(list, n)[e] == list[n - 1].key;
      }
    }
  }

  lemma LastByKey(list: seq<Peer>, i: nat)
    requires LastWithKey(list, i)
    ensures list[i].key in ByKey(list, |list|) && ByKey(list, |list|)[list[i].key] == list[i]
  {
    ByKeyIsLast(list, |list|, list[i].key);
  }

  lemma LastByEmail(list: seq<Peer>, i: nat)
    requires LastWithEmail(list, i)
    ensures list[i].email in ByEmail(list, |list|) && ByEmail(list, |list|)[list[i].email] == list[i].key
  {
    ByEmailIsLast(list, |list|, list[i].email);
  }

  /**
   * Filling both maps from a list, as `Init` and `ReplaceAll` do without looking
   * at what they overwrite, makes them inverse exactly when the entries that are
   * last with their key are those that are last with their email.
   */
  lemma {:induction false} FilledInverse(list: seq<Peer>)
    ensures Inverse(ByKey(list, |list|), ByEmail(list, |list|))
       <==> (forall i :: 0 <= i < |list| ==> (LastWithKey(list, i) <==> LastWithEmail(list, i)))
  {
    if Inverse(ByKey(list, |list|), ByEmail(list, |list|)) {
      forall i | 0 <= i < |list| ensures LastWithKey(list, i) <==> LastWithEmail(list, i) {
        InverseMeansSameLast(list, i);
      }
    } else if forall i :: 0 <= i < |list| ==> (LastWithKey(list, i) <==> LastWithEmail(list, i)) {
      SameLastMeansInverse(list);
      assert false;
    }
  }

  lemma InverseMeansSameLast(list: seq<Peer>, i: nat)
    requires Inverse(ByKey(list, |list|), ByEmail(list, |list|)) && i < |list|
    ensures LastWithKey(list, i) <==> LastWithEmail(list, i)
  {
    if LastWithKey(list, i) {
      LastByKey(list, i);
      ByEmailIsLast(list, |list|, list[i].email);
    }
    if LastWithEmail(list, i) {
      LastByEmail(list, i);
      ByKeyIsLast(list, |list|, list[i].key);
    }
  }

  lemma SameLastMeansInverse(list: seq<Peer>)
    requires forall i :: 0 <= i < |list| ==> (LastWithKey(list, i) <==> LastWithEmail(list, i))
    ensures Inverse(ByKey(list, |list|), ByEmail(list, |list|))
  {
    var peers, keys := ByKey(list, |list|), ByEmail(list, |list|);
    forall k | k in peers ensures peers[k].key == k && peers[k].email in keys && keys[peers[k].email] == k {
      ByKeyIsLast(list, |list|, k);
      var i :| 0 <= i < |list| && list[i].key == k && peers[k] == list[i] && forall j :: i < j < |list| ==> list[j].key != k;
      assert LastWithKey(list, i);
      LastByEmail(list, i);
    }
    forall e | e in keys ensures keys[e] in peers && peers[keys[e]].email == e {
      ByEmailIsLast(list, |list|, e);
      var i :| 0 <= i < |list| && list[i].email == e && keys[e] == list[i].key && forall j :: i < j < |list| ==> list[j].email != e;
      assert LastWithEmail(list, i);
      LastByKey(list, i);
    }
  }

  /** One email with two keys: the store finds the first peer by key and not by email. */
  lemma SharedEmailBreaksInverse(email: Name, a: Name, b: Name)
    requires a != b
    ensures var list := [Peer(email, a, []), Peer(email, b, [])];
            !Inverse(ByKey(list, 2), ByEmail(list, 2))
  {
    var list := [Peer(email, a, []), Peer(email, b, [])];
    assert list[1].email == list[0].email;
    assert LastWithKey(list, 0) && !LastWithEmail(list, 0);
    FilledInverse(list);
  }

  ghost predicate NoClashes(list: seq<Peer>) {
    forall i, j :: 0 <= i < j < |list| ==> !list[i].Clashes(list[j])
  }

  function AllOf(list: seq<Peer>): set<Peer> {
    set i | 0 <= i < |list| :: list[i]
  }

  lemma FilledValues(list: seq<Peer>)
    requires NoClashes(list)
    ensures Inverse(ByKey(list, |list|), ByEmail(list, |list|)) && ByKey(list, |list|).Values == AllOf(list)
  {
    FilledInverse(list);
    forall p ensures p in ByKey(list, |list|).Values <==> p in AllOf(list) {
      if p in AllOf(list) {
        var i :| 0 <= i < |list| && list[i] == p;
        assert LastWithKey(list, i);
        LastByKey(list, i);
      }
      if p in ByKey(list, |list|).Values {
        var k :| k in ByKey(list, |list|) && ByKey(list, |list|)[k] == p;
        ByKeyIsLast(list, |list|, k);
      }
    }
  }

  // ---------------------------------------------------------- implementation

  class PeerStore {
    var peers: map<Name, Peer>
    var emailToKey: map<Name, Name>

    constructor ()
      ensures Valid() && Contents() == {}
    {
      peers, emailToKey := map[], map[];
    }

    ghost predicate Valid()
      reads this
    {
      Inverse(peers, emailToKey)
    }

    ghost function Contents(): set<Peer>
      reads this
    {
      peers.Values
    }

    method RemoveKeys(keys: seq<Name>) returns (removed: seq<Name>)
      requires Valid()
      modifies this
      ensures Valid() && Contents() == WithoutKeys(old(Contents()), keys)
      ensures forall k :: k in removed <==> k in keys && k in old(peers)
      ensures forall i, j :: 0 <= i < j < |removed| ==> removed[i] != removed[j]
    {
      removed := [];
      for i := 0 to |keys|
        invariant Valid()
        invariant forall k :: k in peers <==> k in old(peers) && k !in keys[..i]
        invariant forall k :: k in peers ==> peers[k] == old(peers)[k]
        invariant forall k :: k in removed <==> k in keys[..i] && k in old(peers)
        invariant forall i, j :: 0 <= i < j < |removed| ==> removed[i] != removed[j]
      {
        assert keys[..i + 1] == keys[..i] + [keys[i]];
        if keys[i] in peers {
          emailToKey := emailToKey - {peers[keys[i]].email};
          peers := peers - {keys[i]};
          removed := removed + [keys[i]];
        }
      }
      assert keys[..|keys|] == keys;
      RemainingValues(old(peers), peers, old(emailToKey), keys);
    }

    method UpsertOne(peer: Peer)
      requires Valid()
      modifies this
      ensures Valid() && Contents() == Upsert(old(Contents()), peer)
    {
      if peer.email in emailToKey && emailToKey[peer.email] != peer.key {
        peers := peers - {emailToKey[peer.email]};
      }
      if peer.key in peers && peers[peer.key].email != peer.email {
        emailToKey := emailToKey - {peers[peer.key].email};
      }
      peers := peers[peer.key := peer];
      emailToKey := emailToKey[peer.email := peer.key];
      UpsertedValues(old(peers), peers, old(emailToKey), peer);
    }

    method ApplyChanges(removeKeys: seq<Name>, upsertPeers: seq<Peer>) returns (removed: seq<Name>)
      requires Valid()
      modifies this
      ensures Valid()
      ensures Contents() == UpsertFirst(WithoutKeys(old(Contents()), removeKeys), upsertPeers, |upsertPeers|)
      ensures forall k :: k in removed <==> k in removeKeys && k in old(peers)
      ensures forall i, j :: 0 <= i < j < |removed| ==> removed[i] != removed[j]
    {
      removed := RemoveKeys(removeKeys);
      ghost var start := Contents();
      hide Inverse, Upsert;
      for i := 0 to |upsertPeers|
        invariant Valid() && Contents() == UpsertFirst(start, upsertPeers, i)
      {
        UpsertOne(upsertPeers[i]);
      }
    }

    /** Also what `Init` does to an empty store. */
    method ReplaceAll(list: seq<Peer>) returns (removed: set<Name>)
      modifies this
      ensures peers == ByKey(list, |list|) && emailToKey == ByEmail(list, |list|)
      ensures removed == old(peers).Keys - peers.Keys
      ensures NoClashes(list) ==> Valid() && Contents() == AllOf(list)
    {
      var newPeers: map<Name, Peer>, newEmailToKey: map<Name, Name> := map[], map[];
      for i := 0 to |list|
        invariant newPeers == ByKey(list, i) && newEmailToKey == ByEmail(list, i)
      {
        newPeers := newPeers[list[i].key := list[i]];
        newEmailToKey := newEmailToKey[list[i].email := list[i].key];
      }
      removed := set k | k in peers && k !in newPeers;
      peers, emailToKey := newPeers, newEmailToKey;
      if NoClashes(list) {
        FilledValues(list);
      }
    }

    /** Which peer an email has, if any: no other peer has it too. */
    method GetByEmail(email: Name) returns (r: Option<Peer>)
      requires Valid()
      ensures r.Some? ==> r.value in Contents() && r.value.email == email
      ensures forall p :: p in Contents() && p.email == email ==> r == Some(p)
    {
      if email in emailToKey {
        return Some(peers[emailToKey[email]]);
      }
      return None;
    }
  }

  lemma RemainingValues(before: map<Name, Peer>, after: map<Name, Peer>, index: map<Name, Name>, keys: seq<Name>)
    requires Inverse(before, index)
    requires forall k :: k in after <==> k in before && k !in keys
    requires forall k :: k in after ==> after[k] == before[k]
    ensures after.Values == WithoutKeys(before.Values, keys)
  {
    forall p ensures p in after.Values <==> p in WithoutKeys(before.Values, keys) {
      if p in WithoutKeys(before.Values, keys) {
        assert after[p.key] == p;
      }
    }
  }

  lemma UpsertedValues(before: map<Name, Peer>, after: map<Name, Peer>, index: map<Name, Name>, peer: Peer)
    requires Inverse(before, index)
    requires forall k :: k in after <==> k == peer.key || (k in before && before[k].email != peer.email)
    requires forall k :: k in after ==> after[k] == if k == peer.key then peer else before[k]
    ensures after.Values == Upsert(before.Values, peer)
  {
    forall p ensures p in after.Values <==> p in Upsert(before.Values, peer) {
      if p in Upsert(before.Values, peer) {
        assert after[p.key] == p;
      }
      if p in after.Values {
        var k :| k in after && after[k] == p;
        assert p == peer || p in before.Values;
      }
    }
  }
}

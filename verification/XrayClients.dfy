/**
 * The xray client maps (backend/xray/config.go, backend/xray/user.go): a full
 * rebuild, a batch update and single updates of who may use an inbound.
 */
module XrayClients {
  import opened Wrappers
  import opened Base64

  // --------------------------------------------------------------------- data

  datatype Protocol = Vmess | Vless | Trojan | Shadowsocks | Hysteria | Other

  /** An id may be there and still not be one. */
  datatype Id = NoId | Malformed | Id(id: string)

  datatype User = User(
    email: string,
    inbounds: seq<string>,
    vmess: Id,
    vless: Id,
    trojan: Option<string>,
    shadowsocks: Option<string>,
    hysteria: Option<string>)

  datatype Account =
    | VmessAccount(email: string, id: string)
    | VlessAccount(email: string, id: string)
    | TrojanAccount(email: string, secret: string)
    | ShadowsocksTcpAccount(email: string, secret: string)
    | ShadowsocksAccount(email: string, secret: string)
    | HysteriaAccount(email: string, secret: string)

  datatype Spec = Spec(tag: string, protocol: Protocol, cipher: Option<string>, exclude: bool) {
    predicate Is2022() {
      protocol.Shadowsocks? && cipher.Some? && "2022-blake3" <= cipher.value
    }

    /** The cipher of a shadowsocks-2022 inbound is one the key normaliser knows. */
    predicate Known() {
      Is2022() ==> KnownMethod(cipher.value)
    }
  }

  type Clients = map<string, Account>

  type Hash = string -> Digest

  function CheckShadowsocks2022(h: Hash, cipher: string, a: Account): Account
    requires a.ShadowsocksAccount?
  {
    a.(secret := EnsureBase64Password(h, a.secret, cipher))
  }

  // ------------------------------------------------------------ full rebuild

  /** The account a rebuild gives a user on an inbound, if any. */
  function Rebuilt(h: Hash, s: Spec, u: User): Option<Account> {
    if s.tag !in u.inbounds then None
    else match s.protocol
      case Vmess => if u.vmess.Id? then Some(VmessAccount(u.email, u.vmess.id)) else None
      case Vless => if u.vless.Id? then Some(VlessAccount(u.email, u.vless.id)) else None
      case Trojan => if u.trojan.Some? then Some(TrojanAccount(u.email, u.trojan.value)) else None
      case Shadowsocks =>
        if u.shadowsocks.None? then None
        else if s.Is2022() then
          Some(CheckShadowsocks2022(h, s.cipher.value, ShadowsocksAccount(u.email, u.shadowsocks.value)))
        else Some(ShadowsocksTcpAccount(u.email, u.shadowsocks.value))
      case Hysteria => if u.hysteria.Some? then Some(HysteriaAccount(u.email, u.hysteria.value)) else None
      case Other => None
  }

  const NO_CLIENTS: Clients := map[]

  /** The first `n` users put on top of `base`. */
  function Synced(h: Hash, s: Spec, base: Clients, users: seq<User>, n: nat): Clients
    requires n <= |users|
  {
    if n == 0 then base
    else
      var before := Synced(h, s, base, users, n - 1);
      match Rebuilt(h, s, users[n - 1])
      case Some(a) => before[users[n - 1].email := a]
      case None => before
  }

  // ------------------------------------------------------------- batch update

  datatype Settings = Settings(
    vmess: Option<Account>,
    vless: Option<Account>,
    trojan: Option<Account>,
    shadowsocks: Option<Account>,
    shadowsocks2022: Option<Account>,
    hysteria: Option<Account>)

  function SetupUserAccount(u: User): Settings {
    Settings(
      if u.vmess.Id? then Some(VmessAccount(u.email, u.vmess.id)) else None,
      if u.vless.Id? then Some(VlessAccount(u.email, u.vless.id)) else None,
      if u.trojan.Some? then Some(TrojanAccount(u.email, u.trojan.value)) else None,
      if u.shadowsocks.Some? then Some(ShadowsocksTcpAccount(u.email, u.shadowsocks.value)) else None,
      if u.shadowsocks.Some? then Some(ShadowsocksAccount(u.email, u.shadowsocks.value)) else None,
      if u.hysteria.Some? then Some(HysteriaAccount(u.email, u.hysteria.value)) else None)
  }

  function IsActiveInbound(h: Hash, s: Spec, inbounds: seq<string>, settings: Settings): Option<Account>
    requires settings.shadowsocks2022.Some? ==> settings.shadowsocks2022.value.ShadowsocksAccount?
  {
    if s.tag !in inbounds then None
    else match s.protocol
      case Vless => settings.vless
      case Vmess => settings.vmess
      case Trojan => settings.trojan
      case Shadowsocks =>
        if s.Is2022() then
          if settings.shadowsocks2022.None? then None
          else Some(CheckShadowsocks2022(h, s.cipher.value, settings.shadowsocks2022.value))
        else settings.shadowsocks
      case Hysteria => settings.hysteria
      case Other => None
  }

  /** The two ways of arriving at a user's account agree. */
  lemma ActiveIsRebuilt(h: Hash, s: Spec, u: User)
    ensures IsActiveInbound(h, s, u.inbounds, SetupUserAccount(u)) == Rebuilt(h, s, u)
    ensures Rebuilt(h, s, u).Some? ==> Rebuilt(h, s, u).value.email == u.email
  {
  }

  /** What a batch update stores for an account: only one of the inbound's own kind, and its key normalised again. */
  function Stored(h: Hash, s: Spec, a: Account): Option<Account> {
    match s.protocol
    case Vmess => if a.VmessAccount? then Some(a) else None
    case Vless => if a.VlessAccount? then Some(a) else None
    case Trojan => if a.TrojanAccount? then Some(a) else None
    case Shadowsocks =>
      if s.Is2022() then
        if a.ShadowsocksAccount? then Some(CheckShadowsocks2022(h, s.cipher.value, a)) else None
      else if a.ShadowsocksTcpAccount? then Some(a) else None
    case Hysteria => if a.HysteriaAccount? then Some(a) else None
    case Other => None
  }

  function StoreFirst(h: Hash, s: Spec, clients: Clients, accounts: seq<Account>, n: nat): Clients
    requires n <= |accounts|
  {
    if n == 0 then clients
    else
      var before := StoreFirst(h, s, clients, accounts, n - 1);
      match Stored(h, s, accounts[n - 1])
      case Some(a) => before[accounts[n - 1].email := a]
      case None => before
  }

  function Without(clients: Clients, emails: set<string>): Clients {
    map e | e in clients && e !in emails :: clients[e]
  }

  /** One inbound's share of a batch: the accounts of its active users, and the emails of the others. */
  function Accounts(h: Hash, s: Spec, users: seq<User>, n: nat): seq<Account>
    requires n <= |users|
  {
    if n == 0 then []
    else Accounts(h, s, users, n - 1) + match Rebuilt(h, s, users[n - 1]) case Some(a) => [a] case None => []
  }

  function Removals(h: Hash, s: Spec, users: seq<User>, n: nat): set<string>
    requires n <= |users|
  {
    if n == 0 then {}
    else Removals(h, s, users, n - 1) + if Rebuilt(h, s, users[n - 1]).None? then {users[n - 1].email} else {}
  }

  /** Accounts first, removals last. */
  function Updated(h: Hash, s: Spec, clients: Clients, users: seq<User>): Clients {
    var accounts := Accounts(h, s, users, |users|);
    Without(StoreFirst(h, s, clients, accounts, |accounts|), Removals(h, s, users, |users|))
  }

  // ----------------------------------------------------------- single updates

  /** What a single update stores: by the kind of the account alone. */
  function StoredAlone(h: Hash, s: Spec, a: Account): Account {
    if a.ShadowsocksAccount? && s.cipher.Some? then CheckShadowsocks2022(h, s.cipher.value, a) else a
  }

  function UpdatedOne(h: Hash, s: Spec, clients: Clients, u: User): Clients {
    match Rebuilt(h, s, u)
    case Some(a) => clients[u.email := StoredAlone(h, s, a)]
    case None => Without(clients, {u.email})
  }

  function UpdatedFirst(h: Hash, s: Spec, clients: Clients, users: seq<User>, n: nat): Clients
    requires n <= |users|
  {
    if n == 0 then clients else UpdatedOne(h, s, UpdatedFirst(h, s, clients, users, n - 1), users[n - 1])
  }

  // ------------------------------------------------------------ what they mean

  /** The account an update leaves behind for an active user: its key has been normalised twice. */
  function Kept(h: Hash, s: Spec, u: User): Account
    requires Rebuilt(h, s, u).Some?
  {
    StoredThere(h, s, u);
    Stored(h, s, Rebuilt(h, s, u).value).value
  }

  /** The second time changes nothing. */
  predicate Stable(h: Hash, s: Spec, u: User)
    requires Rebuilt(h, s, u).Some?
  {
    Kept(h, s, u) == Rebuilt(h, s, u).value
  }

  /** An account is always of its inbound's own kind, and both kinds of update store it alike. */
  lemma StoredThere(h: Hash, s: Spec, u: User)
    requires Rebuilt(h, s, u).Some?
    ensures var a := Rebuilt(h, s, u).value;
            Stored(h, s, a).Some? && Stored(h, s, a).value == StoredAlone(h, s, a) && a.email == u.email
  {
    hide EnsureBase64Password;
  }

  /** An account is stable unless it is a shadowsocks-2022 one for a cipher that is not known and a hash that moves its key. */
  lemma StableWhen(h: Hash, s: Spec, u: User)
    requires Rebuilt(h, s, u).Some?
    ensures Stable(h, s, u)
       <==> || !s.Is2022() || KnownMethod(s.cipher.value)
            || h(Encode(h(u.shadowsocks.value))) == h(u.shadowsocks.value)
  {
    if s.Is2022() {
      EnsureIdempotent(h, u.shadowsocks.value, s.cipher.value);
    }
    hide EnsureBase64Password, Encode, KnownMethod;
  }

  /** The last of the first `n` entries that puts `email` on the inbound, or -1. */
  function LastActive(h: Hash, s: Spec, users: seq<User>, n: nat, email: string): (i: int)
    requires n <= |users|
    ensures -1 <= i < n
    ensures i >= 0 ==> users[i].email == email && Rebuilt(h, s, users[i]).Some?
    ensures forall j :: i < j < n ==> !(users[j].email == email && Rebuilt(h, s, users[j]).Some?)
  {
    if n == 0 then -1
    else if users[n - 1].email == email && Rebuilt(h, s, users[n - 1]).Some? then n - 1
    else LastActive(h, s, users, n - 1, email)
  }

  predicate SameAt(a: Clients, b: Clients, email: string) {
    (email in a <==> email in b) && (email in a ==> a[email] == b[email])
  }

  lemma SameEverywhere(a: Clients, b: Clients)
    ensures (forall email :: SameAt(a, b, email)) <==> a == b
  {
    if forall email :: SameAt(a, b, email) {
      forall e ensures (e in a <==> e in b) && (e in a ==> a[e] == b[e]) {
        assert SameAt(a, b, e);
      }
    }
  }

  lemma {:induction false} SyncedAt(h: Hash, s: Spec, base: Clients, users: seq<User>, n: nat, email: string)
    requires n <= |users|
    ensures var r, i := Synced(h, s, base, users, n), LastActive(h, s, users, n, email);
            if i < 0 then SameAt(r, base, email)
            else email in r && r[email] == Rebuilt(h, s, users[i]).value
  {
    hide Rebuilt;
    if n > 0 {
      SyncedAt(h, s, base, users, n - 1, email);
    }
  }

  lemma StoreOneMore(h: Hash, s: Spec, clients: Clients, accounts: seq<Account>, a: Account)
    ensures var more, before := accounts + [a], StoreFirst(h, s, clients, accounts, |accounts|);
            StoreFirst(h, s, clients, more, |more|)
            == match Stored(h, s, a) case Some(b) => before[a.email := b] case None => before
  {
    hide Stored;
    StorePrefix(h, s, clients, accounts, [a], |accounts|);
  }

  lemma {:induction false} StorePrefix(h: Hash, s: Spec, clients: Clients, a: seq<Account>, b: seq<Account>, n: nat)
    requires n <= |a|
    ensures StoreFirst(h, s, clients, a + b, n) == StoreFirst(h, s, clients, a, n)
  {
    hide Stored;
    if n > 0 {
      StorePrefix(h, s, clients, a, b, n - 1);
    }
  }

  /** What storing a batch's accounts leaves for one user. */
  lemma {:induction false} StoredAt(h: Hash, s: Spec, clients: Clients, users: seq<User>, n: nat, email: string)
    requires n <= |users|
    ensures var accounts, i := Accounts(h, s, users, n), LastActive(h, s, users, n, email);
            var r := StoreFirst(h, s, clients, accounts, |accounts|);
            if i < 0 then SameAt(r, clients, email) else email in r && r[email] == Kept(h, s, users[i])
  {
    hide Rebuilt, Stored, StoreFirst, StoredAlone;
    if n == 0 {
      StoreNothing(h, s, clients, Accounts(h, s, users, 0));
    } else {
      StoredAt(h, s, clients, users, n - 1, email);
      if Rebuilt(h, s, users[n - 1]).Some? {
        StoredThere(h, s, users[n - 1]);
        StoreOneMore(h, s, clients, Accounts(h, s, users, n - 1), Rebuilt(h, s, users[n - 1]).value);
      } else {
        assert Accounts(h, s, users, n) == Accounts(h, s, users, n - 1);
      }
    }
  }

  lemma StoreNothing(h: Hash, s: Spec, clients: Clients, none: seq<Account>)
    requires none == []
    ensures StoreFirst(h, s, clients, none, |none|) == clients
  {
  }

  lemma {:induction false} RemovalsAre(h: Hash, s: Spec, users: seq<User>, n: nat, email: string)
    requires n <= |users|
    ensures email in Removals(h, s, users, n) <==> exists i :: 0 <= i < n && users[i].email == email && Rebuilt(h, s, users[i]).None?
  {
    hide Rebuilt;
    if n > 0 {
      RemovalsAre(h, s, users, n - 1, email);
    }
  }

  /** A batch update, user by user: a removal wins over an account of the same batch. */
  lemma UpdatedAt(h: Hash, s: Spec, clients: Clients, users: seq<User>, email: string)
    ensures var r, i := Updated(h, s, clients, users), LastActive(h, s, users, |users|, email);
            if email in Removals(h, s, users, |users|) then email !in r
            else if i >= 0 then email in r && r[email] == Kept(h, s, users[i])
            else SameAt(r, clients, email)
  {
    hide Rebuilt, StoreFirst, Removals, Accounts, Kept;
    StoredAt(h, s, clients, users, |users|, email);
  }

  // ---------------------------------------------------------- override by email

  predicate Mentions(users: seq<User>, email: string) {
    exists i :: 0 <= i < |users| && users[i].email == email
  }

  /** The first `n` users of `v` that `u` does not mention. */
  function Unmentioned(v: seq<User>, u: seq<User>, n: nat): seq<User>
    requires n <= |v|
  {
    if n == 0 then []
    else if Mentions(u, v[n - 1].email) then Unmentioned(v, u, n - 1)
    else Unmentioned(v, u, n - 1) + [v[n - 1]]
  }

  /** `v` overridden by `u`. */
  function Override(v: seq<User>, u: seq<User>): seq<User> {
    Unmentioned(v, u, |v|) + u
  }

  lemma {:induction false} SyncedConcat(h: Hash, s: Spec, base: Clients, a: seq<User>, b: seq<User>, n: nat)
    requires n <= |b|
    ensures Synced(h, s, base, a + b, |a| + n) == Synced(h, s, Synced(h, s, base, a, |a|), b, n)
    decreases n
  {
    hide Rebuilt;
    if n == 0 {
      SyncedPrefix(h, s, base, a, b, |a|);
    } else {
      SyncedConcat(h, s, base, a, b, n - 1);
      assert (a + b)[|a| + n - 1] == b[n - 1];
    }
  }

  lemma {:induction false} SyncedPrefix(h: Hash, s: Spec, base: Clients, a: seq<User>, b: seq<User>, n: nat)
    requires n <= |a|
    ensures Synced(h, s, base, a + b, n) == Synced(h, s, base, a, n)
  {
    hide Rebuilt;
    if n > 0 {
      SyncedPrefix(h, s, base, a, b, n - 1);
    }
  }

  lemma {:induction false} SyncedUnmentioned(h: Hash, s: Spec, v: seq<User>, u: seq<User>, n: nat, email: string)
    requires n <= |v|
    ensures var rest := Unmentioned(v, u, n);
            if Mentions(u, email) then email !in Synced(h, s, NO_CLIENTS, rest, |rest|)
            else SameAt(Synced(h, s, NO_CLIENTS, rest, |rest|), Synced(h, s, NO_CLIENTS, v, n), email)
  {
    hide Rebuilt, Mentions;
    if n > 0 {
      SyncedUnmentioned(h, s, v, u, n - 1, email);
      var rest := Unmentioned(v, u, n - 1);
      SyncedPrefix(h, s, NO_CLIENTS, rest, [v[n - 1]], |rest|);
    }
  }

  lemma RebuiltOverride(h: Hash, s: Spec, v: seq<User>, u: seq<User>, email: string)
    ensures var r, i := Synced(h, s, NO_CLIENTS, Override(v, u), |Override(v, u)|), LastActive(h, s, u, |u|, email);
            if i >= 0 then email in r && r[email] == Rebuilt(h, s, u[i]).value
            else if Mentions(u, email) then email !in r
            else SameAt(r, Synced(h, s, NO_CLIENTS, v, |v|), email)
  {
    var rest := Unmentioned(v, u, |v|);
    SyncedConcat(h, s, NO_CLIENTS, rest, u, |u|);
    SyncedUnmentioned(h, s, v, u, |v|, email);
    SyncedAt(h, s, Synced(h, s, NO_CLIENTS, rest, |rest|), u, |u|, email);
    hide Rebuilt, Synced, Unmentioned;
  }

  // ------------------------------------------------------ on the panel's fields

  ghost predicate Holds(clients: Clients, account: Account) {
    account.email in clients && clients[account.email] == account
  }

  /** What an inbound has for a user: the account of its own protocol, from the panel's own field for it, or none. */
  ghost predicate Serves(h: Hash, s: Spec, u: User, clients: Clients) {
    if s.tag !in u.inbounds then u.email !in clients
    else match s.protocol
      case Vmess => if u.vmess.Id? then Holds(clients, VmessAccount(u.email, u.vmess.id)) else u.email !in clients
      case Vless => if u.vless.Id? then Holds(clients, VlessAccount(u.email, u.vless.id)) else u.email !in clients
      case Trojan => if u.trojan.Some? then Holds(clients, TrojanAccount(u.email, u.trojan.value)) else u.email !in clients
      case Hysteria => if u.hysteria.Some? then Holds(clients, HysteriaAccount(u.email, u.hysteria.value)) else u.email !in clients
      case Other => u.email !in clients
      case Shadowsocks =>
        if u.shadowsocks.None? then u.email !in clients
        else if s.cipher.Some? && |s.cipher.value| >= 11 && s.cipher.value[..11] == "2022-blake3" then
          Holds(clients, ShadowsocksAccount(u.email, EnsureBase64Password(h, u.shadowsocks.value, s.cipher.value)))
        else Holds(clients, ShadowsocksTcpAccount(u.email, u.shadowsocks.value))
  }

  lemma RebuiltServes(h: Hash, s: Spec, u: User, clients: Clients)
    requires match Rebuilt(h, s, u) case Some(a) => Holds(clients, a) case None => u.email !in clients
    ensures Serves(h, s, u, clients)
  {
    hide EnsureBase64Password;
    assert s.cipher.Some? ==>
        ("2022-blake3" <= s.cipher.value <==> |s.cipher.value| >= 11 && s.cipher.value[..11] == "2022-blake3");
  }

  /** A full sync of a list with one entry per user gives every inbound exactly their accounts, and nobody else's. */
  lemma SyncedServes(h: Hash, s: Spec, users: seq<User>, i: nat)
    requires DistinctEmails(users) && i < |users|
    ensures Serves(h, s, users[i], Synced(h, s, NO_CLIENTS, users, |users|))
    ensures forall e :: e in Synced(h, s, NO_CLIENTS, users, |users|) ==> exists j :: 0 <= j < |users| && users[j].email == e
  {
    var clients, u := Synced(h, s, NO_CLIENTS, users, |users|), users[i];
    ActiveIsRebuilt(h, s, u);
    hide Synced, Rebuilt, Serves;
    forall e ensures e in clients <==> LastActive(h, s, users, |users|, e) >= 0 {
      SyncedAt(h, s, NO_CLIENTS, users, |users|, e);
    }
    SyncedAt(h, s, NO_CLIENTS, users, |users|, u.email);
    RebuiltServes(h, s, u, clients);
  }

  /** And so do a batch and single updates, in any order, for a cipher that is known. */
  lemma UpdatedServes(h: Hash, s: Spec, clients: Clients, users: seq<User>, i: nat)
    requires DistinctEmails(users) && i < |users| && s.Known()
    ensures Serves(h, s, users[i], Updated(h, s, clients, users))
    ensures Serves(h, s, users[i], UpdatedFirst(h, s, clients, users, |users|))
  {
    var u := users[i];
    ActiveIsRebuilt(h, s, u);
    BatchEntryAt(h, s, clients, users, i);
    OneByOneIsBatch(h, s, clients, users, users);
    if Rebuilt(h, s, u).Some? {
      StableWhen(h, s, u);
    }
    hide Updated, UpdatedFirst, Rebuilt, Kept, Serves;
    RebuiltServes(h, s, u, Updated(h, s, clients, users));
  }

  // ----------------------------------------------------------------- theorems

  /** A batch that puts a user on an inbound in one entry and off it in another. */
  ghost predicate Undecided(h: Hash, s: Spec, u: seq<User>, email: string) {
    LastActive(h, s, u, |u|, email) >= 0 && email in Removals(h, s, u, |u|)
  }

  /** What keeps an update from agreeing with the rebuild on a user. */
  ghost predicate Disagrees(h: Hash, s: Spec, u: seq<User>, email: string) {
    var i := LastActive(h, s, u, |u|, email);
    i >= 0 && (email in Removals(h, s, u, |u|) || !Stable(h, s, u[i]))
  }

  lemma UpdateAgainstRebuild(h: Hash, s: Spec, v: seq<User>, u: seq<User>, email: string)
    ensures SameAt(Updated(h, s, Synced(h, s, NO_CLIENTS, v, |v|), u), Synced(h, s, NO_CLIENTS, Override(v, u), |Override(v, u)|), email)
       <==> !Disagrees(h, s, u, email)
  {
    hide Rebuilt, Synced, Override, Updated, Removals, Kept;
    UpdatedAt(h, s, Synced(h, s, NO_CLIENTS, v, |v|), u, email);
    RebuiltOverride(h, s, v, u, email);
    RemovalsAre(h, s, u, |u|, email);
    var i := LastActive(h, s, u, |u|, email);
    if i >= 0 {
      assert u[i].email == email;
    }
  }

  /**
   * The incremental path against the rebuild, for every inbound: a batch update of
   * what a full sync built is the full sync of the first list overridden by the
   * second, exactly when the batch is of one mind about every user and the account
   * it stores for each is stable.
   */
  lemma IncrementalEqualsRebuild(h: Hash, s: Spec, v: seq<User>, u: seq<User>)
    ensures Updated(h, s, Synced(h, s, NO_CLIENTS, v, |v|), u) == Synced(h, s, NO_CLIENTS, Override(v, u), |Override(v, u)|)
       <==> forall email :: !Disagrees(h, s, u, email)
  {
    hide Synced, Updated, Override, Disagrees, SameAt;
    var a, b := Updated(h, s, Synced(h, s, NO_CLIENTS, v, |v|), u), Synced(h, s, NO_CLIENTS, Override(v, u), |Override(v, u)|);
    forall email ensures SameAt(a, b, email) <==> !Disagrees(h, s, u, email) {
      UpdateAgainstRebuild(h, s, v, u, email);
    }
    SameEverywhere(a, b);
  }

  /** A batch that first gives alice the inbound and then takes it away, or the other way round, takes it away. */
  lemma AddedAndDropped(h: Hash, clients: Clients)
    ensures var s := Spec("in", Trojan, None, false);
            var on := User("alice", ["in"], NoId, NoId, Some("x"), None, None);
            var off := on.(inbounds := []);
            && Undecided(h, s, [off, on], "alice")
            && "alice" !in Updated(h, s, clients, [off, on])
  {
    var s := Spec("in", Trojan, None, false);
    var on := User("alice", ["in"], NoId, NoId, Some("x"), None, None);
    var off := on.(inbounds := []);
    var u := [off, on];
    assert s.tag in on.inbounds;
    assert Rebuilt(h, s, u[1]).Some? && Rebuilt(h, s, u[0]).None?;
    RemovalsAre(h, s, u, 2, "alice");
    UpdatedAt(h, s, clients, u, "alice");
  }

  ghost predicate DistinctEmails(users: seq<User>) {
    forall i, j :: 0 <= i < j < |users| ==> users[i].email != users[j].email
  }

  /** A batch with one entry per user is always of one mind. */
  lemma DistinctIsDecided(h: Hash, s: Spec, u: seq<User>, email: string)
    requires DistinctEmails(u)
    ensures !Undecided(h, s, u, email)
    ensures s.Known() ==> !Disagrees(h, s, u, email)
  {
    RemovalsAre(h, s, u, |u|, email);
    var i := LastActive(h, s, u, |u|, email);
    if i >= 0 && s.Known() {
      StableWhen(h, s, u[i]);
    }
    hide Rebuilt, Removals, Stable;
  }

  /** Single updates: the one entry about a user counts. */
  lemma {:induction false} UpdatedFirstAt(h: Hash, s: Spec, clients: Clients, u: seq<User>, n: nat, email: string)
    requires n <= |u| && DistinctEmails(u)
    ensures (forall i :: 0 <= i < n ==> u[i].email != email) ==> SameAt(UpdatedFirst(h, s, clients, u, n), clients, email)
    ensures forall i :: 0 <= i < n && u[i].email == email ==> EntryAt(h, s, UpdatedFirst(h, s, clients, u, n), u[i])
  {
    hide Rebuilt, StoredAlone, Kept;
    if n > 0 {
      UpdatedFirstAt(h, s, clients, u, n - 1, email);
      OneUpdated(h, s, UpdatedFirst(h, s, clients, u, n - 1), u[n - 1]);
      hide UpdatedOne;
    }
  }

  /** What an entry makes of its user. */
  ghost predicate EntryAt(h: Hash, s: Spec, r: Clients, u: User) {
    if Rebuilt(h, s, u).Some? then u.email in r && r[u.email] == Kept(h, s, u) else u.email !in r
  }

  lemma OneUpdated(h: Hash, s: Spec, clients: Clients, u: User)
    ensures EntryAt(h, s, UpdatedOne(h, s, clients, u), u)
    ensures forall email :: email != u.email ==> SameAt(UpdatedOne(h, s, clients, u), clients, email)
  {
    if Rebuilt(h, s, u).Some? {
      StoredThere(h, s, u);
    }
    hide Rebuilt, StoredAlone, Stored;
  }

  /** One by one in any order, or all at once: with one entry per user it makes no difference, for any inbound. */
  lemma {:induction false} OneByOneIsBatch(h: Hash, s: Spec, clients: Clients, u: seq<User>, order: seq<User>)
    requires DistinctEmails(u) && DistinctEmails(order) && forall x :: x in order <==> x in u
    ensures UpdatedFirst(h, s, clients, order, |order|) == Updated(h, s, clients, u)
  {
    hide UpdatedFirst, Updated, DistinctEmails, SameAt;
    var a, b := UpdatedFirst(h, s, clients, order, |order|), Updated(h, s, clients, u);
    forall email ensures SameAt(a, b, email) {
      OneByOneAt(h, s, clients, u, order, email);
    }
    SameEverywhere(a, b);
  }

  lemma OneByOneAt(h: Hash, s: Spec, clients: Clients, u: seq<User>, order: seq<User>, email: string)
    requires DistinctEmails(u) && DistinctEmails(order) && forall x :: x in order <==> x in u
    ensures SameAt(UpdatedFirst(h, s, clients, order, |order|), Updated(h, s, clients, u), email)
  {
    hide Rebuilt, UpdatedFirst, Updated, Removals, DistinctEmails, Kept;
    UpdatedFirstAt(h, s, clients, order, |order|, email);
    if i :| 0 <= i < |u| && u[i].email == email {
      assert u[i] in order;
      var j :| 0 <= j < |order| && order[j] == u[i];
      BatchEntryAt(h, s, clients, u, i);
    } else {
      forall j | 0 <= j < |order| ensures order[j].email != email {
        assert order[j] in u;
      }
      BatchElsewhere(h, s, clients, u, email);
    }
  }

  /** A batch with one entry per user, at one of its entries. */
  lemma BatchEntryAt(h: Hash, s: Spec, clients: Clients, u: seq<User>, i: nat)
    requires DistinctEmails(u) && i < |u|
    ensures EntryAt(h, s, Updated(h, s, clients, u), u[i])
  {
    hide Rebuilt, Updated, Removals, Kept;
    UpdatedAt(h, s, clients, u, u[i].email);
    RemovalsAre(h, s, u, |u|, u[i].email);
  }

  lemma BatchElsewhere(h: Hash, s: Spec, clients: Clients, u: seq<User>, email: string)
    requires forall i :: 0 <= i < |u| ==> u[i].email != email
    ensures SameAt(Updated(h, s, clients, u), clients, email)
  {
    hide Rebuilt, Updated, Removals, Kept;
    UpdatedAt(h, s, clients, u, email);
    RemovalsAre(h, s, u, |u|, email);
  }
}

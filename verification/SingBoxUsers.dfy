/**
 * Who is on a sing-box core (backend/singbox/singbox.go): the user table kept
 * by `SyncUser`, `mergeUsers` and `replaceUsers`.
 */
module SingBoxUsers {

  // --------------------------------------------------------------------- data

  datatype Kind = Hysteria2 | VLESS | VMess | Trojan | Shadowsocks

  datatype Inbound = Inbound(tag: string, kind: Kind)

  /** A user as the panel describes them: which inbounds they may use, and the secrets as typed. */
  datatype User = User(email: string, inbounds: seq<string>, secrets: Credentials)

  datatype Credentials = Credentials(hysteria2: string, vlessUUID: string, vmessUUID: string, trojanPass: string, shadowsocks: string) {
    function Secret(kind: Kind): string {
      match kind
      case Hysteria2 => hysteria2
      case VLESS => vlessUUID
      case VMess => vmessUUID
      case Trojan => trojanPass
      case Shadowsocks => shadowsocks
    }

    predicate Empty() {
      hysteria2 == "" && vlessUUID == "" && vmessUUID == "" && trojanPass == "" && shadowsocks == ""
    }

    function Trimmed(): Credentials {
      Credentials(Trim(hysteria2), Trim(vlessUUID), Trim(vmessUUID), Trim(trojanPass), Trim(shadowsocks))
    }
  }

  type Table = map<string, Credentials>

  // ----------------------------------------------------------------- trimming

  /** White space as Unicode defines it. */
  predicate IsSpace(c: char) {
    var n := c as int;
    || 9 <= n <= 13 || n == 0x20 || n == 0x85 || n == 0xA0 || n == 0x1680
    || 0x2000 <= n <= 0x200A || n == 0x2028 || n == 0x2029 || n == 0x202F || n == 0x205F || n == 0x3000
  }

  function TrimLeft(s: string): string {
    if s != "" && IsSpace(s[0]) then TrimLeft(s[1..]) else s
  }

  function TrimRight(s: string): string {
    if s != "" && IsSpace(s[|s| - 1]) then TrimRight(s[..|s| - 1]) else s
  }

  function Trim(s: string): string {
    TrimRight(TrimLeft(s))
  }

  lemma {:induction false} TrimRightPrefix(s: string)
    ensures TrimRight(s) <= s
    ensures TrimRight(s) != "" ==> !IsSpace(TrimRight(s)[|TrimRight(s)| - 1])
  {
    if s != "" && IsSpace(s[|s| - 1]) {
      TrimRightPrefix(s[..|s| - 1]);
    }
  }

  lemma {:induction false} TrimLeftStart(s: string)
    ensures TrimLeft(s) != "" ==> !IsSpace(TrimLeft(s)[0])
  {
    if s != "" && IsSpace(s[0]) {
      TrimLeftStart(s[1..]);
    }
  }

  lemma TrimIdempotent(s: string)
    ensures Trim(Trim(s)) == Trim(s)
  {
    TrimLeftStart(s);
    TrimRightPrefix(TrimLeft(s));
  }

  // ------------------------------------------------------------ specification

  predicate ServesAnyOf(served: seq<Inbound>, tags: seq<string>) {
    exists i, j :: 0 <= i < |tags| && 0 <= j < |served| && tags[i] == served[j].tag
  }

  /** Whether a user belongs on this core: they have a name, an inbound it serves, and a secret. */
  predicate Usable(served: seq<Inbound>, u: User) {
    Trim(u.email) != "" && ServesAnyOf(served, u.inbounds) && !u.secrets.Trimmed().Empty()
  }

  function Without(table: Table, email: string): Table {
    map e | e in table && e != email :: table[e]
  }

  /** The table after a change to one user who is in it under `key`. */
  function Apply(served: seq<Inbound>, table: Table, u: User, key: string): Table {
    if Usable(served, u) then table[Trim(u.email) := u.secrets.Trimmed()] else Without(table, key)
  }

  /** A removal goes by the name as it was typed. */
  function Synced(served: seq<Inbound>, table: Table, u: User): Table {
    Apply(served, table, u, u.email)
  }

  /** A removal goes by the trimmed name. */
  function Merged(served: seq<Inbound>, table: Table, users: seq<User>, n: nat): Table
    requires n <= |users|
  {
    if n == 0 then table
    else Apply(served, Merged(served, table, users, n - 1), users[n - 1], Trim(users[n - 1].email))
  }

  /** Only usable users matter to a full set. */
  function Replaced(served: seq<Inbound>, users: seq<User>, n: nat): Table
    requires n <= |users|
  {
    if n == 0 then map[]
    else if Usable(served, users[n - 1]) then
      Replaced(served, users, n - 1)[Trim(users[n - 1].email) := users[n - 1].secrets.Trimmed()]
    else Replaced(served, users, n - 1)
  }

  /** What every table holds: trimmed, non-empty names with at least one secret. */
  ghost predicate Proper(table: Table) {
    forall e :: e in table ==> e != "" && Trim(e) == e && !table[e].Empty()
  }

  lemma ApplyProper(served: seq<Inbound>, table: Table, u: User, key: string)
    requires Proper(table)
    ensures Proper(Apply(served, table, u, key))
  {
    TrimIdempotent(u.email);
  }

  lemma {:induction false} MergedProper(served: seq<Inbound>, table: Table, users: seq<User>, n: nat)
    requires n <= |users| && Proper(table)
    ensures Proper(Merged(served, table, users, n))
  {
    if n > 0 {
      MergedProper(served, table, users, n - 1);
      ApplyProper(served, Merged(served, table, users, n - 1), users[n - 1], Trim(users[n - 1].email));
    }
  }

  lemma {:induction false} ReplacedProper(served: seq<Inbound>, users: seq<User>, n: nat)
    requires n <= |users|
    ensures Proper(Replaced(served, users, n))
  {
    if n > 0 {
      ReplacedProper(served, users, n - 1);
      TrimIdempotent(users[n - 1].email);
    }
  }

  // ------------------------------------------- what the last word on a user is

  predicate About(u: User, email: string) {
    Trim(u.email) == email
  }

  /** The position of the last of the first `n` entries that is about `email`, or -1. */
  function LastAbout(users: seq<User>, n: nat, email: string): (i: int)
    requires n <= |users|
    ensures -1 <= i < n
    ensures i >= 0 ==> About(users[i], email)
    ensures forall j :: i < j < n ==> !About(users[j], email)
  {
    if n == 0 then -1 else if About(users[n - 1], email) then n - 1 else LastAbout(users, n - 1, email)
  }

  /** The position of the last usable one. */
  function LastUsable(served: seq<Inbound>, users: seq<User>, n: nat, email: string): (i: int)
    requires n <= |users|
    ensures -1 <= i < n
    ensures i >= 0 ==> About(users[i], email) && Usable(served, users[i])
    ensures forall j :: i < j < n ==> !(About(users[j], email) && Usable(served, users[j]))
  {
    if n == 0 then -1
    else if About(users[n - 1], email) && Usable(served, users[n - 1]) then n - 1
    else LastUsable(served, users, n - 1, email)
  }

  /** A partial update: the last word on a user counts, and a user it does not name stays as they were. */
  lemma {:induction false} MergedLastWord(served: seq<Inbound>, table: Table, users: seq<User>, n: nat, email: string)
    requires n <= |users|
    ensures var t, i := Merged(served, table, users, n), LastAbout(users, n, email);
            if i < 0 then (email in t <==> email in table) && (email in t ==> t[email] == table[email])
            else (email in t <==> Usable(served, users[i])) && (email in t ==> t[email] == users[i].secrets.Trimmed())
  {
    hide Usable, Trim;
    if n > 0 {
      MergedLastWord(served, table, users, n - 1, email);
    }
  }

  /** A full set: the last usable entry counts, and a user without one is gone. */
  lemma {:induction false} ReplacedLastUsable(served: seq<Inbound>, users: seq<User>, n: nat, email: string)
    requires n <= |users|
    ensures var t, i := Replaced(served, users, n), LastUsable(served, users, n, email);
            (email in t <==> i >= 0) && (email in t ==> t[email] == users[i].secrets.Trimmed())
  {
    if n > 0 {
      ReplacedLastUsable(served, users, n - 1, email);
    }
  }

  /** Whether a user's last word withdraws what an earlier entry of the same list gave. */
  ghost predicate Withdrawn(served: seq<Inbound>, users: seq<User>, email: string) {
    && LastUsable(served, users, |users|, email) >= 0
    && !Usable(served, users[LastAbout(users, |users|, email)])
  }

  lemma ReplaceAgainstMerge(served: seq<Inbound>, users: seq<User>, email: string)
    ensures var r, m := Replaced(served, users, |users|), Merged(served, map[], users, |users|);
            && (email in m <==> email in r && !Withdrawn(served, users, email))
            && (Withdrawn(served, users, email) ==> email in r)
            && (email in m ==> m[email] == r[email])
  {
    ReplacedLastUsable(served, users, |users|, email);
    MergedLastWord(served, map[], users, |users|, email);
    hide Replaced, Merged, Usable;
  }

  /**
   * A full set gives the table a partial update builds from nothing, exactly
   * when nobody's last word withdraws them.
   */
  lemma ReplaceIsMergeFromNothing(served: seq<Inbound>, users: seq<User>)
    ensures Replaced(served, users, |users|) == Merged(served, map[], users, |users|)
       <==> (forall email :: !Withdrawn(served, users, email))
  {
    var r, m := Replaced(served, users, |users|), Merged(served, map[], users, |users|);
    forall email
      ensures email in m <==> email in r && !Withdrawn(served, users, email)
      ensures Withdrawn(served, users, email) ==> email in r
      ensures email in m ==> m[email] == r[email]
    {
      ReplaceAgainstMerge(served, users, email);
    }
    hide Replaced, Merged, Withdrawn;
  }

  /** A full set that lists alice and then withdraws her keeps her; a batch does not. */
  lemma WithdrawnInFullSet()
    ensures var creds := Credentials("s", "", "", "", "");
            var served := [Inbound("hy2", Hysteria2)];
            var users := [User("alice", ["hy2"], creds), User("alice", [], creds)];
            "alice" in Replaced(served, users, 2) && "alice" !in Merged(served, map[], users, 2)
  {
    var creds := Credentials("s", "", "", "", "");
    var served := [Inbound("hy2", Hysteria2)];
    var users := [User("alice", ["hy2"], creds), User("alice", [], creds)];
    assert Trim("alice") == "alice" && Trim("s") == "s";
    assert users[0].inbounds[0] == served[0].tag;
    assert Usable(served, users[0]) && !Usable(served, users[1]);
    assert Replaced(served, users, 0) == map[];
    assert "alice" in Replaced(served, users, 1);
    assert "alice" !in Without(Merged(served, map[], users, 1), "alice");
  }

  /**
   * One change at a time agrees with a batch of one exactly when the user is
   * usable, or their name came in trimmed, or they were not there to begin
   * with: a removal that carries stray white space is lost.
   */
  lemma SyncAgreesWithMerge(served: seq<Inbound>, table: Table, u: User)
    requires Proper(table)
    ensures Synced(served, table, u) == Merged(served, table, [u], 1)
       <==> Usable(served, u) || Trim(u.email) == u.email || Trim(u.email) !in table
  {
    assert Merged(served, table, [u], 1) == Apply(served, table, u, Trim(u.email)) by {
      assert Merged(served, table, [u], 0) == table;
    }
    if !Usable(served, u) && Trim(u.email) != u.email && Trim(u.email) in table {
      assert Trim(u.email) in Synced(served, table, u);
      assert Trim(u.email) !in Without(table, Trim(u.email));
    }
  }

  /** Such a removal: "alice " stays on a core she may no longer use. */
  lemma PaddedRemovalIsLost()
    ensures var creds := Credentials("s", "", "", "", "");
            var served, table := [Inbound("hy2", Hysteria2)], map["alice" := creds];
            var gone := User("alice ", [], creds);
            Proper(table) && Synced(served, table, gone) == table && Merged(served, table, [gone], 1) == map[]
  {
    var creds := Credentials("s", "", "", "", "");
    var served, table := [Inbound("hy2", Hysteria2)], map["alice" := creds];
    var gone := User("alice ", [], creds);
    assert "alice "[..5] == "alice";
    assert Trim("alice ") == "alice";
    assert !Usable(served, gone);
    assert Merged(served, table, [gone], 0) == table;
  }
}

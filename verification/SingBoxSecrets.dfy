/**
 * What the panel types and what a sing-box core gets to see
 * (backend/singbox/singbox.go): names, secrets and positions, field by field.
 */
module SingBoxSecrets {
  import opened SingBoxUsers
  import opened SingBoxSlots

  // ----------------------------------------------------------------- trimming

  /** The white space of Unicode, code point by code point. */
  lemma SpacesAre(c: char)
    ensures IsSpace(c) <==>
      c as int in {0x09, 0x0A, 0x0B, 0x0C, 0x0D, 0x20, 0x85, 0xA0, 0x1680, 0x2000, 0x2001, 0x2002, 0x2003, 0x2004, 0x2005,
                   0x2006, 0x2007, 0x2008, 0x2009, 0x200A, 0x2028, 0x2029, 0x202F, 0x205F, 0x3000}
  {
  }

  ghost predicate Blank(s: string) {
    forall i :: 0 <= i < |s| ==> IsSpace(s[i])
  }

  lemma {:induction false} TrimLeftIs(s: string) returns (before: string)
    ensures s == before + TrimLeft(s) && Blank(before)
  {
    if s != "" && IsSpace(s[0]) {
      var rest := TrimLeftIs(s[1..]);
      before := [s[0]] + rest;
    } else {
      before := "";
    }
  }

  lemma {:induction false} TrimRightIs(s: string) returns (behind: string)
    ensures s == TrimRight(s) + behind && Blank(behind)
  {
    if s != "" && IsSpace(s[|s| - 1]) {
      var rest := TrimRightIs(s[..|s| - 1]);
      behind := rest + [s[|s| - 1]];
    } else {
      behind := "";
    }
  }

  /** Trimming takes the white space off both ends, all of it and nothing else. */
  lemma TrimIs(s: string)
    ensures exists before, behind :: s == before + Trim(s) + behind && Blank(before) && Blank(behind)
    ensures Trim(s) != "" ==> !IsSpace(Trim(s)[0]) && !IsSpace(Trim(s)[|Trim(s)| - 1])
  {
    var before := TrimLeftIs(s);
    var behind := TrimRightIs(TrimLeft(s));
    assert s == before + Trim(s) + behind;
    TrimLeftStart(s);
    TrimRightPrefix(TrimLeft(s));
  }

  // -------------------------------------------------------- who is on the core

  /** A user the core is told about, in the panel's own terms: a name, an inbound of the core, and a secret. */
  ghost predicate Wanted(served: seq<Inbound>, u: User) {
    && Trim(u.email) != ""
    && (exists i, j :: 0 <= i < |u.inbounds| && 0 <= j < |served| && u.inbounds[i] == served[j].tag)
    && (|| Trim(u.secrets.hysteria2) != "" || Trim(u.secrets.vlessUUID) != "" || Trim(u.secrets.vmessUUID) != ""
        || Trim(u.secrets.trojanPass) != "" || Trim(u.secrets.shadowsocks) != "")
  }

  lemma WantedIsUsable(served: seq<Inbound>, u: User)
    ensures Usable(served, u) <==> Wanted(served, u)
  {
    hide Trim;
    if Wanted(served, u) {
      var i, j :| 0 <= i < |u.inbounds| && 0 <= j < |served| && u.inbounds[i] == served[j].tag;
    }
  }

  /** A batch of one, a single change under a trimmed name, and a full set of one put a user on the core exactly if they are wanted. */
  lemma OnCoreWhen(served: seq<Inbound>, table: Table, u: User)
    requires Proper(table)
    ensures Trim(u.email) in Merged(served, table, [u], 1) <==> Wanted(served, u)
    ensures u.email == Trim(u.email) ==> (u.email in Synced(served, table, u) <==> Wanted(served, u))
    ensures Trim(u.email) in Replaced(served, [u], 1) <==> Wanted(served, u)
  {
    WantedIsUsable(served, u);
    hide Trim, Usable, Wanted;
    assert Merged(served, table, [u], 0) == table;
    assert Replaced(served, [u], 0) == map[];
  }

  // ---------------------------------------------------------- what is sent out

  /** How a user is shown to an inbound of a kind: id or password, or a placeholder for want of a secret. */
  ghost predicate Shows(u: User, kind: Kind, entry: ClashUser, spare: string) {
    var name, secrets := Trim(u.email), u.secrets;
    match kind
    case VLESS =>
      if Trim(secrets.vlessUUID) == "" then entry == ClashUser("-", "", spare) else entry == ClashUser(name, "", Trim(secrets.vlessUUID))
    case VMess =>
      if Trim(secrets.vmessUUID) == "" then entry == ClashUser("-", "", spare) else entry == ClashUser(name, "", Trim(secrets.vmessUUID))
    case Hysteria2 =>
      if Trim(secrets.hysteria2) == "" then entry == ClashUser("-", spare, "") else entry == ClashUser(name, Trim(secrets.hysteria2), "")
    case Trojan =>
      if Trim(secrets.trojanPass) == "" then entry == ClashUser("-", spare, "") else entry == ClashUser(name, Trim(secrets.trojanPass), "")
    case Shadowsocks =>
      if Trim(secrets.shadowsocks) == "" then entry == ClashUser("-", spare, "") else entry == ClashUser(name, Trim(secrets.shadowsocks), "")
  }

  /** A change about one user. */
  ghost predicate Changes(e: Event, u: User) {
    e == Sync(u) || e == Merge([u]) || e == Replace([u])
  }

  lemma TableTells(node: Node, w: World, e: Event, u: User)
    requires Changes(e, u) && Wanted(node.inbounds, u)
    ensures var users := Next(node, w, e).users;
            Trim(u.email) in users && users[Trim(u.email)] == u.secrets.Trimmed()
  {
    WantedIsUsable(node.inbounds, u);
    hide Trim, Usable, Wanted;
    assert Merged(node.inbounds, w.users, [u], 0) == w.users;
    assert Replaced(node.inbounds, [u], 0) == map[];
  }

  lemma EntryShows(table: Table, u: User, kind: Kind, i: nat, spare: (Kind, nat) -> string)
    requires Trim(u.email) != "" && Trim(u.email) in table && table[Trim(u.email)] == u.secrets.Trimmed()
    ensures Shows(u, kind, Entry(table, Trim(u.email), kind, i, spare), spare(kind, i))
  {
    hide Trim;
  }

  lemma Positioned(node: Node, w: World, order: seq<string>, email: string)
    requires Sound(w) && email in w.users && Enumerates(order, Newcomers(w.users, w.slots))
    ensures var w' := Next(node, w, Push(order));
            w'.users == w.users && Distinct(w'.slots) && email in Placed(w'.slots)
  {
    assert Distinct(w.slots) && "" !in w.users;
    hide LaidOut, Placed, Distinct, Enumerates, Newcomers, Rendered, Sound, Next;
    PushEffect(node, w, order);
    PushedShape(w.users, w.slots, order);
  }

  lemma PushEffect(node: Node, w: World, order: seq<string>)
    requires Enumerates(order, Newcomers(w.users, w.slots))
    ensures var w' := Next(node, w, Push(order));
            w'.users == w.users && w'.slots == LaidOut(w.users, w.slots, order)
  {
    hide LaidOut, Enumerates, Newcomers, Rendered;
  }

  /**
   * At any point of any run, a change that introduces a user and the push after it
   * give them one position, and every inbound's list shows them there with the
   * secret of its kind: ids as `uuid`, everything else as `password`.
   */
  lemma SecretsAreSent(node: Node, events: seq<Event>, n: nat, e: Event, u: User, order: seq<string>)
    requires n <= |events| && Changes(e, u) && Wanted(node.inbounds, u)
    requires var w1 := Next(node, After(node, events, n), e); Enumerates(order, Newcomers(w1.users, w1.slots))
    ensures var w2 := Next(node, Next(node, After(node, events, n), e), Push(order));
            && (exists i :: 0 <= i < |w2.slots| && w2.slots[i] == Trim(u.email))
            && (forall i, j :: 0 <= i < j < |w2.slots| && w2.slots[i] == Trim(u.email) ==> w2.slots[j] != Trim(u.email))
            && (forall i, kind :: 0 <= i < |w2.slots| && w2.slots[i] == Trim(u.email) ==>
                  Shows(u, kind, Rendered(w2.users, w2.slots, kind, node.spare)[i], node.spare(kind, i)))
  {
    var w := After(node, events, n);
    SoundAfter(node, events, n);
    hide After, Trim, Shows, Sound, Enumerates, Newcomers, Next, Changes;
    var w1 := Next(node, w, e);
    var w2 := Next(node, w1, Push(order));
    NextKeepsSound(node, w, e);
    TableTells(node, w, e, u);
    Positioned(node, w1, order, Trim(u.email));
    forall i, kind | 0 <= i < |w2.slots| && w2.slots[i] == Trim(u.email)
      ensures Shows(u, kind, Rendered(w2.users, w2.slots, kind, node.spare)[i], node.spare(kind, i))
    {
      EntryShows(w2.users, u, kind, i, node.spare);
    }
  }

  // --------------------------------------------------------- who a session is

  /**
   * In every run, a session on an inbound that holds the list of the present table
   * is billed to the user who opened it if and only if they have kept their
   * position and have a secret of that kind.
   */
  lemma SessionIsBilled(node: Node, events: seq<Event>, n: nat, id: nat, kind: Kind)
    requires n <= |events| && id in After(node, events, n).sessions
    requires var w := After(node, events, n);
             var tag := w.sessions[id].tag;
             tag in w.lists && w.lists[tag] == Rendered(w.users, w.slots, kind, node.spare)
    requires After(node, events, n).sessions[id].who != FREE_SLOT_NAME
    ensures var w := After(node, events, n);
            var s := w.sessions[id];
            && s.index < |w.slots|
            && (Resolved(w, s) == s.who <==> w.slots[s.index] == s.who && s.who in w.users && w.users[s.who].Secret(kind) != "")
  {
    SoundAfter(node, events, n);
    var w := After(node, events, n);
    hide After;
    var s := w.sessions[id];
    assert Known(w.first, s) && Held(w.first, w.slots);
    SessionEntry(w, s, kind, node.spare);
  }

  lemma SessionEntry(w: World, s: Session, kind: Kind, spare: (Kind, nat) -> string)
    requires Proper(w.users) && Known(w.first, s) && Held(w.first, w.slots)
    requires s.tag in w.lists && w.lists[s.tag] == Rendered(w.users, w.slots, kind, spare) && s.who != FREE_SLOT_NAME
    ensures s.index < |w.slots|
    ensures Resolved(w, s) == s.who <==> w.slots[s.index] == s.who && s.who in w.users && w.users[s.who].Secret(kind) != ""
  {
  }
}

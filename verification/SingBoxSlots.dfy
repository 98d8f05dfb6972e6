/**
 * The sing-box slot table (backend/singbox/singbox.go) and the consumer of the
 * lists rendered from it (singbox/0001-runtime-users.patch).
 *
 * A session is billed through a number: the place its user had in the list when
 * it authenticated. Lists are replaced while sessions go on, so what is billed
 * depends on who stands at that place later.
 */
module SingBoxSlots {
  import opened SingBoxUsers

  const FREE_SLOT_NAME := "-"

  datatype ClashUser = ClashUser(name: string, password: string, uuid: string)

  // ------------------------------------------------------------ specification

  /** Everyone who has a position. */
  function Placed(slots: seq<string>): set<string> {
    set i | 0 <= i < |slots| && slots[i] != "" :: slots[i]
  }

  /** A user is in at most one position. */
  ghost predicate Distinct(slots: seq<string>) {
    forall i, j :: 0 <= i < j < |slots| && slots[i] != "" ==> slots[i] != slots[j]
  }

  /** Who needs a position: the order of a list of them is left open. */
  function Newcomers(users: Table, slots: seq<string>): set<string> {
    users.Keys - Placed(slots)
  }

  ghost predicate Enumerates(order: seq<string>, who: set<string>) {
    && Distinct(order) && "" !in order
    && (forall e :: e in order <==> e in who)
  }

  /** Those who left give up their position, and nobody moves. */
  function Vacated(users: Table, slots: seq<string>): (r: seq<string>)
    ensures |r| == |slots|
    ensures forall i :: 0 <= i < |slots| ==> r[i] == if slots[i] in users then slots[i] else ""
  {
    seq(|slots|, i requires 0 <= i < |slots| => if slots[i] in users then slots[i] else "")
  }

  function NewClashUser(name: string, kind: Kind, secret: string): ClashUser {
    if kind.VLESS? || kind.VMess? then ClashUser(name, "", secret) else ClashUser(name, secret, "")
  }

  /** What one position looks like to an inbound of this kind; `spare` makes up unusable secrets. */
  function Entry(users: Table, email: string, kind: Kind, index: nat, spare: (Kind, nat) -> string): ClashUser {
    if email in users && email != "" && users[email].Secret(kind) != "" then
      NewClashUser(email, kind, users[email].Secret(kind))
    else
      NewClashUser(FREE_SLOT_NAME, kind, spare(kind, index))
  }

  function Rendered(users: Table, slots: seq<string>, kind: Kind, spare: (Kind, nat) -> string): (r: seq<ClashUser>)
    ensures |r| == |slots|
    ensures forall i :: 0 <= i < |slots| ==> r[i] == Entry(users, slots[i], kind, i, spare)
  {
    seq(|slots|, i requires 0 <= i < |slots| => Entry(users, slots[i], kind, i, spare))
  }

  /** How the patched core resolves an index. */
  function UserName(list: seq<ClashUser>, index: int): string {
    if index < 0 || index >= |list| then "" else list[index].name
  }

  // ---------------------------------------------------------- implementation

  class SingBox {
    const inbounds: seq<Inbound>
    const freeSlotSecret: (Kind, nat) -> string
    var users: Table
    var slots: seq<string>

    constructor (inbounds: seq<Inbound>, freeSlotSecret: (Kind, nat) -> string)
      ensures Valid() && users == map[] && slots == []
      ensures this.inbounds == inbounds && this.freeSlotSecret == freeSlotSecret
    {
      this.inbounds, this.freeSlotSecret := inbounds, freeSlotSecret;
      users, slots := map[], [];
    }

    ghost predicate Valid()
      reads this
    {
      Proper(users) && Distinct(slots)
    }

    method SyncUser(user: User)
      requires Valid()
      modifies this`users
      ensures Valid() && users == Synced(inbounds, old(users), user)
    {
      ApplyProper(inbounds, users, user, user.email);
      hide Proper;
      if Usable(inbounds, user) {
        users := users[Trim(user.email) := user.secrets.Trimmed()];
      } else {
        users := users - {user.email};
        assert users == Without(old(users), user.email);
      }
    }

    method MergeUsers(list: seq<User>)
      requires Valid()
      modifies this`users
      ensures Valid() && users == Merged(inbounds, old(users), list, |list|)
    {
      for i := 0 to |list|
        invariant users == Merged(inbounds, old(users), list, i)
      {
        var u := list[i];
        if Usable(inbounds, u) {
          users := users[Trim(u.email) := u.secrets.Trimmed()];
        } else {
          ghost var before := users;
          users := users - {Trim(u.email)};
          assert users == Without(before, Trim(u.email));
        }
      }
      MergedProper(inbounds, old(users), list, |list|);
    }

    method ReplaceUsers(list: seq<User>)
      requires Valid()
      modifies this`users
      ensures Valid() && users == Replaced(inbounds, list, |list|)
    {
      var next: Table := map[];
      for i := 0 to |list|
        invariant next == Replaced(inbounds, list, i)
      {
        if Usable(inbounds, list[i]) {
          next := next[Trim(list[i].email) := list[i].secrets.Trimmed()];
        }
      }
      ReplacedProper(inbounds, list, |list|);
      users := next;
    }

    /** Lays the users out over stable positions. */
    method ReconcileSlots() returns (ghost order: seq<string>)
      requires Valid()
      modifies this`slots
      ensures Valid() && Enumerates(order, Newcomers(users, old(slots)))
      ensures slots == LaidOut(users, old(slots), order)
    {
      var placed := VacateSlots();
      assert "" !in users;
      hide Proper, Distinct, Enumerates, Vacated, Placed;
      order := AppendNewcomers(placed);
      LaidOutDistinct(users, old(slots), order);
    }

    method VacateSlots() returns (placed: set<string>)
      modifies this`slots
      ensures slots == Vacated(users, old(slots)) && placed == Placed(old(slots)) * users.Keys
    {
      placed := {};
      for i := 0 to |slots|
        invariant |slots| == |old(slots)|
        invariant forall j :: i <= j < |slots| ==> slots[j] == old(slots)[j]
        invariant forall j :: 0 <= j < i ==> slots[j] == if old(slots)[j] in users then old(slots)[j] else ""
        invariant placed == (set j | 0 <= j < i && old(slots)[j] != "" && old(slots)[j] in users :: old(slots)[j])
      {
        if slots[i] != "" {
          if slots[i] in users {
            placed := placed + {slots[i]};
          } else {
            slots := slots[i := ""];
          }
        }
      }
    }

    /** New users extend the list, in whatever order the map is ranged over. */
    method AppendNewcomers(placed: set<string>) returns (ghost order: seq<string>)
      requires placed <= users.Keys && "" !in users
      modifies this`slots
      ensures slots == old(slots) + order && Enumerates(order, users.Keys - placed)
    {
      order := [];
      var todo := users.Keys;
      assert Enumerates(order, users.Keys - placed - todo);
      hide Enumerates;
      while todo != {}
        invariant todo <= users.Keys
        invariant Enumerates(order, users.Keys - placed - todo)
        invariant slots == old(slots) + order
      {
        var email :| email in todo;
        ghost var done := users.Keys - placed - todo;
        if email !in placed {
          EnumeratesOneMore(order, done, email);
          assert users.Keys - placed - (todo - {email}) == done + {email};
          slots := slots + [email];
          order := order + [email];
        } else {
          assert users.Keys - placed - (todo - {email}) == done;
        }
        todo := todo - {email};
      }
      assert users.Keys - placed - {} == users.Keys - placed;
    }

    method PayloadFor(kind: Kind) returns (payload: seq<ClashUser>)
      requires Valid()
      ensures payload == Rendered(users, slots, kind, freeSlotSecret)
    {
      payload := [];
      for index := 0 to |slots|
        invariant |payload| == index
        invariant forall i :: 0 <= i < index ==> payload[i] == Entry(users, slots[i], kind, i, freeSlotSecret)
      {
        var email, secret := slots[index], "";
        if email != "" && email in users {
          secret := users[email].Secret(kind);
        }
        if secret == "" {
          payload := payload + [NewClashUser(FREE_SLOT_NAME, kind, freeSlotSecret(kind, index))];
        } else {
          payload := payload + [NewClashUser(email, kind, secret)];
        }
      }
    }

    /** The part of a push done under the lock; the renderings are then sent out one by one. */
    method PushUsers() returns (payloads: map<Kind, seq<ClashUser>>, ghost order: seq<string>)
      requires Valid()
      modifies this`slots
      ensures Valid() && Enumerates(order, Newcomers(users, old(slots)))
      ensures slots == LaidOut(users, old(slots), order)
      ensures payloads.Keys == set i | 0 <= i < |inbounds| :: inbounds[i].kind
      ensures forall kind :: kind in payloads ==> payloads[kind] == Rendered(users, slots, kind, freeSlotSecret)
    {
      order := ReconcileSlots();
      payloads := map[];
      hide Proper, Distinct, Enumerates, LaidOut, Placed, Rendered;
      for i := 0 to |inbounds|
        invariant Valid() && slots == LaidOut(users, old(slots), order)
        invariant payloads.Keys == set j | 0 <= j < i :: inbounds[j].kind
        invariant forall kind :: kind in payloads ==> payloads[kind] == Rendered(users, slots, kind, freeSlotSecret)
      {
        var kind := inbounds[i].kind;
        if kind !in payloads {
          var payload := PayloadFor(kind);
          payloads := payloads[kind := payload];
        }
      }
    }

    /** What a successful start does to the table: the new process has no sessions. */
    method ResetSlots()
      requires Valid()
      modifies this`slots
      ensures Valid() && slots == []
    {
      slots := [];
    }
  }

  /** The patched hysteria2 inbound of the core: names and passwords are swapped as one. */
  class CoreInbound {
    var userNameList: seq<string>
    var passwords: seq<string>

    constructor ()
      ensures Holds([])
    {
      userNameList, passwords := [], [];
    }

    ghost predicate Holds(list: seq<ClashUser>)
      reads this
    {
      && |userNameList| == |passwords| == |list|
      && (forall i :: 0 <= i < |list| ==> userNameList[i] == list[i].name && passwords[i] == list[i].password)
    }

    method UpdateUsers(list: seq<ClashUser>)
      modifies this
      ensures Holds(list)
    {
      var names: seq<string>, secrets: seq<string> := [], [];
      for index := 0 to |list|
        invariant |names| == |secrets| == index
        invariant forall i :: 0 <= i < index ==> names[i] == list[i].name && secrets[i] == list[i].password
      {
        names, secrets := names + [list[index].name], secrets + [list[index].password];
      }
      userNameList, passwords := names, secrets;
    }

    method ResolveName(userID: int, ghost list: seq<ClashUser>) returns (name: string)
      requires Holds(list)
      ensures name == UserName(list, userID)
    {
      if userID < 0 || userID >= |userNameList| {
        return "";
      }
      return userNameList[userID];
    }
  }

  lemma EnumeratesOneMore(order: seq<string>, who: set<string>, email: string)
    requires Enumerates(order, who) && email !in who && email != ""
    ensures Enumerates(order + [email], who + {email})
  {
    assert forall i :: 0 <= i < |order| ==> order[i] in order;
  }

  // -------------------------------------------------------- shape of the table

  ghost function LaidOut(users: Table, slots: seq<string>, order: seq<string>): seq<string> {
    Vacated(users, slots) + order
  }

  lemma LaidOutDistinct(users: Table, slots: seq<string>, order: seq<string>)
    requires Distinct(slots) && Enumerates(order, Newcomers(users, slots))
    ensures Distinct(LaidOut(users, slots, order))
  {
    var v := Vacated(users, slots);
    forall i, j | 0 <= i < |v| && 0 <= j < |order| && v[i] != "" ensures v[i] != order[j] {
      assert v[i] in Placed(slots);
      assert order[j] in order;
    }
  }

  lemma {:induction false} EnumeratesCount(order: seq<string>, who: set<string>)
    requires Enumerates(order, who)
    ensures |order| == |who|
    decreases |order|
  {
    if order == [] {
      assert who == {};
    } else {
      var n := |order| - 1;
      var rest, email := order[..n], order[n];
      assert order == rest + [email];
      assert email in order;
      forall e ensures e in rest <==> e in who - {email} {
        if e in rest {
          var i :| 0 <= i < n && rest[i] == e;
          assert order[i] == e;
        }
      }
      EnumeratesCount(rest, who - {email});
    }
  }

  /**
   * After a push the positions taken are exactly the users, each once; nobody
   * who had one moved; and the list grew by exactly those who had none.
   */
  ghost predicate LaysOut(users: Table, slots: seq<string>, after: seq<string>) {
    && Distinct(after) && Placed(after) == users.Keys
    && |after| == |slots| + |users.Keys - Placed(slots)|
    && (forall i :: 0 <= i < |slots| && slots[i] in users ==> after[i] == slots[i])
  }

  lemma PushedShape(users: Table, slots: seq<string>, order: seq<string>)
    requires "" !in users && Distinct(slots) && Enumerates(order, Newcomers(users, slots))
    ensures LaysOut(users, slots, LaidOut(users, slots, order))
  {
    var after := LaidOut(users, slots, order);
    LaidOutDistinct(users, slots, order);
    EnumeratesCount(order, Newcomers(users, slots));
    NobodyMoves(users, slots, order);
    hide Distinct, Enumerates, LaidOut;
    PlacedAre(users, slots, order);
    hide Placed;
  }

  lemma NobodyMoves(users: Table, slots: seq<string>, order: seq<string>)
    ensures |LaidOut(users, slots, order)| == |slots| + |order|
    ensures forall i :: 0 <= i < |slots| && slots[i] in users ==> LaidOut(users, slots, order)[i] == slots[i]
  {
  }

  lemma PlacedAre(users: Table, slots: seq<string>, order: seq<string>)
    requires "" !in users && Enumerates(order, Newcomers(users, slots))
    ensures Placed(LaidOut(users, slots, order)) == users.Keys
  {
    hide Placed, LaidOut, Enumerates;
    forall e ensures e in Placed(LaidOut(users, slots, order)) <==> e in users {
      PlacedAfterPush(users, slots, order, e);
    }
  }

  lemma PlacedAfterPush(users: Table, slots: seq<string>, order: seq<string>, e: string)
    requires "" !in users && Enumerates(order, Newcomers(users, slots))
    ensures e in Placed(LaidOut(users, slots, order)) <==> e in users
  {
    var after := LaidOut(users, slots, order);
    if i :| 0 <= i < |slots| && slots[i] == e && e in users {
      assert after[i] == e;
    } else if e in users {
      assert e in order;
      var i :| 0 <= i < |order| && order[i] == e;
      assert after[|slots| + i] == e;
    } else {
      assert forall i :: |slots| <= i < |after| ==> after[i] == order[i - |slots|] && order[i - |slots|] in order;
    }
  }

  // ------------------------------------------------------------- whole runs

  /** A client that authenticated: the inbound it came in by, its index there, and who it proved to be. */
  datatype Session = Session(tag: string, index: nat, who: string)

  datatype Sent = Sent(tag: string, payload: seq<ClashUser>)

  datatype World = World(
    users: Table,
    slots: seq<string>,
    sent: set<Sent>,                    // every list rendered for an inbound in this process life
    lists: map<string, seq<ClashUser>>, // what each inbound of the core holds now
    sessions: map<nat, Session>,
    first: seq<string>)                 // who each position was given to in this process life

  /**
   * A push and the arrival of its lists are separate steps, so pushes overlap
   * freely: a list may arrive late, after newer ones, twice, or never.
   */
  datatype Event =
    | Sync(user: User)
    | Merge(batch: seq<User>)
    | Replace(batch: seq<User>)
    | Push(order: seq<string>)
    | Arrive(list: Sent)
    | Open(id: nat, tag: string, index: nat)
    | Close(id: nat)
    | Start

  /** The node around a table: what it serves, and its made-up secrets. */
  datatype Node = Node(inbounds: seq<Inbound>, spare: (Kind, nat) -> string)

  ghost const INITIAL := World(map[], [], {}, map[], map[], [])

  ghost function Pushed(node: Node, w: World, order: seq<string>): World {
    var slots := LaidOut(w.users, w.slots, order);
    var lists := set i | 0 <= i < |node.inbounds| ::
      Sent(node.inbounds[i].tag, Rendered(w.users, slots, node.inbounds[i].kind, node.spare));
    w.(slots := slots, sent := w.sent + lists, first := w.first + order)
  }

  /** Nobody can present a placeholder's secret; but a user may be called what placeholders are. */
  predicate Occupied(w: World, name: string, index: nat) {
    name != FREE_SLOT_NAME || (index < |w.first| && w.first[index] == FREE_SLOT_NAME)
  }

  /** Events that make no sense in the current state leave it alone. */
  ghost function Next(node: Node, w: World, e: Event): World {
    match e
    case Sync(u) => w.(users := Synced(node.inbounds, w.users, u))
    case Merge(us) => w.(users := Merged(node.inbounds, w.users, us, |us|))
    case Replace(us) => w.(users := Replaced(node.inbounds, us, |us|))
    case Push(order) => if Enumerates(order, Newcomers(w.users, w.slots)) then Pushed(node, w, order) else w
    case Arrive(s) => if s in w.sent then w.(lists := w.lists[s.tag := s.payload]) else w
    case Open(id, tag, index) =>
      if id !in w.sessions && tag in w.lists && index < |w.lists[tag]| && Occupied(w, w.lists[tag][index].name, index) then
        w.(sessions := w.sessions[id := Session(tag, index, w.lists[tag][index].name)])
      else w
    case Close(id) => w.(sessions := w.sessions - {id})
    case Start => w.(slots := [], sent := {}, lists := map[], sessions := map[], first := [])
  }

  ghost function After(node: Node, events: seq<Event>, n: nat): World
    requires n <= |events|
  {
    if n == 0 then INITIAL else Next(node, After(node, events, n - 1), events[n - 1])
  }

  // ---------------------------------------------------------------- invariant

  /** A list names nobody at a position but the one it was first given to. */
  ghost predicate TrueTo(first: seq<string>, list: seq<ClashUser>) {
    && |list| <= |first|
    && (forall i :: 0 <= i < |list| ==> list[i].name == FREE_SLOT_NAME || list[i].name == first[i])
  }

  ghost predicate Held(first: seq<string>, slots: seq<string>) {
    && |slots| == |first|
    && (forall i :: 0 <= i < |slots| ==> slots[i] == "" || slots[i] == first[i])
  }

  ghost predicate Known(first: seq<string>, s: Session) {
    s.index < |first| && s.who == first[s.index]
  }

  ghost predicate Sound(w: World) {
    && Proper(w.users) && Distinct(w.slots) && Held(w.first, w.slots)
    && (forall s :: s in w.sent ==> TrueTo(w.first, s.payload))
    && (forall tag :: tag in w.lists ==> TrueTo(w.first, w.lists[tag]))
    && (forall id :: id in w.sessions ==> Known(w.first, w.sessions[id]))
  }

  lemma RenderedTrue(users: Table, slots: seq<string>, kind: Kind, spare: (Kind, nat) -> string, first: seq<string>)
    requires Held(first, slots)
    ensures TrueTo(first, Rendered(users, slots, kind, spare))
  {
  }

  lemma PushKeepsHeld(w: World, order: seq<string>)
    requires Held(w.first, w.slots)
    ensures Held(w.first + order, LaidOut(w.users, w.slots, order))
  {
  }

  lemma TrueToMore(first: seq<string>, order: seq<string>, list: seq<ClashUser>)
    requires TrueTo(first, list)
    ensures TrueTo(first + order, list)
  {
  }

  lemma PushKeepsSound(node: Node, w: World, order: seq<string>)
    requires Sound(w) && Enumerates(order, Newcomers(w.users, w.slots))
    ensures Sound(Pushed(node, w, order))
  {
    var w' := Pushed(node, w, order);
    LaidOutDistinct(w.users, w.slots, order);
    PushKeepsHeld(w, order);
    forall id | id in w.sessions ensures Known(w'.first, w.sessions[id]) {
      assert Known(w.first, w.sessions[id]);
    }
    hide Proper, Distinct, Enumerates, LaidOut, Held, TrueTo, Known, Rendered;
    forall s | s in w.sent ensures TrueTo(w'.first, s.payload) {
      TrueToMore(w.first, order, s.payload);
    }
    forall tag | tag in w.lists ensures TrueTo(w'.first, w.lists[tag]) {
      TrueToMore(w.first, order, w.lists[tag]);
    }
    forall i | 0 <= i < |node.inbounds|
      ensures TrueTo(w'.first, Rendered(w.users, w'.slots, node.inbounds[i].kind, node.spare))
    {
      RenderedTrue(w.users, w'.slots, node.inbounds[i].kind, node.spare, w'.first);
    }
  }

  lemma NextKeepsSound(node: Node, w: World, e: Event)
    requires Sound(w)
    ensures Sound(Next(node, w, e))
  {
    match e
    case Sync(u) => ApplyProper(node.inbounds, w.users, u, u.email);
    case Merge(us) => MergedProper(node.inbounds, w.users, us, |us|);
    case Replace(us) => ReplacedProper(node.inbounds, us, |us|);
    case Push(order) =>
      if Enumerates(order, Newcomers(w.users, w.slots)) {
        PushKeepsSound(node, w, order);
      }
    case Open(id, tag, index) =>
      assert tag in w.lists ==> TrueTo(w.first, w.lists[tag]);
    case _ =>
    hide Proper, Synced, Merged, Replaced, Pushed;
  }

  lemma {:induction false} SoundAfter(node: Node, events: seq<Event>, n: nat)
    requires n <= |events|
    ensures Sound(After(node, events, n))
  {
    if n > 0 {
      hide Sound, Next;
      SoundAfter(node, events, n - 1);
      NextKeepsSound(node, After(node, events, n - 1), events[n - 1]);
    }
  }

  // ----------------------------------------------------------------- theorems

  /** What the core makes of a session now. */
  ghost function Resolved(w: World, s: Session): string {
    if s.tag in w.lists then UserName(w.lists[s.tag], s.index) else ""
  }

  /**
   * In every run, whatever changed since it connected, a session resolves to the
   * user it authenticated as, the placeholder or nothing. So it is billed to
   * another user of the core if and only if it resolves to the placeholder and
   * somebody is called that.
   */
  lemma SessionKeepsItsName(node: Node, events: seq<Event>, n: nat, id: nat)
    requires n <= |events| && id in After(node, events, n).sessions
    ensures var w := After(node, events, n);
            var s := w.sessions[id];
            var name := Resolved(w, s);
            && name in {s.who, FREE_SLOT_NAME, ""}
            && (name in w.users && name != s.who <==> name == FREE_SLOT_NAME != s.who && FREE_SLOT_NAME in w.users)
  {
    SoundAfter(node, events, n);
    var w := After(node, events, n);
    var s := w.sessions[id];
    hide After;
    assert Known(w.first, s);
    assert s.tag in w.lists ==> TrueTo(w.first, w.lists[s.tag]);
    assert "" !in w.users;
  }

  /** The users an event is about. */
  ghost predicate Concerns(e: Event, u: User) {
    match e
    case Sync(user) => u == user
    case Merge(batch) => u in batch
    case Replace(batch) => u in batch
    case _ => false
  }

  /** Nobody is introduced under the placeholder's name. */
  ghost predicate NobodyCalledFree(events: seq<Event>, n: nat)
    requires n <= |events|
  {
    forall i, u :: 0 <= i < n && Concerns(events[i], u) ==> Trim(u.email) != FREE_SLOT_NAME
  }

  lemma {:induction false} MergedNames(served: seq<Inbound>, table: Table, users: seq<User>, n: nat)
    requires n <= |users| && FREE_SLOT_NAME !in table
    requires forall u :: u in users ==> Trim(u.email) != FREE_SLOT_NAME
    ensures FREE_SLOT_NAME !in Merged(served, table, users, n)
  {
    hide Usable, Trim;
    if n > 0 {
      MergedNames(served, table, users, n - 1);
      assert users[n - 1] in users;
    }
  }

  lemma {:induction false} ReplacedNames(served: seq<Inbound>, users: seq<User>, n: nat)
    requires n <= |users|
    requires forall u :: u in users ==> Trim(u.email) != FREE_SLOT_NAME
    ensures FREE_SLOT_NAME !in Replaced(served, users, n)
  {
    hide Usable, Trim;
    if n > 0 {
      ReplacedNames(served, users, n - 1);
      assert users[n - 1] in users;
    }
  }

  lemma NextNames(node: Node, w: World, e: Event)
    requires FREE_SLOT_NAME !in w.users && forall u :: Concerns(e, u) ==> Trim(u.email) != FREE_SLOT_NAME
    ensures FREE_SLOT_NAME !in Next(node, w, e).users
  {
    hide Usable, Trim, Enumerates;
    match e
    case Sync(user) => assert Concerns(e, user);
    case Merge(batch) =>
      assert forall u :: u in batch ==> Concerns(e, u);
      MergedNames(node.inbounds, w.users, batch, |batch|);
    case Replace(batch) =>
      assert forall u :: u in batch ==> Concerns(e, u);
      ReplacedNames(node.inbounds, batch, |batch|);
    case _ =>
  }

  lemma {:induction false} NobodyCalledFreeAfter(node: Node, events: seq<Event>, n: nat)
    requires n <= |events| && NobodyCalledFree(events, n)
    ensures FREE_SLOT_NAME !in After(node, events, n).users
  {
    hide Next, Trim, Concerns;
    if n > 0 {
      NobodyCalledFreeAfter(node, events, n - 1);
      NextNames(node, After(node, events, n - 1), events[n - 1]);
    }
  }

  /** As long as nobody is introduced under the placeholder's name, no session is ever billed to another user. */
  lemma {:induction false} NeverAnotherUser(node: Node, events: seq<Event>, n: nat, id: nat)
    requires n <= |events| && id in After(node, events, n).sessions && NobodyCalledFree(events, n)
    ensures var w := After(node, events, n);
            var s := w.sessions[id];
            Resolved(w, s) in w.users ==> Resolved(w, s) == s.who
  {
    SessionKeepsItsName(node, events, n, id);
    NobodyCalledFreeAfter(node, events, n);
    hide After, Resolved, NobodyCalledFree;
  }

  // ------------------------------------------------- a user called what placeholders are

  /** A user on an inbound, the same user withdrawn, and one whose name is the placeholder's. */
  datatype Dash = Dash(node: Node, inbound: Inbound, user: User, gone: User, dash: User)

  ghost predicate DashCase(c: Dash) {
    && c.node.inbounds == [c.inbound]
    && Usable(c.node.inbounds, c.user) && Trim(c.user.email) == c.gone.email != FREE_SLOT_NAME && !Usable(c.node.inbounds, c.gone)
    && Usable(c.node.inbounds, c.dash) && Trim(c.dash.email) == FREE_SLOT_NAME
    && c.user.secrets.Trimmed().Secret(c.inbound.kind) != "" && c.dash.secrets.Trimmed().Secret(c.inbound.kind) != ""
  }

  /** Such users exist: alice, and somebody called "-". */
  lemma DashCaseExists(spare: (Kind, nat) -> string)
    ensures var creds, hy2 := Credentials("s", "", "", "", ""), Inbound("hy2", Hysteria2);
            DashCase(Dash(Node([hy2], spare), hy2, User("alice", ["hy2"], creds), User("alice", [], creds), User("-", ["hy2"], creds)))
  {
    var creds, hy2 := Credentials("s", "", "", "", ""), Inbound("hy2", Hysteria2);
    var user, dash := User("alice", ["hy2"], creds), User("-", ["hy2"], creds);
    assert Trim("alice") == "alice" && Trim("-") == "-" && Trim("s") == "s";
    assert user.inbounds[0] == [hy2][0].tag && dash.inbounds[0] == [hy2][0].tag;
    assert "alice"[0] != "-"[0];
  }

  function ListOf(c: Dash, table: Table, slots: seq<string>): Sent {
    Sent(c.inbound.tag, Rendered(table, slots, c.inbound.kind, c.node.spare))
  }

  function TableOf(u: User): Table {
    map[Trim(u.email) := u.secrets.Trimmed()]
  }

  /** The user connects, the other one is added, and the first is withdrawn. */
  function DashRun(c: Dash): (run: seq<Event>)
    ensures |run| == 8
  {
    var name := Trim(c.user.email);
    [Sync(c.user), Push([name]), Arrive(ListOf(c, TableOf(c.user), [name])), Open(0, c.inbound.tag, 0),
     Sync(c.dash), Sync(c.gone), Push([FREE_SLOT_NAME]), Arrive(ListOf(c, TableOf(c.dash), ["", FREE_SLOT_NAME]))]
  }

  lemma DashConnects(w: World, c: Dash)
    requires w == INITIAL && DashCase(c)
    ensures var name := Trim(c.user.email);
            var w1 := Next(c.node, w, Sync(c.user));
            var w2 := Next(c.node, w1, Push([name]));
            && w2.users == TableOf(c.user) && w2.slots == [name] == w2.first && w2.sessions == map[]
            && ListOf(c, TableOf(c.user), [name]) in w2.sent
  {
    var name := Trim(c.user.email);
    var w1 := Next(c.node, w, Sync(c.user));
    assert w1.users == TableOf(c.user) && w1.slots == [];
    hide Usable, Trim, DashCase, Rendered;
    assert Placed([]) == {};
    assert [name][0] == name;
    assert Enumerates([name], Newcomers(w1.users, w1.slots));
    assert LaidOut(w1.users, [], [name]) == [name];
    assert c.node.inbounds[0] == c.inbound;
  }

  lemma DashOpens(w: World, c: Dash)
    requires DashCase(c)
    requires var name := Trim(c.user.email);
             && w.users == TableOf(c.user) && w.slots == [name] == w.first && w.sessions == map[]
             && ListOf(c, TableOf(c.user), [name]) in w.sent
    ensures var name := Trim(c.user.email);
            var w' := Next(c.node, Next(c.node, w, Arrive(ListOf(c, TableOf(c.user), [name]))), Open(0, c.inbound.tag, 0));
            && w'.users == w.users && w'.slots == w.slots && w'.first == w.first && w'.sent == w.sent
            && w'.sessions == map[0 := Session(c.inbound.tag, 0, name)]
  {
    var name, list := Trim(c.user.email), ListOf(c, TableOf(c.user), [Trim(c.user.email)]);
    var w1 := Next(c.node, w, Arrive(list));
    assert w1.lists[c.inbound.tag] == list.payload;
    assert list.payload[0].name == name;
    hide Usable, Trim, Rendered;
  }

  lemma DashReplaces(w: World, c: Dash)
    requires DashCase(c) && w.users == TableOf(c.user)
    ensures var w' := Next(c.node, Next(c.node, w, Sync(c.dash)), Sync(c.gone));
            w' == w.(users := TableOf(c.dash))
  {
    var w1 := Next(c.node, w, Sync(c.dash));
    assert w1.users == w.users[FREE_SLOT_NAME := c.dash.secrets.Trimmed()];
    hide Usable, Trim;
    assert Without(w1.users, c.gone.email) == TableOf(c.dash);
  }

  lemma DashPushes(w: World, c: Dash)
    requires DashCase(c) && w.users == TableOf(c.dash) && w.slots == [Trim(c.user.email)]
    ensures var list := ListOf(c, TableOf(c.dash), ["", FREE_SLOT_NAME]);
            var w' := Next(c.node, Next(c.node, w, Push([FREE_SLOT_NAME])), Arrive(list));
            && w'.users == w.users && w'.sessions == w.sessions
            && c.inbound.tag in w'.lists && UserName(w'.lists[c.inbound.tag], 0) == FREE_SLOT_NAME
  {
    var list := ListOf(c, TableOf(c.dash), ["", FREE_SLOT_NAME]);
    assert w.users.Keys == {FREE_SLOT_NAME} && w.slots[0] != FREE_SLOT_NAME;
    hide Usable, Trim, DashCase;
    var order := [FREE_SLOT_NAME];
    assert order[0] == FREE_SLOT_NAME;
    assert forall e :: e in order <==> e in Newcomers(w.users, w.slots);
    assert Enumerates(order, Newcomers(w.users, w.slots));
    assert LaidOut(w.users, w.slots, order) == ["", FREE_SLOT_NAME];
    DashSends(w, c, order);
    assert list.payload[0].name == FREE_SLOT_NAME;
    hide Rendered, Enumerates, Newcomers, LaidOut;
  }

  lemma DashSends(w: World, c: Dash, order: seq<string>)
    requires c.node.inbounds == [c.inbound]
    ensures ListOf(c, w.users, LaidOut(w.users, w.slots, order)) in Pushed(c.node, w, order).sent
  {
    hide Rendered, LaidOut;
    assert c.node.inbounds[0] == c.inbound;
  }

  /** The first user's open session is billed to the other one, who never connected. */
  lemma {:induction false} DashIsBilled(c: Dash)
    requires DashCase(c)
    ensures var w := After(c.node, DashRun(c), 8);
            && 0 in w.sessions && w.sessions[0].who == Trim(c.user.email) != FREE_SLOT_NAME
            && Resolved(w, w.sessions[0]) == FREE_SLOT_NAME && FREE_SLOT_NAME in w.users
  {
    var events := DashRun(c);
    hide Next, DashCase, Trim, Rendered, UserName;
    DashRunEvents(c);
    assert After(c.node, events, 0) == INITIAL;
    DashConnects(After(c.node, events, 0), c);
    TwoSteps(c.node, events, 0);
    DashOpens(After(c.node, events, 2), c);
    TwoSteps(c.node, events, 2);
    DashReplaces(After(c.node, events, 4), c);
    TwoSteps(c.node, events, 4);
    DashPushes(After(c.node, events, 6), c);
    TwoSteps(c.node, events, 6);
  }

  lemma TwoSteps(node: Node, events: seq<Event>, n: nat)
    requires n + 2 <= |events|
    ensures After(node, events, n + 2) == Next(node, Next(node, After(node, events, n), events[n]), events[n + 1])
  {
    hide Next;
  }

  lemma DashRunEvents(c: Dash)
    requires DashCase(c)
    ensures var e, name := DashRun(c), Trim(c.user.email);
            && e[0] == Sync(c.user) && e[1] == Push([name]) && e[2] == Arrive(ListOf(c, TableOf(c.user), [name]))
            && e[3] == Open(0, c.inbound.tag, 0) && e[4] == Sync(c.dash) && e[5] == Sync(c.gone) && e[6] == Push([FREE_SLOT_NAME])
            && e[7] == Arrive(ListOf(c, TableOf(c.dash), ["", FREE_SLOT_NAME]))
            && name != FREE_SLOT_NAME && FREE_SLOT_NAME in TableOf(c.dash)
  {
    hide Usable, Trim, Rendered;
  }

  /** Any two lists of one process life, for whatever protocols, agree on every index both give to a user. */
  lemma ListsNeverConflict(node: Node, events: seq<Event>, n: nat, a: Sent, b: Sent, i: nat)
    requires n <= |events| && a in After(node, events, n).sent && b in After(node, events, n).sent
    requires i < |a.payload| && i < |b.payload|
    ensures a.payload[i].name == b.payload[i].name
         || a.payload[i].name == FREE_SLOT_NAME || b.payload[i].name == FREE_SLOT_NAME
  {
    SoundAfter(node, events, n);
    hide After;
    assert TrueTo(After(node, events, n).first, a.payload);
  }

  /** In every run, each push lays out the users of that moment. */
  lemma {:induction false} PushLaysOutUsers(node: Node, events: seq<Event>, n: nat)
    requires 0 < n <= |events| && events[n - 1].Push?
    requires var w := After(node, events, n - 1); Enumerates(events[n - 1].order, Newcomers(w.users, w.slots))
    ensures var w, w' := After(node, events, n - 1), After(node, events, n);
            w'.users == w.users && LaysOut(w.users, w.slots, w'.slots)
  {
    SoundAfter(node, events, n - 1);
    hide Sound;
    SoundPush(node, After(node, events, n - 1), events[n - 1].order);
  }

  lemma SoundPush(node: Node, w: World, order: seq<string>)
    requires Sound(w) && Enumerates(order, Newcomers(w.users, w.slots))
    ensures var w' := Next(node, w, Push(order)); w'.users == w.users && LaysOut(w.users, w.slots, w'.slots)
  {
    assert "" !in w.users && Distinct(w.slots);
    hide Sound, Proper, Enumerates, Newcomers, LaidOut, LaysOut, Distinct, Rendered;
    PushedShape(w.users, w.slots, order);
  }

  /** A list must not outlive its process: the next one may lay the same users out differently. */
  lemma ListsOfTwoLivesConflict(spare: (Kind, nat) -> string)
    ensures var c := Credentials("s", "", "", "", "");
            var users := map["alice" := c, "bob" := c];
            var one, two := Rendered(users, LaidOut(users, [], ["alice", "bob"]), Hysteria2, spare),
                            Rendered(users, LaidOut(users, [], ["bob", "alice"]), Hysteria2, spare);
            && Enumerates(["alice", "bob"], Newcomers(users, [])) && Enumerates(["bob", "alice"], Newcomers(users, []))
            && UserName(one, 0) == "alice" && UserName(two, 0) == "bob"
  {
    assert "alice"[0] != "bob"[0];
  }

  /** Within one process life positions are only ever added, and keep the user they were first given to. */
  lemma {:induction false} SlotsNeverShrink(node: Node, events: seq<Event>, n: nat, m: nat)
    requires n <= m <= |events| && forall i :: n <= i < m ==> !events[i].Start?
    ensures After(node, events, n).first <= After(node, events, m).first
    ensures |After(node, events, n).slots| <= |After(node, events, m).slots|
    decreases m - n
  {
    if n < m {
      SlotsNeverShrink(node, events, n, m - 1);
      StepNeverShrinks(node, After(node, events, m - 1), events[m - 1]);
      hide Next;
    }
  }

  lemma StepNeverShrinks(node: Node, w: World, e: Event)
    requires !e.Start?
    ensures w.first <= Next(node, w, e).first && |w.slots| <= |Next(node, w, e).slots|
  {
    hide Synced, Merged, Replaced, Enumerates, Rendered;
  }
}

/**
 * The OpenVPN management stream (backend/openvpn/mgmt.go) as a line-driven state
 * machine, with the user store it consults (backend/openvpn/users.go).
 *
 * Client events come in blocks, a header line, environment lines and an end
 * line; status answers are lines of their own; and the panel changes the users
 * at any time. All three arrive interleaved.
 */
module OpenVpnMgmt {
  import opened Wrappers
  import opened Numbers
  import opened Traffic
  import opened OpenVpnStats

  // --------------------------------------------------------------- user store

  datatype User = User(email: string, wanted: bool, serial: string)

  /** Common name to pinned certificate serial; live client ids per common name. */
  datatype Store = Store(users: map<string, string>, sessions: map<string, set<string>>)

  predicate Authorized(s: Store, cn: string, serial: string) {
    cn in s.users && (s.users[cn] == "" || s.users[cn] == serial)
  }

  function Sessions(s: Store, cn: string): set<string> {
    if cn in s.sessions then s.sessions[cn] else {}
  }

  /** An authorised session is counted once, however often it re-authenticates. */
  function Connected(s: Store, cn: string, serial: string, cid: string): Store {
    if Authorized(s, cn, serial) then s.(sessions := s.sessions[cn := Sessions(s, cn) + {cid}]) else s
  }

  function Released(s: Store, cn: string, cid: string): Store {
    if cn !in s.sessions then s
    else if s.sessions[cn] - {cid} == {} then s.(sessions := s.sessions - {cn})
    else s.(sessions := s.sessions[cn := s.sessions[cn] - {cid}])
  }

  function Applied(s: Store, u: User): Store {
    if u.email == "" then s
    else if u.wanted then s.(users := s.users[u.email := u.serial])
    else Store(s.users - {u.email}, s.sessions - {u.email})
  }

  function Listed(users: seq<User>, n: nat): map<string, string>
    requires n <= |users|
  {
    if n == 0 then map[]
    else if users[n - 1].wanted && users[n - 1].email != "" then
      Listed(users, n - 1)[users[n - 1].email := users[n - 1].serial]
    else Listed(users, n - 1)
  }

  /** Those no longer listed lose their sessions. */
  function Replaced(s: Store, users: seq<User>): Store {
    var next := Listed(users, |users|);
    Store(next, map cn | cn in s.sessions && !(cn in s.users && cn !in next) :: s.sessions[cn])
  }

  class UserStore {
    var users: map<string, string>
    var sessions: map<string, set<string>>

    constructor ()
      ensures Contents() == Store(map[], map[])
    {
      users, sessions := map[], map[];
    }

    ghost function Contents(): Store
      reads this
    {
      Store(users, sessions)
    }

    method TryConnect(cn: string, serial: string, cid: string) returns (allowed: bool)
      modifies this
      ensures allowed == Authorized(old(Contents()), cn, serial)
      ensures Contents() == Connected(old(Contents()), cn, serial, cid)
    {
      if cn !in users || (users[cn] != "" && users[cn] != serial) {
        return false;
      }
      var ids := if cn in sessions then sessions[cn] else {};
      sessions := sessions[cn := ids + {cid}];
      return true;
    }

    method ReleaseSession(cn: string, cid: string)
      modifies this
      ensures Contents() == Released(old(Contents()), cn, cid)
    {
      if cn in sessions {
        var ids := sessions[cn] - {cid};
        sessions := if ids == {} then sessions - {cn} else sessions[cn := ids];
      }
    }

    method ApplyUser(u: User) returns (changedSerial: bool, removed: bool)
      modifies this
      ensures Contents() == Applied(old(Contents()), u)
      ensures removed <==> u.email != "" && u.email in old(users) && u.email !in users
      ensures changedSerial <==> u.email != "" && u.email in old(users) && u.email in users && old(users)[u.email] != users[u.email]
    {
      if u.email == "" {
        return false, false;
      }
      var existed := u.email in users;
      if !u.wanted {
        users, sessions := users - {u.email}, sessions - {u.email};
        return false, existed;
      }
      changedSerial := existed && users[u.email] != u.serial;
      users := users[u.email := u.serial];
      removed := false;
    }

    method ReplaceAll(list: seq<User>) returns (removed: set<string>)
      modifies this
      ensures Contents() == Replaced(old(Contents()), list)
      ensures removed == old(users).Keys - users.Keys
    {
      var next: map<string, string> := map[];
      for i := 0 to |list|
        invariant next == Listed(list, i)
      {
        if list[i].wanted && list[i].email != "" {
          next := next[list[i].email := list[i].serial];
        }
      }
      removed := set cn | cn in users && cn !in next;
      sessions := map cn | cn in sessions && cn !in removed :: sessions[cn];
      users := next;
    }
  }

  // -------------------------------------------------------------------- lines

  /** Client ids and common names as billing knows them. */
  type Naming = string -> Name

  datatype Line =
    | Connect(cid: string, kid: string)
    | Disconnect(cid: string)
    | EnvEnd
    | Env(key: string, value: string)
    | StatusRow(row: Row)
    | StatusEnd
    | Ignored

  /** The position of the first `c`, or the length. */
  function IndexOf(s: string, c: char): (i: nat)
    ensures i <= |s| && (i < |s| ==> s[i] == c) && forall j :: 0 <= j < i ==> s[j] != c
  {
    if s == "" || s[0] == c then 0 else 1 + IndexOf(s[1..], c)
  }

  function Before(s: string, c: char): string {
    s[..IndexOf(s, c)]
  }

  function Behind(s: string, c: char): string {
    if IndexOf(s, c) == |s| then "" else s[IndexOf(s, c) + 1..]
  }

  /** A line's fields. */
  function Fields(s: string, c: char): (fields: seq<string>)
    ensures fields != []
    decreases |s|
  {
    if c !in s then [s] else [Before(s, c)] + Fields(Behind(s, c), c)
  }

  /** The row of a client in the third version of the status format. */
  function ParseStatusLine(name: Naming, line: string): Option<Row> {
    var fields := Fields(line, '\t');
    if |fields| < 11 then None
    else Some(Row(name(fields[10]), name(fields[1]), Bytes(ParseInt(fields[5]), ParseInt(fields[6]))))
  }

  function Classify(name: Naming, line: string): Line {
    if ">CLIENT:CONNECT," <= line || ">CLIENT:REAUTH," <= line then
      Connect(Before(Behind(line, ','), ','), Behind(Behind(line, ','), ','))
    else if ">CLIENT:DISCONNECT," <= line then
      Disconnect(Before(Behind(line, ','), ','))
    else if ">CLIENT:ENV," <= line then
      var env := line[|">CLIENT:ENV,"|..];
      if env == "END" then EnvEnd
      else if '=' in env then Env(Before(env, '='), Behind(env, '='))
      else Ignored
    else if "CLIENT_LIST\t" <= line then
      (match ParseStatusLine(name, line) case Some(row) => StatusRow(row) case None => Ignored)
    else if line == "END" then StatusEnd
    else Ignored
  }

  // ------------------------------------------------------------ state machine

  type Environment = map<string, string>

  function Get(env: Environment, key: string): string {
    if key in env then env[key] else ""
  }

  datatype Pending = Pending(cid: string, kid: string, env: Option<Environment>, disconnect: bool)

  const NOTHING := Pending("", "", None, false)

  datatype State = State(pending: Pending, statusBuf: seq<Row>, lastStatus: seq<Row>, store: Store)

  datatype Output =
    | Quiet
    | Reply(cid: string, kid: string, allowed: bool)
    | SessionEnd(cid: string, commonName: string, rx: int, tx: int)

  function PendingAfter(p: Pending, line: Line): Pending {
    match line
    case Connect(cid, kid) => Pending(cid, kid, Some(map[]), false)
    case Disconnect(cid) => Pending(cid, "", Some(map[]), true)
    case Env(k, v) => if p.env.Some? then p.(env := Some(p.env.value[k := v])) else p
    case EnvEnd => NOTHING
    case _ => p
  }

  function OutputOf(s: State, line: Line): Output {
    var p := s.pending;
    if !line.EnvEnd? || p.cid == "" || p.env.None? then Quiet
    else if p.disconnect then
      SessionEnd(p.cid, Get(p.env.value, "common_name"),
                 ParseInt(Get(p.env.value, "bytes_received")), ParseInt(Get(p.env.value, "bytes_sent")))
    else
      Reply(p.cid, p.kid, Authorized(s.store, Get(p.env.value, "common_name"), Get(p.env.value, "tls_serial_0")))
  }

  function StoreAfter(s: State, line: Line): Store {
    var p := s.pending;
    if !line.EnvEnd? || p.cid == "" || p.env.None? then s.store
    else if p.disconnect then Released(s.store, Get(p.env.value, "common_name"), p.cid)
    else Connected(s.store, Get(p.env.value, "common_name"), Get(p.env.value, "tls_serial_0"), p.cid)
  }

  function Handled(s: State, line: Line): State {
    State(PendingAfter(s.pending, line),
          if line.StatusRow? then s.statusBuf + [line.row] else if line.StatusEnd? then [] else s.statusBuf,
          if line.StatusEnd? then s.statusBuf else s.lastStatus,
          StoreAfter(s, line))
  }

  class MgmtClient {
    const name: Naming
    const decider: UserStore
    var pendingCID: string
    var pendingKID: string
    var pendingEnv: Option<Environment>
    var pendingDisconnect: bool
    var statusBuf: seq<Row>
    var lastStatus: seq<Row>

    constructor (name: Naming, decider: UserStore)
      ensures this.name == name && this.decider == decider
      ensures Contents() == State(NOTHING, [], [], decider.Contents())
    {
      this.name, this.decider := name, decider;
      pendingCID, pendingKID, pendingEnv, pendingDisconnect := "", "", None, false;
      statusBuf, lastStatus := [], [];
    }

    ghost function Contents(): State
      reads this, decider
    {
      State(Pending(pendingCID, pendingKID, pendingEnv, pendingDisconnect), statusBuf, lastStatus, decider.Contents())
    }

    /** Outside a block there is nothing pending but an empty client id. */
    ghost predicate Valid()
      reads this
    {
      pendingEnv.None? ==> Pending(pendingCID, pendingKID, pendingEnv, pendingDisconnect) == NOTHING
    }

    method HandleLine(line: string) returns (out: Output)
      requires Valid()
      modifies this, decider
      ensures Valid()
      ensures out == OutputOf(old(Contents()), Classify(name, line))
      ensures Contents() == Handled(old(Contents()), Classify(name, line))
    {
      hide Classify, Connected, Released, Authorized;
      out := Quiet;
      match Classify(name, line)
      case Connect(cid, kid) =>
        pendingCID, pendingKID := cid, kid;
        pendingDisconnect, pendingEnv := false, Some(map[]);
      case Disconnect(cid) =>
        pendingCID, pendingKID := cid, "";
        pendingDisconnect, pendingEnv := true, Some(map[]);
      case EnvEnd =>
        if pendingDisconnect {
          out := FinishDisconnect();
        } else {
          out := FinishConnect();
        }
      case Env(key, value) =>
        if pendingEnv.Some? {
          pendingEnv := Some(pendingEnv.value[key := value]);
        }
      case StatusRow(row) =>
        statusBuf := statusBuf + [row];
      case StatusEnd =>
        lastStatus, statusBuf := statusBuf, [];
      case Ignored =>
    }

    method FinishConnect() returns (out: Output)
      requires Valid() && !pendingDisconnect
      modifies this, decider
      ensures Valid()
      ensures out == OutputOf(old(Contents()), EnvEnd) && Contents() == Handled(old(Contents()), EnvEnd)
    {
      var cid, kid, env := pendingCID, pendingKID, pendingEnv;
      pendingCID, pendingKID, pendingEnv := "", "", None;
      if cid == "" || env.None? {
        return Quiet;
      }
      var allowed := decider.TryConnect(Get(env.value, "common_name"), Get(env.value, "tls_serial_0"), cid);
      return Reply(cid, kid, allowed);
    }

    method FinishDisconnect() returns (out: Output)
      requires Valid() && pendingDisconnect
      modifies this, decider
      ensures Valid()
      ensures out == OutputOf(old(Contents()), EnvEnd) && Contents() == Handled(old(Contents()), EnvEnd)
    {
      var cid, env := pendingCID, pendingEnv;
      pendingCID, pendingKID, pendingEnv, pendingDisconnect := "", "", None, false;
      if cid == "" || env.None? {
        return Quiet;
      }
      var cn := Get(env.value, "common_name");
      out := SessionEnd(cid, cn, ParseInt(Get(env.value, "bytes_received")), ParseInt(Get(env.value, "bytes_sent")));
      decider.ReleaseSession(cn, cid);
    }
  }

  // --------------------------------------------------------------- whole runs

  /** A line, as `Classify` reads it, or a change of the users. */
  datatype Input = Heard(line: Line) | Apply(user: User) | Replace(users: seq<User>)

  function LineOf(input: Input): Line {
    if input.Heard? then input.line else Ignored
  }

  function Next(s: State, input: Input): State {
    match input
    case Heard(line) => Handled(s, line)
    case Apply(u) => s.(store := Applied(s.store, u))
    case Replace(us) => s.(store := Replaced(s.store, us))
  }

  /** The state after the first `n` inputs of a run from `s`. */
  function After(s: State, inputs: seq<Input>, n: nat): State
    requires n <= |inputs|
  {
    if n == 0 then s else Next(After(s, inputs, n - 1), inputs[n - 1])
  }

  /** What the node sends or reports on receiving input `n`. */
  function OutputAt(s: State, inputs: seq<Input>, n: nat): Output
    requires n < |inputs|
  {
    OutputOf(After(s, inputs, n), LineOf(inputs[n]))
  }

  predicate IsHeader(line: Line) {
    line.Connect? || line.Disconnect?
  }

  /** The header of the block that input `n` would belong to: the last one since a block ended, or -1. */
  function HeaderOf(inputs: seq<Input>, n: nat): (h: int)
    requires n <= |inputs|
    ensures -1 <= h < n
  {
    if n == 0 || LineOf(inputs[n - 1]).EnvEnd? then -1
    else if IsHeader(LineOf(inputs[n - 1])) then n - 1
    else HeaderOf(inputs, n - 1)
  }

  /** The environment given between a header and input `n`. */
  function EnvironmentOf(inputs: seq<Input>, h: nat, n: nat): Environment
    requires h < n <= |inputs|
  {
    if n == h + 1 then map[]
    else
      var line := LineOf(inputs[n - 1]);
      var env := EnvironmentOf(inputs, h, n - 1);
      if line.Env? then env[line.key := line.value] else env
  }

  function Expected(inputs: seq<Input>, n: nat): Pending
    requires n <= |inputs|
  {
    var h := HeaderOf(inputs, n);
    if h < 0 then NOTHING
    else
      match LineOf(inputs[h])
      case Connect(cid, kid) => Pending(cid, kid, Some(EnvironmentOf(inputs, h, n)), false)
      case Disconnect(cid) => Pending(cid, "", Some(EnvironmentOf(inputs, h, n)), true)
      case _ => NOTHING
  }

  lemma {:induction false} HeaderIsOne(inputs: seq<Input>, n: nat)
    requires n <= |inputs| && HeaderOf(inputs, n) >= 0
    ensures IsHeader(LineOf(inputs[HeaderOf(inputs, n)]))
  {
    if !IsHeader(LineOf(inputs[n - 1])) {
      HeaderIsOne(inputs, n - 1);
    }
  }

  /** Whatever arrives, what is pending is the open block's header and environment, and nothing else. */
  lemma {:induction false} PendingIsOpenBlock(s: State, inputs: seq<Input>, n: nat)
    requires n <= |inputs| && s.pending == NOTHING
    ensures After(s, inputs, n).pending == Expected(inputs, n)
  {
    hide StoreAfter, Applied, Replaced;
    if n > 0 {
      PendingIsOpenBlock(s, inputs, n - 1);
    }
  }

  /** What the end of a block opened by `header` makes the node say. */
  function Answer(store: Store, header: Line, env: Environment): Output {
    match header
    case Connect(cid, kid) =>
      if cid == "" then Quiet
      else Reply(cid, kid, Authorized(store, Get(env, "common_name"), Get(env, "tls_serial_0")))
    case Disconnect(cid) =>
      if cid == "" then Quiet
      else SessionEnd(cid, Get(env, "common_name"), ParseInt(Get(env, "bytes_received")), ParseInt(Get(env, "bytes_sent")))
    case _ => Quiet
  }

  /**
   * Every line of every stream, by looking back: the end of a block that was
   * opened by a connect or re-authentication with a client id is answered once,
   * with that block's own ids, and allowed exactly if the user is authorised at
   * that moment; the end of a disconnect block reports one session end; every
   * other line, and the end of a block of any other kind, is silent.
   */
  lemma {:induction false} EveryLine(s: State, inputs: seq<Input>, n: nat)
    requires n < |inputs| && s.pending == NOTHING
    ensures var h := HeaderOf(inputs, n);
            OutputAt(s, inputs, n)
            == if LineOf(inputs[n]).EnvEnd? && h >= 0
               then Answer(After(s, inputs, n).store, LineOf(inputs[h]), EnvironmentOf(inputs, h, n))
               else Quiet
  {
    hide After, HeaderOf, EnvironmentOf, Authorized, Get;
    PendingIsOpenBlock(s, inputs, n);
    if HeaderOf(inputs, n) >= 0 {
      HeaderIsOne(inputs, n);
    }
  }

  /** A block from its header to its end, with anything but other headers and ends in between. */
  ghost predicate Block(inputs: seq<Input>, h: nat, e: nat) {
    && h < e < |inputs| && IsHeader(LineOf(inputs[h])) && LineOf(inputs[e]).EnvEnd?
    && (forall i :: h < i < e ==> !IsHeader(LineOf(inputs[i])) && !LineOf(inputs[i]).EnvEnd?)
  }

  lemma {:induction false} HeaderInBlock(inputs: seq<Input>, h: nat, e: nat, n: nat)
    requires Block(inputs, h, e) && h < n <= e
    ensures HeaderOf(inputs, n) == h
  {
    if n > h + 1 {
      HeaderInBlock(inputs, h, e, n - 1);
    }
  }

  /**
   * Each block with a client id is answered exactly once, at its end: a connect or
   * re-authentication with one reply, a disconnect with one session end, each with
   * its own ids.
   */
  lemma {:induction false} BlockIsAnsweredOnce(s: State, inputs: seq<Input>, h: nat, e: nat)
    requires Block(inputs, h, e) && s.pending == NOTHING && LineOf(inputs[h]).cid != ""
    ensures forall i :: h <= i < e ==> OutputAt(s, inputs, i) == Quiet
    ensures var header, out := LineOf(inputs[h]), OutputAt(s, inputs, e);
            if header.Connect? then out.Reply? && out.cid == header.cid && out.kid == header.kid
            else out.SessionEnd? && out.cid == header.cid
  {
    HeaderInBlock(inputs, h, e, e);
    EveryLine(s, inputs, e);
    hide OutputAt, HeaderOf, EnvironmentOf, Authorized, Get;
    forall i | h <= i < e ensures OutputAt(s, inputs, i) == Quiet {
      EveryLine(s, inputs, i);
    }
  }

  // ---------------------------------------------------------- the status side

  predicate IsStatus(line: Line) {
    line.StatusRow? || line.StatusEnd?
  }

  /** The status rows among inputs `from` to `to`. */
  function RowsBetween(inputs: seq<Input>, from: nat, to: nat): seq<Row>
    requires from <= to <= |inputs|
  {
    if from == to then []
    else
      var line := LineOf(inputs[to - 1]);
      RowsBetween(inputs, from, to - 1) + if line.StatusRow? then [line.row] else []
  }

  /** Where a status answer's rows begin: at the start, or behind the answer before it. */
  ghost predicate Begins(s: State, inputs: seq<Input>, from: nat)
    requires from <= |inputs|
  {
    if from == 0 then s.statusBuf == [] else LineOf(inputs[from - 1]).StatusEnd?
  }

  lemma {:induction false} RowsPile(s: State, inputs: seq<Input>, from: nat, n: nat)
    requires from <= n <= |inputs| && Begins(s, inputs, from)
    requires forall i :: from <= i < n ==> !LineOf(inputs[i]).StatusEnd?
    ensures After(s, inputs, n).statusBuf == RowsBetween(inputs, from, n)
  {
    hide StoreAfter, PendingAfter, Applied, Replaced;
    if from < n {
      RowsPile(s, inputs, from, n - 1);
    }
  }

  /** A status answer publishes exactly its own rows, whatever client events and user changes came in between. */
  lemma StatusIsItsRows(s: State, inputs: seq<Input>, from: nat, e: nat)
    requires from <= e < |inputs| && LineOf(inputs[e]).StatusEnd? && Begins(s, inputs, from)
    requires forall i :: from <= i < e ==> !LineOf(inputs[i]).StatusEnd?
    ensures After(s, inputs, e + 1).lastStatus == RowsBetween(inputs, from, e)
  {
    hide StoreAfter, PendingAfter;
    RowsPile(s, inputs, from, e);
  }

  /** A stream with every status line taken out. */
  function WithoutStatus(inputs: seq<Input>, n: nat): seq<Input>
    requires n <= |inputs|
  {
    if n == 0 then []
    else WithoutStatus(inputs, n - 1) + if IsStatus(LineOf(inputs[n - 1])) then [] else [inputs[n - 1]]
  }

  /** Everything the node sends or reports over the first `n` inputs. */
  function Outputs(s: State, inputs: seq<Input>, n: nat): seq<Output>
    requires n <= |inputs|
  {
    if n == 0 then []
    else
      var out := OutputAt(s, inputs, n - 1);
      Outputs(s, inputs, n - 1) + if out.Quiet? then [] else [out]
  }

  lemma {:induction false} RunPrefix(s: State, a: seq<Input>, b: seq<Input>, n: nat)
    requires n <= |a|
    ensures After(s, a + b, n) == After(s, a, n) && Outputs(s, a + b, n) == Outputs(s, a, n)
  {
    hide Next, OutputOf;
    if n > 0 {
      RunPrefix(s, a, b, n - 1);
    }
  }

  /** The client side of a state. */
  ghost predicate SameClient(a: State, b: State) {
    a.pending == b.pending && a.store == b.store
  }

  lemma ClientStep(a: State, b: State, input: Input)
    requires SameClient(a, b)
    ensures SameClient(Next(a, input), Next(b, input)) && OutputOf(a, LineOf(input)) == OutputOf(b, LineOf(input))
    ensures IsStatus(LineOf(input)) ==> SameClient(Next(a, input), a) && OutputOf(a, LineOf(input)) == Quiet
  {
    hide Authorized, Connected, Released, Applied, Replaced, Get;
  }

  /** Taking every status line out of a stream changes nothing on the client side: neither the state nor a single reply. */
  lemma {:induction false} StatusDoesNotInterfere(s: State, inputs: seq<Input>, n: nat)
    requires n <= |inputs|
    ensures var rest := WithoutStatus(inputs, n);
            && SameClient(After(s, inputs, n), After(s, rest, |rest|))
            && Outputs(s, inputs, n) == Outputs(s, rest, |rest|)
  {
    hide Next, OutputOf, SameClient, IsStatus;
    if n == 0 {
      SameAsItself(s);
    } else {
      StatusDoesNotInterfere(s, inputs, n - 1);
      var rest, input := WithoutStatus(inputs, n - 1), inputs[n - 1];
      ClientStep(After(s, inputs, n - 1), After(s, rest, |rest|), input);
      if IsStatus(LineOf(input)) {
        assert WithoutStatus(inputs, n) == rest;
        SameThrough(Next(After(s, inputs, n - 1), input), After(s, inputs, n - 1), After(s, rest, |rest|));
      } else {
        RunPrefix(s, rest, [input], |rest|);
        assert (rest + [input])[|rest|] == input;
      }
    }
  }

  lemma SameAsItself(s: State)
    ensures SameClient(s, s)
  {
  }

  lemma SameThrough(a: State, b: State, c: State)
    requires SameClient(a, b) && SameClient(b, c)
    ensures SameClient(a, c)
  {
  }

  // ------------------------------------------------------------ the user store

  /** Only users on the list have live sessions, and nobody has an empty set of them. */
  ghost predicate StoreSound(s: Store) {
    forall cn :: cn in s.sessions ==> cn in s.users && s.sessions[cn] != {}
  }

  lemma ConnectedSound(s: Store, cn: string, serial: string, cid: string)
    requires StoreSound(s)
    ensures StoreSound(Connected(s, cn, serial, cid)) && StoreSound(Released(s, cn, cid))
  {
  }

  lemma ListedSound(s: Store, u: User, list: seq<User>)
    requires StoreSound(s)
    ensures StoreSound(Applied(s, u)) && StoreSound(Replaced(s, list))
  {
    hide Listed;
  }

  lemma {:induction false} StoreSoundAfter(s: State, inputs: seq<Input>, n: nat)
    requires n <= |inputs| && StoreSound(s.store)
    ensures StoreSound(After(s, inputs, n).store)
  {
    hide StoreSound, Connected, Released, Applied, Replaced, PendingAfter;
    if n > 0 {
      StoreSoundAfter(s, inputs, n - 1);
      var before := After(s, inputs, n - 1);
      match inputs[n - 1]
      case Apply(u) => ListedSound(before.store, u, []);
      case Replace(us) => ListedSound(before.store, User("", false, ""), us);
      case Heard(line) =>
        if before.pending.env.Some? {
          var env := before.pending.env.value;
          ConnectedSound(before.store, Get(env, "common_name"), Get(env, "tls_serial_0"), before.pending.cid);
        }
    }
  }
}

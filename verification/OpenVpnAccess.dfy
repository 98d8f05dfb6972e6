/**
 * Who gets in over the OpenVPN management stream (backend/openvpn/users.go,
 * backend/openvpn/mgmt.go), told from the stream and the panel's changes alone.
 */
module OpenVpnAccess {
  import opened Wrappers
  import opened OpenVpnMgmt

  /** An entry of a full list about `cn`: the last one that wants them. */
  ghost predicate LastWanted(users: seq<User>, cn: string, j: int) {
    && 0 <= j < |users| && users[j].email == cn && users[j].wanted
    && (forall k :: j < k < |users| ==> !(users[k].email == cn && users[k].wanted))
  }

  /** A change that puts `cn` on the list, or keeps them there, with this serial. */
  ghost predicate Pins(input: Input, cn: string, serial: string) {
    match input
    case Apply(u) => u.email == cn && u.wanted && u.serial == serial
    case Replace(users) => exists j :: LastWanted(users, cn, j) && users[j].serial == serial
    case Heard(_) => false
  }

  /** A change that decides about `cn`: one of their own, or a full list. */
  predicate Decides(input: Input, cn: string) {
    (input.Apply? && input.user.email == cn) || input.Replace?
  }

  /** The last word about `cn` among the first `n` inputs: on the list with this serial. */
  ghost predicate Pinned(inputs: seq<Input>, n: nat, cn: string, serial: string)
    requires n <= |inputs|
  {
    exists i :: 0 <= i < n && Pins(inputs[i], cn, serial) && forall j :: i < j < n ==> !Decides(inputs[j], cn)
  }

  /** The list holds the serial of each user's last wanted entry. */
  ghost predicate ListsLast(list: map<string, string>, users: seq<User>, cn: string) {
    && (cn in list ==> exists j :: LastWanted(users, cn, j))
    && (forall j :: LastWanted(users, cn, j) ==> cn in list && list[cn] == users[j].serial)
  }

  lemma {:induction false} ListedAre(users: seq<User>, n: nat, cn: string)
    requires n <= |users| && cn != ""
    ensures ListsLast(Listed(users, n), users[..n], cn)
  {
    if n > 0 {
      ListedAre(users, n - 1, cn);
      ListsOneMore(Listed(users, n - 1), users[..n - 1], users[n - 1], cn);
      assert users[..n] == users[..n - 1] + [users[n - 1]];
      hide ListsLast;
    }
  }

  lemma ListsOneMore(list: map<string, string>, users: seq<User>, last: User, cn: string)
    requires ListsLast(list, users, cn) && cn != ""
    ensures ListsLast(if last.wanted && last.email != "" then list[last.email := last.serial] else list, users + [last], cn)
  {
    var all := users + [last];
    if last.email == cn && last.wanted {
      assert all[|users|] == last;
      assert LastWanted(all, cn, |users|);
      assert forall j :: LastWanted(all, cn, j) ==> j == |users|;
    } else {
      forall j ensures LastWanted(all, cn, j) <==> LastWanted(users, cn, j) {
        LastWantedBefore(users, last, cn, j);
      }
      assert forall j :: LastWanted(users, cn, j) ==> all[j] == users[j];
    }
  }

  lemma LastWantedBefore(users: seq<User>, last: User, cn: string, j: int)
    requires !(last.email == cn && last.wanted)
    ensures LastWanted(users + [last], cn, j) <==> LastWanted(users, cn, j)
  {
    var all := users + [last];
    assert forall k :: 0 <= k < |users| ==> all[k] == users[k];
    assert all[|users|] == last;
  }

  lemma {:induction false} NobodyListedUnnamed(users: seq<User>, n: nat)
    requires n <= |users|
    ensures "" !in Listed(users, n)
  {
    if n > 0 {
      NobodyListedUnnamed(users, n - 1);
    }
  }

  /** One input's effect on the list, as far as `cn` is concerned. */
  lemma ListAfter(s: State, input: Input, cn: string)
    requires cn != ""
    ensures var users := Next(s, input).store.users;
            if Decides(input, cn) then forall serial :: (cn in users && users[cn] == serial <==> Pins(input, cn, serial))
            else (cn in users <==> cn in s.store.users) && (cn in users ==> users[cn] == s.store.users[cn])
  {
    match input
    case Apply(u) =>
    case Heard(line) =>
    case Replace(users) =>
      ListedAre(users, |users|, cn);
      assert users[..|users|] == users;
      hide Listed, LastWanted;
  }

  lemma {:induction false} UnnamedNeverListed(s: State, inputs: seq<Input>, n: nat)
    requires n <= |inputs| && "" !in s.store.users
    ensures "" !in After(s, inputs, n).store.users
  {
    if n > 0 {
      UnnamedNeverListed(s, inputs, n - 1);
      if inputs[n - 1].Replace? {
        NobodyListedUnnamed(inputs[n - 1].users, |inputs[n - 1].users|);
      }
      hide Listed;
    }
  }

  /** The list is what the panel said last about everybody. */
  lemma {:induction false} ListIsLastWord(s: State, inputs: seq<Input>, n: nat, cn: string, serial: string)
    requires n <= |inputs| && s.store.users == map[] && cn != ""
    ensures var users := After(s, inputs, n).store.users;
            cn in users && users[cn] == serial <==> Pinned(inputs, n, cn, serial)
  {
    if n > 0 {
      ListIsLastWord(s, inputs, n - 1, cn, serial);
      ListAfter(After(s, inputs, n - 1), inputs[n - 1], cn);
      PinnedStep(inputs, n, cn, serial);
      hide Next, Pins, Pinned;
    }
  }

  lemma PinnedStep(inputs: seq<Input>, n: nat, cn: string, serial: string)
    requires 0 < n <= |inputs|
    ensures Decides(inputs[n - 1], cn) ==> (Pinned(inputs, n, cn, serial) <==> Pins(inputs[n - 1], cn, serial))
    ensures !Decides(inputs[n - 1], cn) ==> (Pinned(inputs, n, cn, serial) <==> Pinned(inputs, n - 1, cn, serial))
  {
    assert Pins(inputs[n - 1], cn, serial) ==> Decides(inputs[n - 1], cn);
    hide Pins, Decides;
    if i :| 0 <= i < n && Pins(inputs[i], cn, serial) && forall j :: i < j < n ==> !Decides(inputs[j], cn) {
      assert i < n - 1 ==> !Decides(inputs[n - 1], cn);
      assert i < n - 1 ==> Pinned(inputs, n - 1, cn, serial);
    }
    if Pinned(inputs, n - 1, cn, serial) && !Decides(inputs[n - 1], cn) {
      var i :| 0 <= i < n - 1 && Pins(inputs[i], cn, serial) && forall j :: i < j < n - 1 ==> !Decides(inputs[j], cn);
      assert forall j :: i < j < n ==> !Decides(inputs[j], cn);
    }
  }

  /** Input `n` ends a connect block of `cid`. */
  ghost predicate EndsConnect(inputs: seq<Input>, n: nat, cid: string)
    requires n < |inputs|
  {
    var h := HeaderOf(inputs, n);
    LineOf(inputs[n]).EnvEnd? && h >= 0 && LineOf(inputs[h]).Connect? && LineOf(inputs[h]).cid == cid
  }

  /**
   * The end of every connect or re-authentication block is answered with its own
   * ids, and the client is let in if and only if the panel's last word about the
   * common name of the block put them on the list, with no serial or with the one
   * that the certificate has.
   */
  lemma AllowedWhen(s: State, inputs: seq<Input>, n: nat, cid: string)
    requires n < |inputs| && EndsConnect(inputs, n, cid) && cid != ""
    requires s.pending == NOTHING && s.store.users == map[]
    ensures var h := HeaderOf(inputs, n);
            var env := EnvironmentOf(inputs, h, n);
            var cn, serial, out := Get(env, "common_name"), Get(env, "tls_serial_0"), OutputAt(s, inputs, n);
            && out.Reply? && out.cid == cid && out.kid == LineOf(inputs[h]).kid
            && (out.allowed <==> cn != "" && (Pinned(inputs, n, cn, "") || Pinned(inputs, n, cn, serial)))
  {
    EveryLine(s, inputs, n);
    hide HeaderOf, EnvironmentOf, After, OutputAt, Pinned;
    var h := HeaderOf(inputs, n);
    var env := EnvironmentOf(inputs, h, n);
    var cn := Get(env, "common_name");
    UnnamedNeverListed(s, inputs, n);
    if cn != "" {
      ListIsLastWord(s, inputs, n, cn, "");
      ListIsLastWord(s, inputs, n, cn, Get(env, "tls_serial_0"));
    }
  }

  // ------------------------------------------------------------ live sessions

  /** Input `n` ends a block of `cid` whose environment names `cn`. */
  ghost predicate EndsBlock(inputs: seq<Input>, n: nat, cn: string, cid: string)
    requires n < |inputs|
  {
    var h := HeaderOf(inputs, n);
    && LineOf(inputs[n]).EnvEnd? && h >= 0 && IsHeader(LineOf(inputs[h])) && LineOf(inputs[h]).cid == cid
    && Get(EnvironmentOf(inputs, h, n), "common_name") == cn
  }

  /** A client is let in. */
  ghost predicate Admits(s: State, inputs: seq<Input>, n: nat, cn: string, cid: string)
    requires n < |inputs|
  {
    EndsBlock(inputs, n, cn, cid) && OutputAt(s, inputs, n).Reply? && OutputAt(s, inputs, n).allowed
  }

  /** A client disconnects, or its user is taken off the list. */
  ghost predicate Drops(inputs: seq<Input>, n: nat, cn: string, cid: string)
    requires n < |inputs|
  {
    match inputs[n]
    case Heard(_) => EndsBlock(inputs, n, cn, cid) && LineOf(inputs[HeaderOf(inputs, n)]).Disconnect?
    case Apply(u) => u.email == cn && !u.wanted
    case Replace(users) => forall j :: !LastWanted(users, cn, j)
  }

  /** What a block's end does to the sessions of a name. */
  lemma SessionsAfterEnd(s: State, line: Line, cn: string, cid: string)
    requires cid != ""
    ensures var p := s.pending;
            var mine := line.EnvEnd? && p.cid == cid && p.env.Some? && Get(p.env.value, "common_name") == cn;
            cid in Sessions(Handled(s, line).store, cn)
            <==> if mine && p.disconnect then false
                 else cid in Sessions(s.store, cn) || (mine && OutputOf(s, line).Reply? && OutputOf(s, line).allowed)
  {
    hide Authorized, PendingAfter, Get;
  }

  lemma SessionsAfterChange(s: State, input: Input, cn: string, cid: string)
    requires StoreSound(s.store) && !input.Heard? && cn != ""
    ensures var gone := match input
              case Apply(u) => u.email == cn && !u.wanted
              case Replace(users) => (forall j :: !LastWanted(users, cn, j))
              case Heard(_) => false;
            cid in Sessions(Next(s, input).store, cn) <==> cid in Sessions(s.store, cn) && !gone
  {
    if input.Replace? {
      ListedAre(input.users, |input.users|, cn);
      assert input.users[..|input.users|] == input.users;
      hide Listed, LastWanted;
    }
  }

  lemma BlockIsPending(s: State, inputs: seq<Input>, n: nat, cn: string, cid: string)
    requires n < |inputs| && s.pending == NOTHING && cid != ""
    ensures var p, line := After(s, inputs, n).pending, LineOf(inputs[n]);
            var mine := line.EnvEnd? && p.cid == cid && p.env.Some? && Get(p.env.value, "common_name") == cn;
            && (mine <==> EndsBlock(inputs, n, cn, cid))
            && (mine ==> (p.disconnect <==> LineOf(inputs[HeaderOf(inputs, n)]).Disconnect?))
  {
    PendingIsOpenBlock(s, inputs, n);
    if HeaderOf(inputs, n) >= 0 {
      HeaderIsOne(inputs, n);
    }
    hide After, HeaderOf, EnvironmentOf, Get;
  }

  lemma SessionsStep(s: State, inputs: seq<Input>, n: nat, cn: string, cid: string)
    requires n < |inputs| && s.pending == NOTHING && StoreSound(s.store) && cn != "" && cid != ""
    ensures cid in Sessions(After(s, inputs, n + 1).store, cn)
       <==> !Drops(inputs, n, cn, cid) && (Admits(s, inputs, n, cn, cid) || cid in Sessions(After(s, inputs, n).store, cn))
  {
    var now, input := After(s, inputs, n), inputs[n];
    assert After(s, inputs, n + 1) == Next(now, input);
    StoreSoundAfter(s, inputs, n);
    BlockIsPending(s, inputs, n, cn, cid);
    if input.Heard? {
      SessionsAfterEnd(now, input.line, cn, cid);
    } else {
      SessionsAfterChange(now, input, cn, cid);
    }
    hide After, HeaderOf, EnvironmentOf, Get, Sessions, StoreSound, LastWanted, EndsBlock, Applied, Replaced, StoreAfter, PendingAfter;
  }

  /** The first `n` inputs leave a client let in: it was, and nothing has dropped it since. */
  ghost predicate Live(s: State, inputs: seq<Input>, n: nat, cn: string, cid: string)
    requires n <= |inputs|
  {
    exists i :: 0 <= i < n && Admits(s, inputs, i, cn, cid) && forall j :: i <= j < n ==> !Drops(inputs, j, cn, cid)
  }

  lemma LiveStep(s: State, inputs: seq<Input>, n: nat, cn: string, cid: string)
    requires n < |inputs|
    ensures Live(s, inputs, n + 1, cn, cid)
       <==> !Drops(inputs, n, cn, cid) && (Admits(s, inputs, n, cn, cid) || Live(s, inputs, n, cn, cid))
  {
    hide Admits, Drops;
    if i :| 0 <= i < n + 1 && Admits(s, inputs, i, cn, cid) && forall j :: i <= j < n + 1 ==> !Drops(inputs, j, cn, cid) {
      assert i < n ==> Live(s, inputs, n, cn, cid);
    }
    if Live(s, inputs, n, cn, cid) && !Drops(inputs, n, cn, cid) {
      var i :| 0 <= i < n && Admits(s, inputs, i, cn, cid) && forall j :: i <= j < n ==> !Drops(inputs, j, cn, cid);
      assert Admits(s, inputs, i, cn, cid) && forall j :: i <= j < n + 1 ==> !Drops(inputs, j, cn, cid);
    }
  }

  /**
   * The sessions counted for a user are exactly the clients that were let in under
   * their name and have neither disconnected nor lost their place on the list.
   */
  lemma {:induction false} SessionsAreLive(s: State, inputs: seq<Input>, n: nat, cn: string, cid: string)
    requires n <= |inputs| && s.pending == NOTHING && s.store == Store(map[], map[]) && cn != "" && cid != ""
    ensures cid in Sessions(After(s, inputs, n).store, cn) <==> Live(s, inputs, n, cn, cid)
  {
    if n > 0 {
      hide After, Live, Sessions, Admits, Drops;
      SessionsAreLive(s, inputs, n - 1, cn, cid);
      SessionsStep(s, inputs, n - 1, cn, cid);
      LiveStep(s, inputs, n - 1, cn, cid);
    }
  }
}

/**
 * L2TP billing end to end: callers come and go on recycled ppp interfaces, some
 * killed without a final record; the node polls; the panel reads.
 *
 * A session is live, or has left its final record, or was killed: never two at
 * once. A poll is one step.
 */
module L2tpBilling {
  import opened Traffic
  import opened RunningTotals
  import opened L2tpStats

  datatype Stage = Live | Ended | Settled | Killed

  /**
   * `polled` is what polls have seen of the session, `based` marks the one its
   * interface's base line was read from, and `born` is the order of arrival.
   */
  datatype Session = Session(user: Name, ifname: Name, bytes: Bytes, polled: Bytes, stage: Stage, based: bool, born: nat) {
    predicate Open() {
      stage.Live? || stage.Ended?
    }
  }

  datatype World = World(
    sessions: map<Name, Session>,  // every session there ever was
    seen: map<Name, Bytes>,
    paid: map<Name, Bytes>,        // what has been put down to each session
    error: map<Name, Bytes>,       // how far that is from what polls saw of it
    money: Money,
    killed: bool,                  // whether any session was ever killed
    misordered: bool)              // whether any poll took a base line's session late

  datatype Event =
    | Connect(sid: Name, user: Name, ifname: Name)
    | Move(sid: Name, moved: Bytes)
    | Disconnect(sid: Name)
    | Kill(sid: Name)
    | Poll(order: seq<Name>)
    | Reads(read: Read)

  const INITIAL := World(map[], map[], map[], map[], NO_MONEY, false, false)

  function RecordOf(s: Session): Record {
    Record(s.ifname, s.user, s.bytes, s.stage.Live?)
  }

  predicate Among(w: World, order: seq<Name>) {
    forall k :: 0 <= k < |order| ==> order[k] in w.sessions
  }

  function Records(w: World, order: seq<Name>): (r: seq<Record>)
    requires Among(w, order)
    ensures |r| == |order| && forall k :: 0 <= k < |order| ==> r[k] == RecordOf(w.sessions[order[k]])
  {
    seq(|order|, k requires 0 <= k < |order| => RecordOf(w.sessions[order[k]]))
  }

  /** Each ended session's record, then each live session's counters, all as they are now, in any order. */
  ghost predicate Complete(w: World, order: seq<Name>) {
    && Among(w, order)
    && (forall k :: 0 <= k < |order| ==> w.sessions[order[k]].Open())
    && (forall j, k :: 0 <= j < k < |order| ==> order[j] != order[k])
    && (forall j, k :: 0 <= j < k < |order| && w.sessions[order[j]].stage.Live? ==> w.sessions[order[k]].stage.Live?)
    && (forall sid :: sid in w.sessions && w.sessions[sid].Open() ==> sid in order)
  }

  /** Another record of the same interface is taken before this one. */
  ghost predicate Preceded(w: World, order: seq<Name>, sid: Name)
    requires Among(w, order) && sid in w.sessions
  {
    exists j, k :: 0 <= j < k < |order| && order[k] == sid && w.sessions[order[j]].ifname == w.sessions[sid].ifname
  }

  /** No record comes between an interface's base line and the session it was read from. */
  ghost predicate OwnersFirst(w: World, order: seq<Name>)
    requires Among(w, order)
  {
    forall sid :: sid in w.sessions && w.sessions[sid].based ==> !Preceded(w, order, sid)
  }

  ghost predicate Chronological(w: World, order: seq<Name>)
    requires Among(w, order)
  {
    forall j, k :: 0 <= j < k < |order| && w.sessions[order[j]].ifname == w.sessions[order[k]].ifname ==>
      w.sessions[order[j]].born < w.sessions[order[k]].born
  }

  /**
   * How far a poll is off for one session: a base line's session that comes late
   * pays the base line again, and whoever comes first against a stranger's base
   * line is let off that much, unless a lower live counter gives it away.
   */
  ghost function ErrorOf(w: World, order: seq<Name>, sid: Name, d: Direction): int
    requires Among(w, order) && sid in w.sessions
  {
    var s, base := w.sessions[sid], At(w.seen, w.sessions[sid].ifname, d);
    if !s.Open() then 0
    else if Preceded(w, order, sid) then (if s.based then base else 0)
    else if s.based || (s.stage.Live? && s.bytes.Of(d) < base) then 0
    else if s.bytes.Of(d) < base then -s.bytes.Of(d)
    else -base
  }

  predicate Free(w: World, ifname: Name) {
    forall sid :: sid in w.sessions && w.sessions[sid].ifname == ifname ==> !w.sessions[sid].stage.Live?
  }

  function Staged(w: World, sid: Name, stage: Stage): map<Name, Session>
    requires sid in w.sessions
  {
    w.sessions[sid := w.sessions[sid].(stage := stage)]
  }

  function AfterPoll(s: Session): Session {
    s.(polled := if s.Open() then s.bytes else s.polled,
       based := s.stage.Live?,
       stage := if s.stage.Ended? then Settled else s.stage)
  }

  ghost function Polled(w: World, order: seq<Name>): World
    requires Among(w, order)
  {
    var records := Records(w, order);
    World(map sid | sid in w.sessions :: AfterPoll(w.sessions[sid]),
          BaseLines(w.seen, records),
          PaidUpTo(w.paid, w.seen, records, order, |order|),
          map sid | sid in w.sessions ::
            Bytes(At(w.error, sid, Uplink) + ErrorOf(w, order, sid, Uplink), At(w.error, sid, Downlink) + ErrorOf(w, order, sid, Downlink)),
          w.money, w.killed, w.misordered || !OwnersFirst(w, order))
  }

  /** Events that make no sense in the current state leave it alone. */
  ghost function Next(w: World, e: Event): World {
    match e
    case Connect(sid, user, ifname) =>
      if sid !in w.sessions && Free(w, ifname) then
        Joined(w, sid, user, ifname)
      else w
    case Move(sid, b) =>
      if sid in w.sessions && w.sessions[sid].stage.Live? && b.NonNegative() then
        var s := w.sessions[sid];
        w.(sessions := w.sessions[sid := s.(bytes := Bytes(s.bytes.rx + b.rx, s.bytes.tx + b.tx))])
      else w
    case Disconnect(sid) =>
      if sid in w.sessions && w.sessions[sid].stage.Live? then w.(sessions := Staged(w, sid, Ended)) else w
    case Kill(sid) =>
      if sid in w.sessions && w.sessions[sid].stage.Live? then w.(sessions := Staged(w, sid, Killed), killed := true) else w
    case Poll(order) =>
      if Complete(w, order) then
        Polled(w, order).(money := Absorbed(w.money, Tallied(w.seen, Records(w, order)).growth))
      else w
    case Reads(read) => w.(money := Reading(w.money, read))
  }

  function Joined(w: World, sid: Name, user: Name, ifname: Name): World {
    w.(sessions := w.sessions[sid := Session(user, ifname, Bytes(0, 0), Bytes(0, 0), Live, false, |w.sessions|)],
       paid := w.paid[sid := Bytes(0, 0)], error := w.error[sid := Bytes(0, 0)])
  }

  ghost function After(events: seq<Event>, n: nat): World
    requires n <= |events|
  {
    if n == 0 then INITIAL else Next(After(events, n - 1), events[n - 1])
  }

  ghost function MovedBySession(w: World): map<Name, Bytes> {
    map sid | sid in w.sessions :: w.sessions[sid].bytes
  }

  ghost function PolledBySession(w: World): map<Name, Bytes> {
    map sid | sid in w.sessions :: w.sessions[sid].polled
  }

  ghost function OwnerOf(w: World): map<Name, Name> {
    map sid | sid in w.sessions :: w.sessions[sid].user
  }

  // -------------------------------------------------- what each session is put down for

  /** Payments per session after the first `n` records. */
  function PaidUpTo(paid: map<Name, Bytes>, seen: map<Name, Bytes>, records: seq<Record>, sids: seq<Name>, n: nat): map<Name, Bytes>
    requires n <= |records| == |sids|
  {
    if n == 0 then paid
    else
      var now := Fold(Tally(seen, map[]), records, n - 1).seen;
      Added(PaidUpTo(paid, seen, records, sids, n - 1), sids[n - 1],
            Delta(now, records[n - 1], Uplink), Delta(now, records[n - 1], Downlink))
  }

  /** A poll's growth per user is what it adds to the payments for their sessions. */
  lemma {:induction false} FoldBills(paid: map<Name, Bytes>, seen: map<Name, Bytes>, records: seq<Record>, sids: seq<Name>,
                                     n: nat, owner: map<Name, Name>, who: Name, d: Direction)
    requires n <= |records| == |sids|
    requires forall k :: 0 <= k < |sids| ==> sids[k] in owner && owner[sids[k]] == records[k].user
    ensures At(Fold(Tally(seen, map[]), records, n).growth, who, d)
         == TotalOf(PaidUpTo(paid, seen, records, sids, n), owner, who, d) - TotalOf(paid, owner, who, d)
  {
    if n > 0 {
      var before, r := Fold(Tally(seen, map[]), records, n - 1), records[n - 1];
      var soFar := PaidUpTo(paid, seen, records, sids, n - 1);
      FoldBills(paid, seen, records, sids, n - 1, owner, who, d);
      var up, down := Delta(before.seen, r, Uplink), Delta(before.seen, r, Downlink);
      TotalOfUpdate(soFar, owner, who, sids[n - 1], Added(soFar, sids[n - 1], up, down)[sids[n - 1]], d);
      AddedAt(before.growth, r.user, up, down, who, d);
      hide TotalOf, Delta;
    }
  }

  lemma PaidOneMore(paid: map<Name, Bytes>, seen: map<Name, Bytes>, records: seq<Record>, sids: seq<Name>, n: nat, sid: Name, d: Direction)
    requires n < |records| == |sids|
    ensures var due := Delta(Fold(Tally(seen, map[]), records, n).seen, records[n], d);
            At(PaidUpTo(paid, seen, records, sids, n + 1), sid, d)
            == At(PaidUpTo(paid, seen, records, sids, n), sid, d) + (if sid == sids[n] then due else 0)
  {
    hide Fold, Delta;
  }

  lemma {:induction false} PaidKeys(paid: map<Name, Bytes>, seen: map<Name, Bytes>, records: seq<Record>, sids: seq<Name>, n: nat)
    requires n <= |records| == |sids| && forall k :: 0 <= k < |sids| ==> sids[k] in paid
    ensures PaidUpTo(paid, seen, records, sids, n).Keys == paid.Keys
  {
    if n > 0 {
      PaidKeys(paid, seen, records, sids, n - 1);
    }
  }

  lemma {:induction false} PaidElsewhere(paid: map<Name, Bytes>, seen: map<Name, Bytes>, records: seq<Record>, sids: seq<Name>,
                                         n: nat, sid: Name, d: Direction)
    requires n <= |records| == |sids| && forall k :: 0 <= k < n ==> sids[k] != sid
    ensures At(PaidUpTo(paid, seen, records, sids, n), sid, d) == At(paid, sid, d)
  {
    if n > 0 {
      PaidElsewhere(paid, seen, records, sids, n - 1, sid, d);
      PaidOneMore(paid, seen, records, sids, n - 1, sid, d);
      hide PaidUpTo;
    }
  }

  /** Each session is put down for its own record and nothing else. */
  lemma {:induction false} PaidOwn(paid: map<Name, Bytes>, seen: map<Name, Bytes>, records: seq<Record>, sids: seq<Name>,
                                   n: nat, k: nat, d: Direction)
    requires k < n <= |records| == |sids| && forall i, j :: 0 <= i < j < |sids| ==> sids[i] != sids[j]
    ensures At(PaidUpTo(paid, seen, records, sids, n), sids[k], d)
         == At(paid, sids[k], d) + Delta(Fold(Tally(seen, map[]), records, k).seen, records[k], d)
  {
    PaidOneMore(paid, seen, records, sids, n - 1, sids[k], d);
    if k == n - 1 {
      PaidElsewhere(paid, seen, records, sids, k, sids[k], d);
    } else {
      PaidOwn(paid, seen, records, sids, n - 1, k, d);
    }
    hide PaidUpTo, Fold, Delta;
  }

  /** The base line a record is measured against: gone once an earlier final record used it up. */
  lemma {:induction false} BaseAt(t: Tally, records: seq<Record>, n: nat, ifname: Name)
    requires n <= |records| && forall j :: 0 <= j < n && records[j].ifname == ifname ==> !records[j].live
    ensures (exists j :: 0 <= j < n && records[j].ifname == ifname) ==> ifname !in Fold(t, records, n).seen
    ensures !(exists j :: 0 <= j < n && records[j].ifname == ifname) ==>
              && (ifname in Fold(t, records, n).seen <==> ifname in t.seen)
              && (ifname in t.seen ==> Fold(t, records, n).seen[ifname] == t.seen[ifname])
  {
    if n > 0 {
      BaseAt(t, records, n - 1, ifname);
    }
  }

  /** After the last record of an interface, its base line is that record's, if it is live. */
  lemma {:induction false} BaseAfter(t: Tally, records: seq<Record>, n: nat, k: nat)
    requires k < n <= |records| && records[k].live
    requires forall j :: k < j < n ==> records[j].ifname != records[k].ifname
    ensures records[k].ifname in Fold(t, records, n).seen
    ensures Fold(t, records, n).seen[records[k].ifname] == records[k].bytes
  {
    if k < n - 1 {
      BaseAfter(t, records, n - 1, k);
    }
  }

  // ---------------------------------------------------------------- invariant

  /** Counters, base lines and stages of one session fit together. */
  ghost predicate Fine(w: World, s: Session) {
    && s.polled.NonNegative() && s.polled.AtMost(s.bytes) && s.born < |w.sessions|
    && (s.based ==> !s.stage.Settled? && s.ifname in w.seen && w.seen[s.ifname] == s.polled)
    && (!s.based && s.Open() ==> s.polled == Bytes(0, 0))
    && (s.stage.Settled? ==> s.polled == s.bytes)
    && (s.stage.Killed? ==> w.killed)
  }

  /**
   * A session is put down for what polls saw of it and the error made about it:
   * none in its disfavour while every poll was in order, and none at all if
   * nobody was killed either.
   */
  ghost predicate PaidRight(w: World, s: Session, paid: Bytes, error: Bytes) {
    && paid.rx == s.polled.rx + error.rx && paid.tx == s.polled.tx + error.tx
    && (!w.misordered ==> error.rx <= 0 && error.tx <= 0)
    && (!w.misordered && !w.killed ==> error == Bytes(0, 0))
  }

  /** Two sessions of one interface: at most one is live, and the one the base line is from came first. */
  ghost predicate Apart(a: Session, b: Session) {
    a.ifname == b.ifname ==>
      && !(a.stage.Live? && b.stage.Live?)
      && !(a.based && b.based)
      && (a.based && b.Open() ==> !a.stage.Live? && a.born < b.born)
  }

  /** Every base line was read from a session. */
  ghost predicate Owned(w: World) {
    forall i :: i in w.seen ==> exists sid :: sid in w.sessions && w.sessions[sid].based && w.sessions[sid].ifname == i
  }

  ghost predicate Sound(w: World) {
    && w.paid.Keys == w.sessions.Keys == w.error.Keys
    && (forall sid :: sid in w.sessions ==> Fine(w, w.sessions[sid]))
    && (forall sid :: sid in w.sessions ==> PaidRight(w, w.sessions[sid], w.paid[sid], w.error[sid]))
    && (forall a, b :: a in w.sessions && b in w.sessions && a != b ==> Apart(w.sessions[a], w.sessions[b]))
    && Owned(w)
  }

  lemma ConnectKeepsSound(w: World, sid: Name, user: Name, ifname: Name)
    requires Sound(w) && sid !in w.sessions && Free(w, ifname)
    ensures Sound(Joined(w, sid, user, ifname))
  {
    var w' := Joined(w, sid, user, ifname);
    ConnectKeepsApart(w, sid, user, ifname);
    ConnectKeepsOwned(w, sid, user, ifname);
    ConnectKeepsFine(w, sid, user, ifname);
    ConnectKeepsPaidRight(w, sid, user, ifname);
    hide Apart, Owned, Fine, PaidRight;
  }

  lemma ConnectKeepsPaidRight(w: World, sid: Name, user: Name, ifname: Name)
    requires Sound(w) && sid !in w.sessions
    ensures var w' := Joined(w, sid, user, ifname);
            && w'.paid.Keys == w'.sessions.Keys == w'.error.Keys
            && forall s :: s in w'.sessions ==> PaidRight(w', w'.sessions[s], w'.paid[s], w'.error[s])
  {
    hide Apart, Owned, Fine;
    var w' := Joined(w, sid, user, ifname);
    forall s | s in w'.sessions ensures PaidRight(w', w'.sessions[s], w'.paid[s], w'.error[s]) {
      if s != sid {
        assert PaidRight(w, w.sessions[s], w.paid[s], w.error[s]);
      }
    }
  }

  lemma ConnectKeepsFine(w: World, sid: Name, user: Name, ifname: Name)
    requires Sound(w) && sid !in w.sessions
    ensures var w' := Joined(w, sid, user, ifname);
            forall s :: s in w'.sessions ==> Fine(w', w'.sessions[s])
  {
    var w' := Joined(w, sid, user, ifname);
    assert |w'.sessions| == |w.sessions| + 1;
    hide Apart, Owned, PaidRight;
    forall s | s in w'.sessions ensures Fine(w', w'.sessions[s]) {
      if s != sid {
        assert Fine(w, w.sessions[s]);
      }
    }
  }

  lemma ConnectKeepsApart(w: World, sid: Name, user: Name, ifname: Name)
    requires Sound(w) && sid !in w.sessions && Free(w, ifname)
    ensures var sessions := Joined(w, sid, user, ifname).sessions;
            forall a, b :: a in sessions && b in sessions && a != b ==> Apart(sessions[a], sessions[b])
  {
    hide PaidRight, Owned;
    var sessions := Joined(w, sid, user, ifname).sessions;
    forall a, b | a in sessions && b in sessions && a != b ensures Apart(sessions[a], sessions[b]) {
      assert a != sid ==> Fine(w, w.sessions[a]);
      if a != sid && b != sid {
        assert Apart(w.sessions[a], w.sessions[b]);
      }
    }
  }

  lemma ConnectKeepsOwned(w: World, sid: Name, user: Name, ifname: Name)
    requires Owned(w) && sid !in w.sessions
    ensures Owned(Joined(w, sid, user, ifname))
  {
    var w' := Joined(w, sid, user, ifname);
    forall i | i in w'.seen ensures exists s :: s in w'.sessions && w'.sessions[s].based && w'.sessions[s].ifname == i {
      var s :| s in w.sessions && w.sessions[s].based && w.sessions[s].ifname == i;
      assert w'.sessions[s].based && w'.sessions[s].ifname == i;
    }
  }

  /** Steps of one live session between polls. */
  ghost predicate OneSessionSteps(w: World, w': World, sid: Name) {
    && sid in w.sessions && w.sessions[sid].stage.Live?
    && w'.seen == w.seen && w'.paid == w.paid && w'.error == w.error && w'.misordered == w.misordered
    && w'.sessions.Keys == w.sessions.Keys && |w'.sessions| == |w.sessions|
    && (forall s :: s in w.sessions && s != sid ==> w'.sessions[s] == w.sessions[s])
    && w'.sessions[sid].(bytes := w.sessions[sid].bytes, stage := Live) == w.sessions[sid]
    && w.sessions[sid].bytes.AtMost(w'.sessions[sid].bytes)
    && !w'.sessions[sid].stage.Settled?
    && (w.killed ==> w'.killed) && (w'.sessions[sid].stage.Killed? ==> w'.killed)
  }

  lemma OneSessionKeepsSound(w: World, w': World, sid: Name)
    requires Sound(w) && OneSessionSteps(w, w', sid)
    ensures Sound(w')
  {
    hide Apart, Owned;
    OneSessionKeepsApart(w, w', sid);
    OneSessionKeepsOwned(w, w', sid);
    forall s | s in w'.sessions
      ensures Fine(w', w'.sessions[s]) && PaidRight(w', w'.sessions[s], w'.paid[s], w'.error[s])
    {
      OneSessionKeepsFine(w, w', sid, s);
    }
    hide Fine, PaidRight;
  }

  lemma OneSessionKeepsFine(w: World, w': World, sid: Name, s: Name)
    requires Sound(w) && OneSessionSteps(w, w', sid) && s in w.sessions
    ensures Fine(w', w'.sessions[s]) && PaidRight(w', w'.sessions[s], w'.paid[s], w'.error[s])
  {
    assert Fine(w, w.sessions[s]) && PaidRight(w, w.sessions[s], w.paid[s], w.error[s]);
    hide Apart, Owned, Sound;
  }

  lemma OneSessionKeepsApart(w: World, w': World, sid: Name)
    requires OneSessionSteps(w, w', sid)
    requires forall a, b :: a in w.sessions && b in w.sessions && a != b ==> Apart(w.sessions[a], w.sessions[b])
    ensures forall a, b :: a in w'.sessions && b in w'.sessions && a != b ==> Apart(w'.sessions[a], w'.sessions[b])
  {
    forall a, b | a in w'.sessions && b in w'.sessions && a != b ensures Apart(w'.sessions[a], w'.sessions[b]) {
      assert Apart(w.sessions[a], w.sessions[b]);
    }
  }

  lemma OneSessionKeepsOwned(w: World, w': World, sid: Name)
    requires Owned(w) && OneSessionSteps(w, w', sid)
    ensures Owned(w')
  {
    forall i | i in w'.seen ensures exists s :: s in w'.sessions && w'.sessions[s].based && w'.sessions[s].ifname == i {
      var s :| s in w.sessions && w.sessions[s].based && w.sessions[s].ifname == i;
      assert w'.sessions[s].based && w'.sessions[s].ifname == i;
    }
  }

  // --------------------------------------------------------------------- poll

  /** The base line the `k`-th record of a poll is measured against. */
  ghost function BaseFor(w: World, order: seq<Name>, k: nat, d: Direction): int
    requires k < |order| && Among(w, order)
  {
    At(Fold(Tally(w.seen, map[]), Records(w, order), k).seen, w.sessions[order[k]].ifname, d)
  }

  lemma PrecededAt(w: World, order: seq<Name>, k: nat)
    requires Complete(w, order) && k < |order|
    ensures Preceded(w, order, order[k])
       <==> exists j :: 0 <= j < k && w.sessions[order[j]].ifname == w.sessions[order[k]].ifname
  {
  }

  lemma FirstOrFresh(w: World, order: seq<Name>, k: nat, d: Direction)
    requires Sound(w) && Complete(w, order) && k < |order|
    ensures BaseFor(w, order, k, d)
         == if Preceded(w, order, order[k]) then 0 else At(w.seen, w.sessions[order[k]].ifname, d)
  {
    var records, i := Records(w, order), w.sessions[order[k]].ifname;
    forall j | 0 <= j < k && records[j].ifname == i ensures !records[j].live {
      assert Apart(w.sessions[order[j]], w.sessions[order[k]]);
    }
    PrecededAt(w, order, k);
    BaseAt(Tally(w.seen, map[]), records, k, i);
    hide Fold, Sound, Complete, Records, Preceded;
    if j :| 0 <= j < k && w.sessions[order[j]].ifname == i {
      assert records[j].ifname == i;
    }
  }

  lemma BaseLineNonNegative(w: World, i: Name)
    requires Sound(w)
    ensures 0 <= At(w.seen, i, Uplink) && 0 <= At(w.seen, i, Downlink)
  {
    if i in w.seen {
      var owner :| owner in w.sessions && w.sessions[owner].based && w.sessions[owner].ifname == i;
      assert Fine(w, w.sessions[owner]);
    }
  }

  /** What a record adds is what polls had not seen of its session, and the error. */
  lemma DueIs(w: World, order: seq<Name>, k: nat, d: Direction)
    requires Sound(w) && Complete(w, order) && k < |order|
    ensures var s := w.sessions[order[k]];
            Delta(Fold(Tally(w.seen, map[]), Records(w, order), k).seen, RecordOf(s), d)
            == s.bytes.Of(d) - s.polled.Of(d) + ErrorOf(w, order, order[k], d)
  {
    var s := w.sessions[order[k]];
    FirstOrFresh(w, order, k, d);
    BaseLineNonNegative(w, s.ifname);
    assert Fine(w, s);
    hide Fold, Sound, Complete, Records, Preceded;
  }

  /** The whole story of a poll for one session. */
  lemma PollPays(w: World, order: seq<Name>, sid: Name, d: Direction)
    requires Sound(w) && Complete(w, order) && sid in w.sessions
    ensures At(Polled(w, order).paid, sid, d)
         == AfterPoll(w.sessions[sid]).polled.Of(d) + At(w.error, sid, d) + ErrorOf(w, order, sid, d)
  {
    assert PaidRight(w, w.sessions[sid], w.paid[sid], w.error[sid]);
    var records := Records(w, order);
    if w.sessions[sid].Open() {
      var k :| 0 <= k < |order| && order[k] == sid;
      DueIs(w, order, k, d);
      hide Fold, PaidUpTo, Delta, Sound, Complete, BaseLines, ErrorOf;
      PaidOwn(w.paid, w.seen, records, order, |order|, k, d);
    } else {
      assert ErrorOf(w, order, sid, d) == 0;
      PaidElsewhere(w.paid, w.seen, records, order, |order|, sid, d);
      hide Fold, PaidUpTo, Delta, Sound, Complete, BaseLines, ErrorOf;
    }
  }

  /** In order, a poll errs only in a session's favour, and only over somebody killed. */
  lemma InOrderErrors(w: World, order: seq<Name>, sid: Name, d: Direction)
    requires Sound(w) && Complete(w, order) && OwnersFirst(w, order) && sid in w.sessions
    ensures ErrorOf(w, order, sid, d) <= 0
    ensures !w.killed ==> ErrorOf(w, order, sid, d) == 0
  {
    var s := w.sessions[sid];
    BaseLineNonNegative(w, s.ifname);
    assert Fine(w, s);
    if s.Open() && s.ifname in w.seen && !s.based && !w.killed {
      OwnerComesBefore(w, order, sid);
    }
    hide Preceded, Sound, Complete;
  }

  /** With nobody killed, whoever a base line was read from is settled in the same poll as anyone else on its interface. */
  lemma OwnerIsThere(w: World, order: seq<Name>, sid: Name) returns (owner: Name)
    requires Sound(w) && Complete(w, order) && sid in w.sessions && w.sessions[sid].Open()
    requires !w.killed && !w.sessions[sid].based && w.sessions[sid].ifname in w.seen
    ensures owner in w.sessions && w.sessions[owner].based && w.sessions[owner].ifname == w.sessions[sid].ifname
    ensures Preceded(w, order, sid) || Preceded(w, order, owner)
  {
    owner :| owner in w.sessions && w.sessions[owner].based && w.sessions[owner].ifname == w.sessions[sid].ifname;
    assert Fine(w, w.sessions[owner]);
    assert sid in order && owner in order;
    var j :| 0 <= j < |order| && order[j] == owner;
    var k :| 0 <= k < |order| && order[k] == sid;
    assert j != k;
  }

  lemma OwnerComesBefore(w: World, order: seq<Name>, sid: Name)
    requires Sound(w) && Complete(w, order) && OwnersFirst(w, order) && sid in w.sessions && w.sessions[sid].Open()
    requires !w.killed && !w.sessions[sid].based && w.sessions[sid].ifname in w.seen
    ensures Preceded(w, order, sid)
  {
    var owner := OwnerIsThere(w, order, sid);
  }

  lemma PaidRightAfterPoll(w: World, w': World, s: Session, paid: Bytes, error: Bytes, paid': Bytes, error': Bytes)
    requires PaidRight(w, s, paid, error) && w'.killed == w.killed && (w.misordered ==> w'.misordered)
    requires paid'.rx == AfterPoll(s).polled.rx + error'.rx && paid'.tx == AfterPoll(s).polled.tx + error'.tx
    requires !w'.misordered ==> error'.rx <= error.rx && error'.tx <= error.tx
    requires !w'.misordered && !w.killed ==> error' == error
    ensures PaidRight(w', AfterPoll(s), paid', error')
  {
    hide AfterPoll;
  }

  lemma ErrorsAfterPoll(w: World, order: seq<Name>, sid: Name)
    requires Sound(w) && Complete(w, order) && sid in w.sessions
    ensures var w' := Polled(w, order);
            && sid in w'.error
            && w'.error[sid] == Bytes(At(w.error, sid, Uplink) + ErrorOf(w, order, sid, Uplink),
                                      At(w.error, sid, Downlink) + ErrorOf(w, order, sid, Downlink))
            && (!w'.misordered ==> w'.error[sid].AtMost(w.error[sid]))
            && (!w'.misordered && !w.killed ==> w'.error[sid] == w.error[sid])
  {
    assert Among(w, order) && sid in w.error;
    hide Complete, OwnersFirst, Polled, ErrorOf, Sound;
    PolledErrors(w, order, sid);
    if OwnersFirst(w, order) {
      InOrderErrors(w, order, sid, Uplink);
      InOrderErrors(w, order, sid, Downlink);
    }
  }

  lemma PolledErrors(w: World, order: seq<Name>, sid: Name)
    requires Among(w, order) && sid in w.sessions
    ensures var w' := Polled(w, order);
            && w'.killed == w.killed && w'.misordered == (w.misordered || !OwnersFirst(w, order))
            && sid in w'.error
            && w'.error[sid] == Bytes(At(w.error, sid, Uplink) + ErrorOf(w, order, sid, Uplink),
                                      At(w.error, sid, Downlink) + ErrorOf(w, order, sid, Downlink))
  {
    hide ErrorOf, OwnersFirst, PaidUpTo, BaseLines, Records, At;
  }

  lemma PollKeepsPaidRight(w: World, order: seq<Name>, sid: Name)
    requires Sound(w) && Complete(w, order) && sid in w.sessions
    ensures var w' := Polled(w, order);
            sid in w'.paid && sid in w'.sessions && sid in w'.error && PaidRight(w', w'.sessions[sid], w'.paid[sid], w'.error[sid])
  {
    PolledShape(w, order);
    ErrorsAfterPoll(w, order, sid);
    PollPays(w, order, sid, Uplink);
    PollPays(w, order, sid, Downlink);
    assert PaidRight(w, w.sessions[sid], w.paid[sid], w.error[sid]);
    var w' := Polled(w, order);
    PolledErrors(w, order, sid);
    hide Sound, Complete, Polled, ErrorOf, AfterPoll, PaidRight;
    PaidRightAfterPoll(w, w', w.sessions[sid], w.paid[sid], w.error[sid], w'.paid[sid], w'.error[sid]);
  }

  /** Afterwards there is a base line for every live session, at its counters. */
  lemma LiveIsBased(w: World, order: seq<Name>, sid: Name)
    requires Sound(w) && Complete(w, order) && sid in w.sessions && w.sessions[sid].stage.Live?
    ensures var seen := BaseLines(w.seen, Records(w, order));
            w.sessions[sid].ifname in seen && seen[w.sessions[sid].ifname] == w.sessions[sid].bytes
  {
    var records := Records(w, order);
    var k :| 0 <= k < |order| && order[k] == sid;
    forall j | k < j < |order| ensures records[j].ifname != records[k].ifname {
      assert Apart(w.sessions[order[j]], w.sessions[sid]);
    }
    BaseAfter(Tally(w.seen, map[]), records, |records|, k);
    hide Sound, Complete, Fold, Records;
    assert records[k].ifname in Present(records);
  }

  lemma BaseIsLive(w: World, order: seq<Name>, i: Name)
    requires Complete(w, order) && i in BaseLines(w.seen, Records(w, order))
    ensures exists sid :: sid in w.sessions && w.sessions[sid].stage.Live? && w.sessions[sid].ifname == i
  {
    var records := Records(w, order);
    hide Fold;
    var k :| 0 <= k < |records| && records[k].live && records[k].ifname == i;
    assert w.sessions[order[k]].stage.Live?;
  }

  lemma FineAfterPoll(w: World, w': World, s: Session)
    requires Fine(w, s) && |w'.sessions| == |w.sessions| && w'.killed == w.killed
    requires s.stage.Live? ==> s.ifname in w'.seen && w'.seen[s.ifname] == s.bytes
    ensures Fine(w', AfterPoll(s))
  {
  }

  lemma PollKeepsFine(w: World, order: seq<Name>, sid: Name)
    requires Sound(w) && Complete(w, order) && sid in w.sessions
    ensures Fine(Polled(w, order), AfterPoll(w.sessions[sid]))
  {
    PolledShape(w, order);
    assert Fine(w, w.sessions[sid]);
    if w.sessions[sid].stage.Live? {
      LiveIsBased(w, order, sid);
    }
    hide Sound, Complete, BaseLines, PaidUpTo, Records, Fine, AfterPoll, ErrorOf, OwnersFirst;
    FineAfterPoll(w, Polled(w, order), w.sessions[sid]);
  }

  lemma PollKeepsApart(a: Session, b: Session)
    requires Apart(a, b)
    ensures Apart(AfterPoll(a), AfterPoll(b))
  {
  }

  lemma PollKeepsOwned(w: World, order: seq<Name>)
    requires Complete(w, order)
    ensures Owned(Polled(w, order))
  {
    var w' := Polled(w, order);
    hide BaseLines, PaidUpTo, Records, ErrorOf, OwnersFirst;
    forall i | i in w'.seen ensures exists s :: s in w'.sessions && w'.sessions[s].based && w'.sessions[s].ifname == i {
      BaseIsLive(w, order, i);
      var s :| s in w.sessions && w.sessions[s].stage.Live? && w.sessions[s].ifname == i;
      assert w'.sessions[s].based && w'.sessions[s].ifname == i;
    }
  }

  lemma PolledShape(w: World, order: seq<Name>)
    requires Sound(w) && Complete(w, order)
    ensures var w' := Polled(w, order);
            && w'.sessions.Keys == w.sessions.Keys == w'.paid.Keys == w'.error.Keys
            && |w'.sessions| == |w.sessions|
            && (forall sid :: sid in w.sessions ==> w'.sessions[sid] == AfterPoll(w.sessions[sid]))
  {
    var w' := Polled(w, order);
    PaidKeys(w.paid, w.seen, Records(w, order), order, |order|);
    hide BaseLines, PaidUpTo, AfterPoll, ErrorOf, OwnersFirst, Fine, PaidRight, Apart, Owned;
    assert |w'.sessions.Keys| == |w'.sessions| && |w.sessions.Keys| == |w.sessions|;
  }

  lemma PollKeepsAllApart(w: World, order: seq<Name>)
    requires Sound(w) && Complete(w, order)
    ensures var sessions := Polled(w, order).sessions;
            forall a, b :: a in sessions && b in sessions && a != b ==> Apart(sessions[a], sessions[b])
  {
    PolledShape(w, order);
    hide Polled, Complete, Owned, Fine, PaidRight, Apart, AfterPoll;
    forall a, b | a in w.sessions && b in w.sessions && a != b ensures Apart(AfterPoll(w.sessions[a]), AfterPoll(w.sessions[b])) {
      PollKeepsApart(w.sessions[a], w.sessions[b]);
    }
  }

  lemma PollKeepsAllFine(w: World, order: seq<Name>)
    requires Sound(w) && Complete(w, order)
    ensures var w' := Polled(w, order);
            && w'.paid.Keys == w'.sessions.Keys == w'.error.Keys
            && (forall sid :: sid in w'.sessions ==> Fine(w', w'.sessions[sid]))
            && (forall sid :: sid in w'.sessions ==> PaidRight(w', w'.sessions[sid], w'.paid[sid], w'.error[sid]))
  {
    PolledShape(w, order);
    assert Among(w, order);
    hide Polled, Complete, Sound, Fine, PaidRight, AfterPoll;
    forall sid | sid in w.sessions
      ensures var w' := Polled(w, order);
              Fine(w', w'.sessions[sid]) && PaidRight(w', w'.sessions[sid], w'.paid[sid], w'.error[sid])
    {
      PollKeepsFine(w, order, sid);
      PollKeepsPaidRight(w, order, sid);
    }
  }

  lemma PollKeepsSound(w: World, order: seq<Name>)
    requires Sound(w) && Complete(w, order)
    ensures Sound(Polled(w, order))
  {
    PollKeepsOwned(w, order);
    PollKeepsAllFine(w, order);
    PollKeepsAllApart(w, order);
    hide Polled, Complete, Owned, Fine, PaidRight, Apart;
  }

  // -------------------------------------------------------------------- money

  /** What a user is charged is what was put down to their sessions. */
  ghost predicate MoneyRight(w: World, user: Name, d: Direction) {
    && InStep(w.money)
    && Right(w.money, user, d)
    && Charged(w.money, user, d) == TotalOf(w.paid, OwnerOf(w), user, d)
  }

  lemma SameOwners(w: World, w': World)
    requires w'.sessions.Keys == w.sessions.Keys
    requires forall sid :: sid in w.sessions ==> w'.sessions[sid].user == w.sessions[sid].user
    ensures OwnerOf(w') == OwnerOf(w)
  {
  }

  lemma PollGrows(w: World, order: seq<Name>, user: Name, d: Direction)
    requires Sound(w) && Complete(w, order)
    ensures At(Tallied(w.seen, Records(w, order)).growth, user, d)
         == TotalOf(Polled(w, order).paid, OwnerOf(Polled(w, order)), user, d) - TotalOf(w.paid, OwnerOf(w), user, d)
  {
    FoldBills(w.paid, w.seen, Records(w, order), order, |order|, OwnerOf(w), user, d);
    PolledShape(w, order);
    SameOwners(w, Polled(w, order));
    hide TotalOf, OwnerOf, Sound, Complete, At, Fold, PaidUpTo, Records, BaseLines, ErrorOf, OwnersFirst;
  }

  lemma GrowthNonNegative(w: World, order: seq<Name>)
    requires Sound(w) && Complete(w, order)
    ensures var growth := Tallied(w.seen, Records(w, order)).growth; forall u :: u in growth ==> growth[u].NonNegative()
  {
    var records := Records(w, order);
    forall k | 0 <= k < |records| && records[k].live ensures records[k].bytes.NonNegative() {
      assert Fine(w, w.sessions[order[k]]);
    }
    hide Sound, Complete, Records, Fold;
    FoldNonNegative(Tally(w.seen, map[]), records, |records|);
  }

  lemma AbsorbingKeepsMoney(w: World, w': World, growth: map<Name, Bytes>, user: Name, d: Direction)
    requires MoneyRight(w, user, d) && w'.money == Absorbed(w.money, growth)
    requires forall u :: u in growth ==> growth[u].NonNegative()
    requires At(growth, user, d) == TotalOf(w'.paid, OwnerOf(w'), user, d) - TotalOf(w.paid, OwnerOf(w), user, d)
    ensures MoneyRight(w', user, d)
  {
    hide TotalOf, OwnerOf, Absorbed, InStep, Right, Charged, At;
    AbsorbedInStep(w.money, growth);
    AbsorbedRight(w.money, growth, user, d);
  }

  lemma PollKeepsMoney(w: World, order: seq<Name>, user: Name, d: Direction)
    requires Sound(w) && MoneyRight(w, user, d) && Complete(w, order)
    ensures MoneyRight(Next(w, Poll(order)), user, d)
  {
    assert Among(w, order);
    hide TotalOf, OwnerOf, Sound, Polled, Complete, Absorbed, MoneyRight, At, Tallied, Records;
    var w', growth := Next(w, Poll(order)), Tallied(w.seen, Records(w, order)).growth;
    SameOwners(Polled(w, order), w');
    PollGrows(w, order, user, d);
    GrowthNonNegative(w, order);
    AbsorbingKeepsMoney(w, w', growth, user, d);
  }

  lemma ConnectKeepsMoney(w: World, sid: Name, whose: Name, ifname: Name, user: Name, d: Direction)
    requires Sound(w) && MoneyRight(w, user, d) && sid !in w.sessions
    ensures MoneyRight(Joined(w, sid, whose, ifname), user, d)
  {
    assert OwnerOf(Joined(w, sid, whose, ifname)) == OwnerOf(w)[sid := whose];
    TotalOfNewAccount(w.paid, OwnerOf(w), user, sid, whose, d);
    hide OwnerOf, TotalOf, InStep, Right, Charged;
  }

  lemma ReadKeepsSound(w: World, money: Money)
    requires Sound(w)
    ensures Sound(w.(money := money))
  {
    var w' := w.(money := money);
    forall sid | sid in w'.sessions
      ensures Fine(w', w'.sessions[sid]) && PaidRight(w', w'.sessions[sid], w'.paid[sid], w'.error[sid])
    {
      assert Fine(w, w.sessions[sid]) && PaidRight(w, w.sessions[sid], w.paid[sid], w.error[sid]);
    }
    hide Fine, Apart, PaidRight;
  }

  // --------------------------------------------------------------- whole runs

  lemma OneChange(w: World, sid: Name, s: Session, killed: bool)
    requires sid in w.sessions && w.sessions[sid].stage.Live? && s.(bytes := w.sessions[sid].bytes, stage := Live) == w.sessions[sid]
    requires w.sessions[sid].bytes.AtMost(s.bytes) && !s.stage.Settled? && (w.killed ==> killed) && (s.stage.Killed? ==> killed)
    ensures var w' := w.(sessions := w.sessions[sid := s], killed := killed);
            OneSessionSteps(w, w', sid) && OwnerOf(w') == OwnerOf(w)
  {
    var w' := w.(sessions := w.sessions[sid := s], killed := killed);
    SameCount(w.sessions, sid, s);
    SameOwners(w, w');
    hide OwnerOf;
  }

  /** One session of the world steps on its own. */
  lemma StepOfOne(w: World, e: Event)
    requires (e.Move? || e.Disconnect? || e.Kill?) && e.sid in w.sessions
    ensures Next(w, e) == w || OneSessionSteps(w, Next(w, e), e.sid)
    ensures Next(w, e).money == w.money && Next(w, e).paid == w.paid && OwnerOf(Next(w, e)) == OwnerOf(w)
  {
    hide OwnerOf, OneSessionSteps;
    var s := w.sessions[e.sid];
    if s.stage.Live? {
      match e
      case Move(sid, b) =>
        if b.NonNegative() {
          OneChange(w, sid, s.(bytes := Bytes(s.bytes.rx + b.rx, s.bytes.tx + b.tx)), w.killed);
        }
      case Disconnect(sid) => OneChange(w, sid, s.(stage := Ended), w.killed);
      case Kill(sid) => OneChange(w, sid, s.(stage := Killed), true);
    }
  }

  lemma SameCount(sessions: map<Name, Session>, sid: Name, s: Session)
    requires sid in sessions
    ensures |sessions[sid := s]| == |sessions| && sessions[sid := s].Keys == sessions.Keys
  {
    assert sessions[sid := s].Keys == sessions.Keys;
    assert |sessions[sid := s].Keys| == |sessions[sid := s]| && |sessions.Keys| == |sessions|;
  }

  lemma {:induction false} NextKeeps(w: World, e: Event, user: Name, d: Direction)
    requires Sound(w) && MoneyRight(w, user, d)
    ensures Sound(Next(w, e)) && MoneyRight(Next(w, e), user, d)
  {
    hide Sound, Polled, OwnerOf, Absorbed, InStep, Right, Charged, TotalOf;
    match e
    case Connect(sid, whose, ifname) =>
      if sid !in w.sessions && Free(w, ifname) {
        ConnectKeepsSound(w, sid, whose, ifname);
        ConnectKeepsMoney(w, sid, whose, ifname, user, d);
      }
    case Poll(order) =>
      if Complete(w, order) {
        PollKeepsSound(w, order);
        ReadKeepsSound(Polled(w, order), Next(w, e).money);
        PollKeepsMoney(w, order, user, d);
      }
    case Reads(read) =>
      ReadKeepsSound(w, Reading(w.money, read));
      SameOwners(w, Next(w, e));
      ReadingRight(w.money, read, user, d);
    case _ =>
      if e.sid in w.sessions {
        StepOfOne(w, e);
        if Next(w, e) != w {
          OneSessionKeepsSound(w, Next(w, e), e.sid);
        }
      }
  }

  lemma {:induction false} InvariantsHold(events: seq<Event>, n: nat, user: Name, d: Direction)
    requires n <= |events|
    ensures Sound(After(events, n)) && MoneyRight(After(events, n), user, d)
  {
    if n == 0 {
      NoMoneyRight(user, d);
      assert Share(INITIAL.paid, OwnerOf(INITIAL), user) == map[];
    } else {
      hide Sound, MoneyRight, Next;
      InvariantsHold(events, n - 1, user, d);
      NextKeeps(After(events, n - 1), events[n - 1], user, d);
    }
  }

  // ----------------------------------------------------------------- theorems

  /**
   * At every point of every run, kills and records in any order included: billed
   * plus pending for a user is what polls saw of their sessions, and the errors
   * made about them.
   */
  lemma {:induction false} ChargedIs(events: seq<Event>, n: nat, user: Name, d: Direction)
    requires n <= |events|
    ensures var w := After(events, n);
            Charged(w.money, user, d) == TotalOf(PolledBySession(w), OwnerOf(w), user, d) + TotalOf(w.error, OwnerOf(w), user, d)
  {
    InvariantsHold(events, n, user, d);
    SoundTotals(After(events, n), user, d);
    hide After, Sound, TotalOf, OwnerOf, PolledBySession, InStep, Right, Charged;
  }

  lemma SoundTotals(w: World, user: Name, d: Direction)
    requires Sound(w)
    ensures TotalOf(w.paid, OwnerOf(w), user, d) == TotalOf(PolledBySession(w), OwnerOf(w), user, d) + TotalOf(w.error, OwnerOf(w), user, d)
  {
    forall sid | sid in w.paid ensures w.paid[sid].Of(d) == PolledBySession(w)[sid].Of(d) + w.error[sid].Of(d) {
      assert PaidRight(w, w.sessions[sid], w.paid[sid], w.error[sid]);
    }
    hide TotalOf, OwnerOf, Fine, PaidRight, Apart, Owned;
    TotalOfSum(w.paid, PolledBySession(w), w.error, OwnerOf(w), user, d);
  }

  /** While no poll took a base line's session late, kills or not, no user is billed more than they moved. */
  lemma {:induction false} NeverOverbilled(events: seq<Event>, n: nat, user: Name, d: Direction)
    requires n <= |events| && !After(events, n).misordered
    ensures var w := After(events, n); Charged(w.money, user, d) <= TotalOf(MovedBySession(w), OwnerOf(w), user, d)
  {
    InvariantsHold(events, n, user, d);
    var w := After(events, n);
    hide After;
    forall sid | sid in w.sessions ensures w.paid[sid].Of(d) <= w.sessions[sid].bytes.Of(d) {
      assert Fine(w, w.sessions[sid]) && PaidRight(w, w.sessions[sid], w.paid[sid], w.error[sid]);
    }
    hide Sound, InStep, Right, Charged, TotalOf, OwnerOf;
    TotalOfAtMost(w.paid, MovedBySession(w), OwnerOf(w), user, d);
  }

  lemma AllPolled(w: World, order: seq<Name>)
    requires Sound(w) && !w.killed && Complete(w, order)
    ensures PolledBySession(Polled(w, order)) == MovedBySession(Polled(w, order))
  {
    assert Among(w, order);
    hide Polled, Complete, Fine, PaidRight, Apart, Owned, AfterPoll;
    PolledShape(w, order);
    forall sid | sid in w.sessions ensures AfterPoll(w.sessions[sid]).polled == AfterPoll(w.sessions[sid]).bytes {
      assert Fine(w, w.sessions[sid]);
      AllOfItPolled(w, w.sessions[sid]);
    }
    hide Sound;
    PolledIsMoved(Polled(w, order));
  }

  lemma PolledIsMoved(w: World)
    requires forall sid :: sid in w.sessions ==> w.sessions[sid].polled == w.sessions[sid].bytes
    ensures PolledBySession(w) == MovedBySession(w)
  {
  }

  lemma AllOfItPolled(w: World, s: Session)
    requires Fine(w, s) && !w.killed
    ensures AfterPoll(s).polled == AfterPoll(s).bytes
  {
  }

  lemma NoErrors(w: World, user: Name, d: Direction)
    requires Sound(w) && !w.killed && !w.misordered
    ensures TotalOf(w.error, OwnerOf(w), user, d) == 0
  {
    forall sid | sid in w.error ensures w.error[sid] == Bytes(0, 0) {
      assert PaidRight(w, w.sessions[sid], w.paid[sid], w.error[sid]);
    }
    hide Fine, PaidRight, Apart, Owned;
    TotalOfZero(w.error, OwnerOf(w), user, d);
  }

  /**
   * After any poll of a run without kills, however interfaces were reused, a user
   * is charged what they moved and the errors made about their sessions: so the
   * bill is exact if and only if these cancel out, and they are all zero while no
   * poll took a base line's session late.
   */
  lemma {:induction false} ExactAfterPoll(events: seq<Event>, n: nat, order: seq<Name>, user: Name, d: Direction)
    requires n <= |events| && !After(events, n).killed && Complete(After(events, n), order)
    ensures var w := Next(After(events, n), Poll(order));
            && Charged(w.money, user, d) == TotalOf(MovedBySession(w), OwnerOf(w), user, d) + TotalOf(w.error, OwnerOf(w), user, d)
            && (!w.misordered ==> TotalOf(w.error, OwnerOf(w), user, d) == 0)
            && w.misordered == (After(events, n).misordered || !OwnersFirst(After(events, n), order))
  {
    hide After, InStep, Right, Charged, Absorbed, TotalOf, Sound, Complete, OwnerOf, MovedBySession, PolledBySession, OwnersFirst, ErrorOf, PaidUpTo, BaseLines;
    var w := After(events, n);
    var w' := Next(w, Poll(order));
    InvariantsHold(events, n, user, d);
    NextKeeps(w, Poll(order), user, d);
    SoundTotals(w', user, d);
    AllPolled(w, order);
    PollSessions(w, order);
    if !w'.misordered {
      NoErrors(w', user, d);
    }
  }

  lemma PollSessions(w: World, order: seq<Name>)
    requires Complete(w, order)
    ensures var w' := Next(w, Poll(order));
            && PolledBySession(w') == PolledBySession(Polled(w, order)) && MovedBySession(w') == MovedBySession(Polled(w, order))
            && w'.misordered == (w.misordered || !OwnersFirst(w, order)) && w'.killed == w.killed
  {
    hide Absorbed, ErrorOf, OwnersFirst, PaidUpTo, BaseLines;
  }

  /**
   * The order of the records of one poll, over all interfaces: with nobody
   * killed, every session is put down for exactly its bytes (and earlier errors)
   * if and only if every session a base line was read from comes first on its
   * interface, or had nothing in that base line.
   */
  lemma {:induction false} OrderMatters(events: seq<Event>, n: nat, order: seq<Name>, d: Direction)
    requires n <= |events| && !After(events, n).killed && Complete(After(events, n), order)
    ensures var w := After(events, n);
            (forall sid :: sid in w.sessions ==>
               At(Polled(w, order).paid, sid, d) == w.sessions[sid].bytes.Of(d) + At(w.error, sid, d))
            <==> (forall sid :: sid in w.sessions && w.sessions[sid].based && Preceded(w, order, sid) ==>
                    At(w.seen, w.sessions[sid].ifname, d) == 0)
  {
    InvariantsHold(events, n, NO_NAME, d);
    hide After, Next;
    OrderMattersAt(After(events, n), order, d);
    hide Sound, Complete, Polled, Preceded, ErrorOf, MoneyRight;
  }

  lemma OrderMattersAt(w: World, order: seq<Name>, d: Direction)
    requires Sound(w) && !w.killed && Complete(w, order)
    ensures (forall sid :: sid in w.sessions ==>
               At(Polled(w, order).paid, sid, d) == w.sessions[sid].bytes.Of(d) + At(w.error, sid, d))
       <==> (forall sid :: sid in w.sessions && w.sessions[sid].based && Preceded(w, order, sid) ==>
               At(w.seen, w.sessions[sid].ifname, d) == 0)
  {
    ErrorsVanishWhen(w, order, d);
    assert Among(w, order);
    hide Sound, Complete, Polled, Preceded, ErrorOf;
    forall sid | sid in w.sessions
      ensures At(Polled(w, order).paid, sid, d) == w.sessions[sid].bytes.Of(d) + At(w.error, sid, d) <==> ErrorOf(w, order, sid, d) == 0
    {
      PaidAgainstBytes(w, order, sid, d);
    }
  }

  lemma PaidAgainstBytes(w: World, order: seq<Name>, sid: Name, d: Direction)
    requires Sound(w) && !w.killed && Complete(w, order) && sid in w.sessions
    ensures At(Polled(w, order).paid, sid, d) == w.sessions[sid].bytes.Of(d) + At(w.error, sid, d) + ErrorOf(w, order, sid, d)
  {
    PollPays(w, order, sid, d);
    assert Fine(w, w.sessions[sid]);
    hide Sound, Complete, Polled, Preceded, ErrorOf;
  }

  lemma ErrorsVanishWhen(w: World, order: seq<Name>, d: Direction)
    requires Sound(w) && !w.killed && Complete(w, order)
    ensures (forall sid :: sid in w.sessions ==> ErrorOf(w, order, sid, d) == 0)
       <==> (forall sid :: sid in w.sessions && w.sessions[sid].based && Preceded(w, order, sid) ==>
               At(w.seen, w.sessions[sid].ifname, d) == 0)
  {
    if forall sid :: sid in w.sessions && w.sessions[sid].based && Preceded(w, order, sid) ==> At(w.seen, w.sessions[sid].ifname, d) == 0 {
      forall sid | sid in w.sessions ensures ErrorOf(w, order, sid, d) == 0 {
        ErrorVanishes(w, order, sid, d);
      }
    } else {
      var sid :| sid in w.sessions && w.sessions[sid].based && Preceded(w, order, sid) && At(w.seen, w.sessions[sid].ifname, d) != 0;
      PrecededIsOpen(w, order, sid);
      assert ErrorOf(w, order, sid, d) != 0;
    }
    hide Sound, Complete, Preceded, ErrorOf;
  }

  lemma PrecededIsOpen(w: World, order: seq<Name>, sid: Name)
    requires Complete(w, order) && sid in w.sessions && Preceded(w, order, sid)
    ensures w.sessions[sid].Open()
  {
  }

  lemma ErrorVanishes(w: World, order: seq<Name>, sid: Name, d: Direction)
    requires Sound(w) && !w.killed && Complete(w, order) && sid in w.sessions
    requires forall s :: s in w.sessions && w.sessions[s].based && Preceded(w, order, s) ==> At(w.seen, w.sessions[s].ifname, d) == 0
    ensures ErrorOf(w, order, sid, d) == 0
  {
    var s := w.sessions[sid];
    assert Fine(w, s);
    if s.Open() && !s.based && s.ifname in w.seen && !Preceded(w, order, sid) {
      var owner := OwnerIsThere(w, order, sid);
    }
    hide Sound, Complete, Preceded;
  }

  /** The node-level total and the per-user totals are two views of the same bytes. */
  lemma {:induction false} ViewsAgree(events: seq<Event>, n: nat, d: Direction)
    requires n <= |events|
    ensures After(events, n).money.total.Of(d) == SumMap(After(events, n).money.cumulative, d)
  {
    InvariantsHold(events, n, NO_NAME, d);
  }

  /** The node's total never goes back, so its own counter never takes it for a restart. */
  lemma TotalNeverShrinks(events: seq<Event>, n: nat)
    requires n < |events|
    ensures After(events, n).money.total.AtMost(After(events, n + 1).money.total)
  {
    hide Sound, MoneyRight, Next;
    InvariantsHold(events, n, NO_NAME, Uplink);
    TotalGrows(After(events, n), events[n]);
  }

  lemma TotalGrows(w: World, e: Event)
    requires Sound(w)
    ensures w.money.total.AtMost(Next(w, e).money.total)
  {
    hide Absorbed, Polled, Tallied, Sound;
    if e.Poll? && Complete(w, e.order) {
      GrowthNonNegative(w, e.order);
      AbsorbedGrows(w.money, Tallied(w.seen, Records(w, e.order)).growth);
    }
  }

  /** Records in the order their sessions ran never take a base line's session late. */
  lemma {:induction false} ChronologicalIsEnough(events: seq<Event>, n: nat, order: seq<Name>)
    requires n <= |events|
    requires Complete(After(events, n), order) && Chronological(After(events, n), order)
    ensures OwnersFirst(After(events, n), order)
  {
    InvariantsHold(events, n, NO_NAME, Uplink);
    ChronologicalOwners(After(events, n), order);
    hide After;
  }

  lemma ChronologicalOwners(w: World, order: seq<Name>)
    requires Sound(w) && Complete(w, order) && Chronological(w, order)
    ensures OwnersFirst(w, order)
  {
    hide Fine, PaidRight, Owned;
    forall sid | sid in w.sessions && w.sessions[sid].based ensures !Preceded(w, order, sid) {
      forall j, k | 0 <= j < k < |order| && order[k] == sid ensures w.sessions[order[j]].ifname != w.sessions[sid].ifname {
        assert Apart(w.sessions[sid], w.sessions[order[j]]);
      }
    }
  }
}

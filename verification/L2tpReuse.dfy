/**
 * A run in which L2TP takes final records in the wrong order
 * (backend/l2tp/sessions.go, `readFinalRecords`).
 */
module L2tpReuse {
  import opened Traffic
  import opened RunningTotals
  import opened L2tpStats
  import opened L2tpBilling

  /** File names are compared as text. */
  ghost predicate SortsBefore(a: string, b: string) {
    exists k :: 0 <= k < |a| && k < |b| && a[..k] == b[..k] && a[k] < b[k]
  }

  /** Two sessions, their users, and what they move. */
  datatype Reuse = Reuse(older: Name, newer: Name, olderUser: Name, newerUser: Name, ppp0: Name, big: Bytes, small: Bytes)

  /** One session is polled and ends; its interface passes to another, which ends too before the next poll. */
  function ReuseRun(r: Reuse): (run: seq<Event>)
    ensures |run| == 7
  {
    [Connect(r.older, r.olderUser, r.ppp0), Move(r.older, r.big), Poll([r.older]), Disconnect(r.older),
     Connect(r.newer, r.newerUser, r.ppp0), Move(r.newer, r.small), Disconnect(r.newer)]
  }

  ghost predicate OlderIs(w: World, r: Reuse, bytes: Bytes, polled: Bytes, stage: Stage, based: bool) {
    && r.older in w.sessions && w.sessions[r.older] == Session(r.olderUser, r.ppp0, bytes, polled, stage, based, 0)
    && !w.killed && !w.misordered
  }

  ghost predicate NewerIs(w: World, r: Reuse, bytes: Bytes, stage: Stage) {
    r.newer in w.sessions && w.sessions[r.newer] == Session(r.newerUser, r.ppp0, bytes, Bytes(0, 0), stage, false, 1)
  }

  lemma ReuseOpens(w: World, r: Reuse)
    requires w == INITIAL
    ensures var w' := Next(w, Connect(r.older, r.olderUser, r.ppp0));
            w'.sessions.Keys == {r.older} && OlderIs(w', r, Bytes(0, 0), Bytes(0, 0), Live, false)
  {
    hide Polled, Complete, Absorbed;
  }

  lemma ReuseMoves(w: World, r: Reuse)
    requires w.sessions.Keys == {r.older} && OlderIs(w, r, Bytes(0, 0), Bytes(0, 0), Live, false) && r.big.NonNegative()
    ensures var w' := Next(w, Move(r.older, r.big));
            w'.sessions.Keys == {r.older} && OlderIs(w', r, r.big, Bytes(0, 0), Live, false)
  {
    hide Polled, Complete, Absorbed;
  }

  lemma ReusePolls(w: World, r: Reuse)
    requires Sound(w) && w.sessions.Keys == {r.older} && OlderIs(w, r, r.big, Bytes(0, 0), Live, false)
    ensures var w' := Next(w, Poll([r.older]));
            && w'.sessions.Keys == {r.older} && OlderIs(w', r, r.big, r.big, Live, true)
            && r.ppp0 in w'.seen && w'.seen[r.ppp0] == r.big
  {
    hide Next, Polled, Sound, BaseLines, Records;
    OneInOrder(w, [r.older], r.older);
    hide Complete, OwnersFirst;
    PollNext(w, [r.older]);
    PolledShape(w, [r.older]);
    PolledErrors(w, [r.older], r.older);
    LiveIsBased(w, [r.older], r.older);
  }

  lemma OneInOrder(w: World, order: seq<Name>, sid: Name)
    requires w.sessions.Keys == {sid} && w.sessions[sid].stage.Live? && order == [sid]
    ensures Complete(w, order) && OwnersFirst(w, order)
  {
    assert order[0] == sid && sid in order;
  }

  lemma PollNext(w: World, order: seq<Name>)
    requires Complete(w, order)
    ensures var w', p := Next(w, Poll(order)), Polled(w, order);
            && w'.sessions == p.sessions && w'.seen == p.seen == BaseLines(w.seen, Records(w, order)) && w'.error == p.error
            && w'.killed == p.killed && w'.misordered == p.misordered
  {
    hide Absorbed, ErrorOf, OwnersFirst, PaidUpTo, BaseLines, Records;
  }

  lemma ReuseLeaves(w: World, r: Reuse)
    requires w.sessions.Keys == {r.older} && OlderIs(w, r, r.big, r.big, Live, true)
    ensures var w' := Next(w, Disconnect(r.older));
            && w'.sessions.Keys == {r.older} && OlderIs(w', r, r.big, r.big, Ended, true) && w'.seen == w.seen
  {
    hide Polled, Complete, Absorbed;
  }

  lemma ReuseReopens(w: World, r: Reuse)
    requires w.sessions.Keys == {r.older} && OlderIs(w, r, r.big, r.big, Ended, true) && r.older != r.newer
    ensures var w' := Next(w, Connect(r.newer, r.newerUser, r.ppp0));
            && w'.sessions.Keys == {r.older, r.newer} && OlderIs(w', r, r.big, r.big, Ended, true)
            && NewerIs(w', r, Bytes(0, 0), Live) && w'.seen == w.seen
  {
    hide Polled, Complete, Absorbed;
    assert |w.sessions| == 1 by {
      assert |w.sessions.Keys| == |w.sessions|;
    }
    assert Free(w, r.ppp0);
  }

  lemma ReuseMovesAgain(w: World, r: Reuse)
    requires w.sessions.Keys == {r.older, r.newer} && OlderIs(w, r, r.big, r.big, Ended, true) && r.older != r.newer
    requires NewerIs(w, r, Bytes(0, 0), Live) && r.small.NonNegative()
    ensures var w' := Next(w, Move(r.newer, r.small));
            && w'.sessions.Keys == {r.older, r.newer} && OlderIs(w', r, r.big, r.big, Ended, true)
            && NewerIs(w', r, r.small, Live) && w'.seen == w.seen
  {
    hide Polled, Complete, Absorbed;
  }

  lemma ReuseLeavesAgain(w: World, r: Reuse)
    requires w.sessions.Keys == {r.older, r.newer} && OlderIs(w, r, r.big, r.big, Ended, true) && r.older != r.newer
    requires NewerIs(w, r, r.small, Live)
    ensures var w' := Next(w, Disconnect(r.newer));
            && w'.sessions.Keys == {r.older, r.newer} && OlderIs(w', r, r.big, r.big, Ended, true)
            && NewerIs(w', r, r.small, Ended) && w'.seen == w.seen
  {
    hide Polled, Complete, Absorbed;
  }

  lemma ReuseRunEnds(r: Reuse)
    requires r.older != r.newer && r.big.NonNegative() && r.small.NonNegative()
    ensures var w := After(ReuseRun(r), 7);
            && w.sessions.Keys == {r.older, r.newer} && OlderIs(w, r, r.big, r.big, Ended, true)
            && NewerIs(w, r, r.small, Ended) && r.ppp0 in w.seen && w.seen[r.ppp0] == r.big
  {
    var events := ReuseRun(r);
    hide Next, OlderIs, NewerIs, Sound, MoneyRight;
    assert After(events, 0) == INITIAL;
    assert events[0] == Connect(r.older, r.olderUser, r.ppp0) && events[1] == Move(r.older, r.big) && events[2] == Poll([r.older]);
    assert events[3] == Disconnect(r.older) && events[4] == Connect(r.newer, r.newerUser, r.ppp0);
    assert events[5] == Move(r.newer, r.small) && events[6] == Disconnect(r.newer);
    ReuseOpens(After(events, 0), r);
    ReuseMoves(After(events, 1), r);
    InvariantsHold(events, 2, NO_NAME, Uplink);
    ReusePolls(After(events, 2), r);
    ReuseLeaves(After(events, 3), r);
    ReuseReopens(After(events, 4), r);
    ReuseMovesAgain(After(events, 5), r);
    ReuseLeavesAgain(After(events, 6), r);
  }

  lemma ReuseError(w: World, r: Reuse, d: Direction)
    requires Sound(w) && w.sessions.Keys == {r.older, r.newer} && r.older != r.newer
    requires OlderIs(w, r, r.big, r.big, Ended, true) && NewerIs(w, r, r.small, Ended) && r.ppp0 in w.seen && w.seen[r.ppp0] == r.big
    ensures Complete(w, [r.newer, r.older])
    ensures ErrorOf(w, [r.newer, r.older], r.older, d) == r.big.Of(d) && At(w.error, r.older, d) == 0
  {
    var order := [r.newer, r.older];
    assert order[0] == r.newer && order[1] == r.older;
    assert Complete(w, order);
    assert Preceded(w, order, r.older);
    assert PaidRight(w, w.sessions[r.older], w.paid[r.older], w.error[r.older]);
    hide Fine, Apart, Owned, Preceded, Complete;
  }

  /**
   * Records are taken in the order of their names, interface.pid.time, and
   * process 1000 sorts before process 999: the older session is taken second, and
   * all it moved, which an earlier poll has billed already, is billed again.
   */
  lemma {:induction false} OlderRecordTakenSecond(r: Reuse, d: Direction)
    requires r.older != r.newer && r.olderUser != r.newerUser && r.big.NonNegative() && r.small.NonNegative()
    ensures SortsBefore("ppp0.1000.1700000060", "ppp0.999.1700000000")
    ensures var w := Next(After(ReuseRun(r), 7), Poll([r.newer, r.older]));
            && TotalOf(MovedBySession(w), OwnerOf(w), r.olderUser, d) == r.big.Of(d)
            && Charged(w.money, r.olderUser, d) == r.big.Of(d) + r.big.Of(d)
  {
    NamesAsText();
    hide SortsBefore, After, Next, ReuseRun, Charged, TotalOf, OwnerOf, MovedBySession, Sound, MoneyRight, Complete, ErrorOf, OwnersFirst, Polled;
    var events, order := ReuseRun(r), [r.newer, r.older];
    ReuseRunEnds(r);
    InvariantsHold(events, 7, NO_NAME, d);
    ReuseError(After(events, 7), r, d);
    ExactAfterPoll(events, 7, order, r.olderUser, d);
    OnlySession(After(events, 7), order, r.older, r.olderUser, d);
  }

  lemma NamesAsText()
    ensures SortsBefore("ppp0.1000.1700000060", "ppp0.999.1700000000")
  {
    var a, b := "ppp0.1000.1700000060", "ppp0.999.1700000000";
    assert a[..5] == b[..5] && a[5] < b[5];
  }

  lemma OnlySession(w: World, order: seq<Name>, sid: Name, user: Name, d: Direction)
    requires Sound(w) && Complete(w, order) && sid in w.sessions
    requires forall s :: s in w.sessions ==> (w.sessions[s].user == user <==> s == sid)
    ensures var w' := Next(w, Poll(order));
            && TotalOf(MovedBySession(w'), OwnerOf(w'), user, d) == w.sessions[sid].bytes.Of(d)
            && TotalOf(w'.error, OwnerOf(w'), user, d) == At(w.error, sid, d) + ErrorOf(w, order, sid, d)
  {
    assert Among(w, order);
    hide Next, Polled, Complete, Sound, ErrorOf, OwnersFirst, TotalOf;
    var w' := Next(w, Poll(order));
    PollNext(w, order);
    PolledShape(w, order);
    PolledErrors(w, order, sid);
    OneOfTheUser(MovedBySession(w'), OwnerOf(w'), sid, user, d);
    OneOfTheUser(w'.error, OwnerOf(w'), sid, user, d);
  }
}

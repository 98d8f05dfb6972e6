/**
 * The sing-box process supervisor (backend/singbox/singbox.go) as a concurrent
 * step model: each step is one critical section, one channel operation or one
 * wait, and steps of different goroutines interleave freely.
 */
module SingBoxSupervisor {
  import opened Wrappers
  import opened Numbers

  const BACKOFF_MIN := 2
  const BACKOFF_MAX := 60

  /** A channel, named by the order channels were made in. */
  type Channel = nat

  /** The goroutine watching one process: waiting for it, past its critical section, past closing its channel. */
  datatype Watcher = Waiting | Exited(spawn: bool) | Closed(spawn: bool)

  datatype Phase = Top | Sleeping(stop: Option<Channel>) | Woken | Starting | Leaving

  /** `failures` counts this supervisor's failed starts. */
  datatype Supervisor = Supervisor(phase: Phase, delay: int, failures: nat)

  datatype World = World(
    stopping: bool,
    started: bool,
    supervising: bool,
    pushStop: Option<Channel>,
    watchers: map<Channel, Watcher>,  // by the channel each closes when its process is gone
    supervisors: map<nat, Supervisor>,
    closed: multiset<Channel>,        // every close there ever was
    next: nat)                        // fresh names

  datatype Event =
    | Start                // a process comes up: from New, Restart or a supervisor
    | Ready                // its start succeeds
    | Exit(done: Channel)
    | CloseDone(done: Channel)
    | Spawn(done: Channel)
    | Shutdown
    | Teardown
    | Renew                // Restart's new stop channel
    | Check(sid: nat)
    | StopSeen(sid: nat)
    | TimerFires(sid: nat)
    | Recheck(sid: nat)
    | StartFailed(sid: nat)
    | StartDone(sid: nat)
    | Release(sid: nat)

  const INITIAL := World(false, false, false, Some(0), map[], map[], multiset{}, 1)

  function Doubled(delay: int): int {
    if delay >= BACKOFF_MAX then delay
    else if delay * 2 > BACKOFF_MAX then BACKOFF_MAX
    else delay * 2
  }

  predicate In(w: World, sid: nat, phase: Phase -> bool) {
    sid in w.supervisors && phase(w.supervisors[sid].phase)
  }

  function Moved(w: World, sid: nat, phase: Phase): World
    requires sid in w.supervisors
  {
    w.(supervisors := w.supervisors[sid := w.supervisors[sid].(phase := phase)])
  }

  /** Events that make no sense in the current state leave it alone. */
  function Next(w: World, e: Event): World {
    match e
    case Start => w.(stopping := false, watchers := w.watchers[w.next := Waiting], next := w.next + 1)
    case Ready => w.(started := true)
    case Exit(d) =>
      if d in w.watchers && w.watchers[d].Waiting? then
        var spawn := !w.stopping && !w.supervising;
        w.(started := false, supervising := w.supervising || spawn, watchers := w.watchers[d := Exited(spawn)])
      else w
    case CloseDone(d) =>
      if d in w.watchers && w.watchers[d].Exited? then
        w.(closed := w.closed + multiset{d}, watchers := w.watchers[d := Closed(w.watchers[d].spawn)])
      else w
    case Spawn(d) =>
      if d in w.watchers && w.watchers[d].Closed? then
        var gone := w.(watchers := w.watchers - {d});
        if w.watchers[d].spawn then
          gone.(supervisors := w.supervisors[w.next := Supervisor(Top, BACKOFF_MIN, 0)], next := w.next + 1)
        else gone
      else w
    case Shutdown =>
      var closed := if w.pushStop.Some? then w.closed + multiset{w.pushStop.value} else w.closed;
      w.(stopping := true, pushStop := None, closed := closed)
    case Teardown => w.(started := false)
    case Renew => w.(pushStop := Some(w.next), next := w.next + 1)
    case Check(s) =>
      if In(w, s, (p: Phase) => p.Top?) then Moved(w, s, if w.stopping then Leaving else Sleeping(w.pushStop)) else w
    case StopSeen(s) =>
      if In(w, s, (p: Phase) => p.Sleeping? && p.stop.Some? && p.stop.value in w.closed) then Moved(w, s, Leaving) else w
    case TimerFires(s) =>
      if In(w, s, (p: Phase) => p.Sleeping?) then Moved(w, s, Woken) else w
    case Recheck(s) =>
      if In(w, s, (p: Phase) => p.Woken?) then Moved(w, s, if w.stopping || w.started then Leaving else Starting) else w
    case StartFailed(s) =>
      if In(w, s, (p: Phase) => p.Starting?) then
        var sup := w.supervisors[s];
        w.(supervisors := w.supervisors[s := Supervisor(Top, Doubled(sup.delay), sup.failures + 1)])
      else w
    case StartDone(s) =>
      if In(w, s, (p: Phase) => p.Starting?) then Moved(w, s, Leaving) else w
    case Release(s) =>
      if In(w, s, (p: Phase) => p.Leaving?) then w.(supervising := false, supervisors := w.supervisors - {s}) else w
  }

  function After(events: seq<Event>, n: nat): World
    requires n <= |events|
  {
    if n == 0 then INITIAL else Next(After(events, n - 1), events[n - 1])
  }

  // ---------------------------------------------------------------- invariant

  predicate Spawning(w: World, d: Channel) {
    d in w.watchers && (w.watchers[d].Exited? || w.watchers[d].Closed?) && w.watchers[d].spawn
  }

  /** The flag is held by one supervisor, or by one watcher on its way to start one. */
  ghost predicate OneHolder(w: World) {
    && (forall s, t :: s in w.supervisors && t in w.supervisors ==> s == t)
    && (forall c, d :: Spawning(w, c) && Spawning(w, d) ==> c == d)
    && (forall s, d :: s in w.supervisors ==> !Spawning(w, d))
    && (forall s :: s in w.supervisors ==> w.supervising)
    && (forall d :: Spawning(w, d) ==> w.supervising)
  }

  /** A channel that can still be closed has not been, and nobody else can close it. */
  ghost predicate ChannelsSound(w: World) {
    && (forall c :: c in w.closed ==> c < w.next && w.closed[c] == 1)
    && (forall d :: d in w.watchers ==> d < w.next && (d in w.closed <==> w.watchers[d].Closed?))
    && (w.pushStop.Some? ==> w.pushStop.value < w.next && w.pushStop.value !in w.closed && w.pushStop.value !in w.watchers)
  }

  /** Two, four, eight and so on, up to a minute. */
  function Backoff(failures: nat): int {
    var d := BACKOFF_MIN * Pow2(failures);
    if d > BACKOFF_MAX then BACKOFF_MAX else d
  }

  ghost predicate DelaysRight(w: World) {
    forall s :: s in w.supervisors ==> w.supervisors[s].delay == Backoff(w.supervisors[s].failures)
  }

  lemma DoubledBackoff(k: nat)
    ensures Doubled(Backoff(k)) == Backoff(k + 1)
  {
  }

  lemma NextKeepsOneHolder(w: World, e: Event)
    requires OneHolder(w)
    ensures OneHolder(Next(w, e))
  {
    if e.Start? || e.Exit? || e.CloseDone? || e.Spawn? || e.Shutdown? || e.Renew? {
      WatcherKeepsHolder(w, e);
    } else {
      OthersLeaveChannels(w, e);
      SupervisorKeepsHolder(w, e);
    }
    hide OneHolder, Next;
  }

  lemma WatcherKeepsHolder(w: World, e: Event)
    requires OneHolder(w) && (e.Start? || e.Exit? || e.CloseDone? || e.Spawn? || e.Shutdown? || e.Renew?)
    ensures OneHolder(Next(w, e))
  {
    var w' := Next(w, e);
    assert forall d :: Spawning(w', d) && !(e.Exit? && d == e.done) ==> Spawning(w, d);
    if e.Spawn? && w' != w {
      assert w.watchers[e.done].spawn ==> Spawning(w, e.done);
      assert forall d :: Spawning(w', d) ==> d != e.done;
    }
  }

  lemma SupervisorKeepsHolder(w: World, e: Event)
    requires OneHolder(w) && Next(w, e).watchers == w.watchers
    requires !(e.Start? || e.Exit? || e.CloseDone? || e.Spawn? || e.Shutdown? || e.Renew?)
    ensures OneHolder(Next(w, e))
  {
    var w' := Next(w, e);
    assert forall d :: Spawning(w', d) == Spawning(w, d);
    hide Spawning;
  }

  lemma NextKeepsChannels(w: World, e: Event)
    requires ChannelsSound(w)
    ensures ChannelsSound(Next(w, e))
  {
    if e.Start? || e.Exit? || e.CloseDone? || e.Spawn? {
      WatcherKeepsChannels(w, e);
    } else if e.Shutdown? || e.Renew? {
      StopKeepsChannels(w, e);
    } else {
      OthersLeaveChannels(w, e);
      SameChannels(w, Next(w, e));
    }
    hide ChannelsSound;
  }

  lemma WatcherKeepsChannels(w: World, e: Event)
    requires ChannelsSound(w) && (e.Start? || e.Exit? || e.CloseDone? || e.Spawn?)
    ensures ChannelsSound(Next(w, e))
  {
  }

  lemma StopKeepsChannels(w: World, e: Event)
    requires ChannelsSound(w) && (e.Shutdown? || e.Renew?)
    ensures ChannelsSound(Next(w, e))
  {
  }

  /** A supervisor closes nothing. */
  lemma OthersLeaveChannels(w: World, e: Event)
    requires !(e.Start? || e.Exit? || e.CloseDone? || e.Spawn? || e.Shutdown? || e.Renew?)
    ensures var w' := Next(w, e);
            w'.watchers == w.watchers && w'.closed == w.closed && w'.pushStop == w.pushStop && w'.next == w.next
  {
  }

  lemma SameChannels(w: World, w': World)
    requires ChannelsSound(w)
    requires w'.watchers == w.watchers && w'.closed == w.closed && w'.pushStop == w.pushStop && w'.next == w.next
    ensures ChannelsSound(w')
  {
  }

  lemma NextKeepsDelays(w: World, e: Event)
    requires DelaysRight(w)
    ensures DelaysRight(Next(w, e))
  {
    hide Backoff, Doubled;
    if e.StartFailed? && e.sid in w.supervisors {
      DoubledBackoff(w.supervisors[e.sid].failures);
    }
    FirstDelay();
  }

  lemma FirstDelay()
    ensures Backoff(0) == BACKOFF_MIN
  {
  }

  lemma {:induction false} SoundAfter(events: seq<Event>, n: nat)
    requires n <= |events|
    ensures OneHolder(After(events, n)) && ChannelsSound(After(events, n)) && DelaysRight(After(events, n))
  {
    if n > 0 {
      hide Next, OneHolder, ChannelsSound, DelaysRight;
      SoundAfter(events, n - 1);
      NextKeepsOneHolder(After(events, n - 1), events[n - 1]);
      NextKeepsChannels(After(events, n - 1), events[n - 1]);
      NextKeepsDelays(After(events, n - 1), events[n - 1]);
    }
  }

  // ----------------------------------------------------------------- theorems

  /** However exits, restarts and shutdowns interleave, there is at most one supervisor. */
  lemma AtMostOneSupervisor(events: seq<Event>, n: nat, s: nat, t: nat)
    requires n <= |events| && s in After(events, n).supervisors && t in After(events, n).supervisors
    ensures s == t && After(events, n).supervising
  {
    SoundAfter(events, n);
  }

  /** No channel is ever closed twice, so no close panics. */
  lemma NothingClosedTwice(events: seq<Event>, n: nat, c: Channel)
    requires n <= |events|
    ensures After(events, n).closed[c] <= 1
  {
    SoundAfter(events, n);
  }

  lemma {:induction false} BackoffIs(k: nat)
    ensures Backoff(k) == if k < 5 then [2, 4, 8, 16, 32][k] else 60
  {
    if k == 0 {
      FirstDelay();
    } else {
      BackoffIs(k - 1);
      DoubledBackoff(k - 1);
      hide Backoff;
    }
  }

  /** A supervisor waits two seconds, twice as long after every failed start, and a minute from the fifth on. */
  lemma {:induction false} BackoffBounded(events: seq<Event>, n: nat, s: nat)
    requires n <= |events| && s in After(events, n).supervisors
    ensures var sup := After(events, n).supervisors[s];
            sup.delay == if sup.failures < 5 then [2, 4, 8, 16, 32][sup.failures] else 60
  {
    SoundAfter(events, n);
    hide After, Backoff, OneHolder, ChannelsSound;
    BackoffIs(After(events, n).supervisors[s].failures);
  }

  // ------------------------------------------------------- crashes and shutdowns

  /**
   * When a process ends, its channel is closed; it gets a supervisor if nothing is
   * being stopped and nobody supervises yet, who is then the only one.
   */
  lemma {:induction false} CrashIsSupervised(events: seq<Event>, n: nat, d: Channel)
    requires n <= |events| && d in After(events, n).watchers && After(events, n).watchers[d].Waiting?
    ensures var w := After(events, n);
            var w' := Next(Next(Next(w, Exit(d)), CloseDone(d)), Spawn(d));
            && !w'.started && w'.closed == w.closed + multiset{d} && d !in w'.watchers
            && if w.stopping || w.supervising then w'.supervisors == w.supervisors && w'.supervising == w.supervising
               else w'.supervisors == map[w.next := Supervisor(Top, 2, 0)] && w'.supervising
  {
    SoundAfter(events, n);
    var w := After(events, n);
    hide After;
    assert !w.supervising ==> w.supervisors == map[];
  }

  ghost predicate NoneStartsSince(events: seq<Event>, i: nat, n: nat)
    requires i <= n <= |events|
  {
    forall j :: i <= j < n ==> !events[j].Start?
  }

  lemma StoppedStep(w: World, e: Event, s: nat)
    requires w.stopping && !e.Start?
    ensures Next(w, e).stopping
    ensures In(Next(w, e), s, (p: Phase) => p.Starting?) ==> In(w, s, (p: Phase) => p.Starting?)
    ensures In(Next(w, e), s, (p: Phase) => p.Sleeping?) ==> In(w, s, (p: Phase) => p.Sleeping?)
  {
  }

  /** From a shutdown until something starts a process, no supervisor begins to, nor to wait for its turn. */
  lemma {:induction false} StoppedNeverStarts(events: seq<Event>, i: nat, n: nat, s: nat)
    requires i < n <= |events| && events[i].Shutdown? && NoneStartsSince(events, i, n)
    ensures After(events, n).stopping
    ensures In(After(events, n), s, (p: Phase) => p.Starting?) ==> In(After(events, i + 1), s, (p: Phase) => p.Starting?)
    ensures In(After(events, n), s, (p: Phase) => p.Sleeping?) ==> In(After(events, i + 1), s, (p: Phase) => p.Sleeping?)
  {
    hide Next;
    if n == i + 1 {
      ShutdownStops(After(events, i));
    } else {
      StoppedNeverStarts(events, i, n - 1, s);
      StoppedStep(After(events, n - 1), events[n - 1], s);
    }
  }

  lemma ShutdownStops(w: World)
    ensures Next(w, Shutdown).stopping
  {
  }
}

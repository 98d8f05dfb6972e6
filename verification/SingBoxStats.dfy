/**
 * sing-box usage counters (backend/singbox/stats.go): cumulative readings turned
 * into growth, and the share of it each caller takes.
 */
module SingBoxStats {

  datatype Stat = Stat(name: string, value: int)

  type Counters = map<string, int>

  /** The value of a counter, counting an absent one as zero. */
  function Value(m: Counters, name: string): int {
    if name in m then m[name] else 0
  }

  // ------------------------------------------------------------ specification

  datatype Books = Books(baseline: Counters, pending: Counters)

  /** First sight bills nothing; a drop means the core started again, so all of it is new. */
  function Growth(baseline: Counters, s: Stat): int {
    if s.name !in baseline then 0
    else if s.value >= baseline[s.name] then s.value - baseline[s.name]
    else if s.value > 0 then s.value
    else 0
  }

  function FoldOne(b: Books, s: Stat): Books {
    var growth := Growth(b.baseline, s);
    Books(b.baseline[s.name := s.value],
          if growth > 0 then b.pending[s.name := Value(b.pending, s.name) + growth] else b.pending)
  }

  function FoldFirst(b: Books, stats: seq<Stat>, n: nat): Books
    requires n <= |stats|
  {
    if n == 0 then b else FoldOne(FoldFirst(b, stats, n - 1), stats[n - 1])
  }

  /** The pending counters under a prefix; the empty prefix is everybody's. */
  function Under(pending: Counters, prefix: string): Counters {
    map n | n in pending && prefix <= n :: pending[n]
  }

  function NotUnder(pending: Counters, prefix: string): Counters {
    map n | n in pending && !(prefix <= n) :: pending[n]
  }

  // ---------------------------------------------------------- implementation

  class StatsClient {
    var pending: Counters
    var baseline: Counters

    constructor ()
      ensures Account() == Books(map[], map[])
    {
      pending, baseline := map[], map[];
    }

    ghost function Account(): Books
      reads this
    {
      Books(baseline, pending)
    }

    method Fold(stats: seq<Stat>)
      modifies this
      ensures Account() == FoldFirst(old(Account()), stats, |stats|)
    {
      for i := 0 to |stats|
        invariant Account() == FoldFirst(old(Account()), stats, i)
      {
        var name, cur := stats[i].name, stats[i].value;
        var seen, prev := name in baseline, if name in baseline then baseline[name] else 0;
        baseline := baseline[name := cur];
        if seen {
          if cur < prev {
            if cur > 0 {
              pending := pending[name := Value(pending, name) + cur];
            }
          } else if cur - prev > 0 {
            pending := pending[name := Value(pending, name) + (cur - prev)];
          }
        }
      }
    }

    /** Ranges over the map in any order. */
    method Take(prefix: string, consume: bool) returns (out: Counters)
      modifies this`pending
      ensures out == Under(old(pending), prefix)
      ensures pending == if consume then NotUnder(old(pending), prefix) else old(pending)
    {
      out := map[];
      var todo := pending.Keys;
      while todo != {}
        invariant todo <= pending.Keys <= old(pending).Keys
        invariant forall n :: n in pending ==> pending[n] == old(pending)[n]
        invariant forall n :: n in old(pending) && n !in todo ==> (n in pending <==> !(consume && prefix <= n))
        invariant out.Keys == (set n | n in old(pending) && n !in todo && prefix <= n)
        invariant forall n :: n in out ==> out[n] == old(pending)[n]
      {
        var name :| name in todo;
        todo := todo - {name};
        if prefix != "" && !(prefix <= name) {
          continue;
        }
        out := out[name := pending[name]];
        if consume {
          pending := pending - {name};
        }
      }
    }
  }

  /** Users, inbounds and outbounds never take each other's counters. */
  lemma CategoriesDisjoint(name: string, user: string, inbound: string, outbound: string)
    ensures !("user>>>" + user <= name && "inbound>>>" + inbound <= name)
    ensures !("user>>>" + user <= name && "outbound>>>" + outbound <= name)
    ensures !("inbound>>>" + inbound <= name && "outbound>>>" + outbound <= name)
  {
    assert ("user>>>" + user)[0] == 'u' && ("inbound>>>" + inbound)[0] == 'i' && ("outbound>>>" + outbound)[0] == 'o';
  }

  ghost predicate StartsWith(name: string, prefix: string) {
    exists rest: string :: prefix + rest == name
  }

  /** A take hands out the counters whose names start with the prefix, with their values, and leaves the others. */
  lemma TakesByPrefix(pending: Counters, prefix: string, name: string)
    ensures name in Under(pending, prefix) <==> name in pending && StartsWith(name, prefix)
    ensures name in NotUnder(pending, prefix) <==> name in pending && !StartsWith(name, prefix)
    ensures name in Under(pending, prefix) ==> Under(pending, prefix)[name] == pending[name]
    ensures name in NotUnder(pending, prefix) ==> NotUnder(pending, prefix)[name] == pending[name]
  {
    if prefix <= name {
      assert prefix + name[|prefix|..] == name;
    }
  }

  /** The counters of a user, and what a request for a user asks for. */
  function CounterName(user: string, direction: string): string {
    "user>>>" + user + ">>>traffic>>>" + direction
  }

  function UserPrefix(user: string): string {
    "user>>>" + user + ">>>"
  }

  /** Between names that do not contain the separator's mark, a request for a user is answered with their own counters only. */
  lemma OwnCountersOnly(user: string, other: string, direction: string)
    requires '>' !in user && '>' !in other
    ensures StartsWith(CounterName(other, direction), UserPrefix(user)) <==> user == other
  {
    var name, prefix := CounterName(other, direction), UserPrefix(user);
    assert name == UserPrefix(other) + ("traffic>>>" + direction);
    if rest: string :| prefix + rest == name {
      var n := |"user>>>"|;
      assert forall i :: 0 <= i < |user| ==> name[n + i] == user[i];
      assert forall i :: 0 <= i < |other| ==> name[n + i] == other[i];
      assert name[n + |user|] == '>' == name[n + |other|];
      assert |user| == |other|;
    }
  }

  /** A name that starts like another user's name and the separator is answered for with it. */
  lemma NamesakeTaken(direction: string)
    ensures StartsWith(CounterName("a>>>b", direction), UserPrefix("a"))
  {
    assert UserPrefix("a") + ("b>>>traffic>>>" + direction) == CounterName("a>>>b", direction);
  }

  // --------------------------------------------------------------- whole runs

  /**
   * The core's own counters, what was really moved since a counter was first
   * seen, what callers consumed, and what no reading can show any more.
   */
  datatype World = World(
    counter: Counters,
    books: Books,
    since: Counters,
    consumed: Counters,
    restarted: set<string>,  // counters that started again after their last reading
    missed: Counters)

  datatype Event =
    | Move(name: string, bytes: nat)
    | Restart
    | Collect(stats: seq<Stat>)
    | Take(prefix: string, consume: bool)

  const INITIAL := World(map[], Books(map[], map[]), map[], map[], {}, map[])

  /** What the core has counted since the last reading. */
  function Unread(w: World, name: string): int {
    Value(w.counter, name) - if name in w.restarted then 0 else Value(w.books.baseline, name)
  }

  /** Every counter the core has, in any order. */
  ghost predicate Reading(counter: Counters, stats: seq<Stat>) {
    && (forall i :: 0 <= i < |stats| ==> stats[i].name in counter && counter[stats[i].name] == stats[i].value)
    && (forall i, j :: 0 <= i < j < |stats| ==> stats[i].name != stats[j].name)
    && (forall n :: n in counter ==> exists i :: 0 <= i < |stats| && stats[i].name == n)
  }

  /** A restart loses what was not read before it. */
  function MissedByRestart(w: World): Counters {
    map n | n in w.missed.Keys + w.books.baseline.Keys ::
      Value(w.missed, n) + if n in w.books.baseline then Unread(w, n) else 0
  }

  /** A restart the counter has caught up with since does not show as a drop, and hides as much again. */
  function MissedByReading(w: World): Counters {
    map n | n in w.missed.Keys + w.restarted ::
      Value(w.missed, n) + if Hidden(w, n) then w.books.baseline[n] else 0
  }

  predicate Hidden(w: World, name: string) {
    name in w.restarted && name in w.books.baseline && name in w.counter && w.counter[name] >= w.books.baseline[name]
  }

  function Collected(w: World, books: Books): World {
    w.(books := books, restarted := w.restarted - w.counter.Keys, missed := MissedByReading(w))
  }

  ghost function Next(w: World, e: Event): World {
    match e
    case Move(n, bytes) =>
      w.(counter := w.counter[n := Value(w.counter, n) + bytes],
         since := if n in w.books.baseline then w.since[n := Value(w.since, n) + bytes] else w.since)
    case Restart =>
      w.(counter := map[], restarted := w.books.baseline.Keys, missed := MissedByRestart(w))
    case Collect(stats) =>
      if Reading(w.counter, stats) then
        Collected(w, FoldFirst(w.books, stats, |stats|))
      else w
    case Take(prefix, consume) =>
      if consume then
        w.(books := w.books.(pending := NotUnder(w.books.pending, prefix)),
           consumed := map n | n in w.consumed.Keys + w.books.pending.Keys ::
             Value(w.consumed, n) + Value(Under(w.books.pending, prefix), n))
      else w
  }

  ghost function After(events: seq<Event>, n: nat): World
    requires n <= |events|
  {
    if n == 0 then INITIAL else Next(After(events, n - 1), events[n - 1])
  }

  // ---------------------------------------------------------------- invariant

  ghost predicate Sound(w: World, name: string) {
    && 0 <= Value(w.counter, name) && 0 <= Value(w.books.baseline, name)
    && 0 <= Value(w.books.pending, name) && 0 <= Value(w.missed, name)
    && (name in w.restarted ==> name in w.books.baseline)
    && (name in w.books.baseline ==> 0 <= Unread(w, name))
    && (name !in w.books.baseline ==> name !in w.books.pending && Value(w.since, name) == 0 == Value(w.consumed, name) == Value(w.missed, name))
    && (name in w.books.baseline ==> Balanced(w, name))
  }

  ghost predicate Balanced(w: World, name: string) {
    Value(w.consumed, name) + Value(w.books.pending, name) + Unread(w, name) + Value(w.missed, name) == Value(w.since, name)
  }

  lemma FoldElsewhere(b: Books, s: Stat, name: string)
    requires s.name != name
    ensures SameAt(FoldOne(b, s), b, name)
  {
  }

  lemma FoldAlike(a: Books, b: Books, s: Stat)
    requires SameAt(a, b, s.name)
    ensures SameAt(FoldOne(a, s), FoldOne(b, s), s.name)
  {
  }

  lemma SameTogether(a: Books, b: Books, c: Books, name: string)
    ensures SameAt(a, a, name) && (SameAt(a, b, name) && SameAt(b, c, name) ==> SameAt(a, c, name))
  {
  }

  /** A reading with one value per counter folds each counter once. */
  lemma {:induction false} FoldDistinct(b: Books, stats: seq<Stat>, n: nat, name: string)
    requires n <= |stats| && forall i, j :: 0 <= i < j < |stats| ==> stats[i].name != stats[j].name
    ensures (forall i :: 0 <= i < n ==> stats[i].name != name) ==>
              SameAt(FoldFirst(b, stats, n), b, name)
    ensures forall i :: 0 <= i < n && stats[i].name == name ==> SameAt(FoldFirst(b, stats, n), FoldOne(b, stats[i]), name)
  {
    hide SameAt, FoldOne;
    if n == 0 {
      SameTogether(b, b, b, name);
    } else {
      FoldDistinct(b, stats, n - 1, name);
      var before, s := FoldFirst(b, stats, n - 1), stats[n - 1];
      if s.name == name {
        FoldAlike(before, b, s);
      } else {
        FoldElsewhere(before, s, name);
        SameTogether(FoldOne(before, s), before, b, name);
        forall i | 0 <= i < n - 1 && stats[i].name == name ensures SameAt(FoldOne(before, s), FoldOne(b, stats[i]), name) {
          SameTogether(FoldOne(before, s), before, FoldOne(b, stats[i]), name);
        }
      }
    }
  }

  ghost predicate SameAt(a: Books, b: Books, name: string) {
    && (name in a.baseline <==> name in b.baseline) && Value(a.baseline, name) == Value(b.baseline, name)
    && (name in a.pending <==> name in b.pending) && Value(a.pending, name) == Value(b.pending, name)
  }

  lemma MoveKeepsSound(w: World, moved: string, bytes: nat, name: string)
    requires Sound(w, name)
    ensures Sound(Next(w, Move(moved, bytes)), name)
  {
  }

  lemma RestartKeepsSound(w: World, name: string)
    requires Sound(w, name)
    ensures Sound(Next(w, Restart), name)
  {
  }

  lemma TakeKeepsSound(w: World, prefix: string, consume: bool, name: string)
    requires Sound(w, name)
    ensures Sound(Next(w, Take(prefix, consume)), name)
  {
  }

  lemma ReadCounterSound(w: World, books: Books, name: string)
    requires Sound(w, name) && name in w.counter && SameAt(books, FoldOne(w.books, Stat(name, w.counter[name])), name)
    ensures Sound(Collected(w, books), name) && Unread(Collected(w, books), name) == 0
  {
  }

  lemma AbsentCounterSound(w: World, books: Books, name: string)
    requires Sound(w, name) && name !in w.counter && SameAt(books, w.books, name)
    ensures Sound(Collected(w, books), name)
  {
  }

  lemma CollectKeepsSound(w: World, stats: seq<Stat>, name: string)
    requires Sound(w, name) && Reading(w.counter, stats)
    ensures Sound(Next(w, Collect(stats)), name)
    ensures name in w.counter ==> Unread(Next(w, Collect(stats)), name) == 0
  {
    FoldDistinct(w.books, stats, |stats|, name);
    var books := FoldFirst(w.books, stats, |stats|);
    hide FoldFirst, Sound, SameAt, Collected, Unread;
    if name in w.counter {
      var i :| 0 <= i < |stats| && stats[i].name == name;
      assert stats[i] == Stat(name, w.counter[name]);
      ReadCounterSound(w, books, name);
    } else {
      AbsentCounterSound(w, books, name);
    }
  }

  lemma {:induction false} SoundAfter(events: seq<Event>, n: nat, name: string)
    requires n <= |events|
    ensures Sound(After(events, n), name)
  {
    if n > 0 {
      var w, e := After(events, n - 1), events[n - 1];
      SoundAfter(events, n - 1, name);
      hide Sound;
      match e
      case Move(moved, bytes) => MoveKeepsSound(w, moved, bytes, name);
      case Restart => RestartKeepsSound(w, name);
      case Take(prefix, consume) => TakeKeepsSound(w, prefix, consume, name);
      case Collect(stats) =>
        if Reading(w.counter, stats) {
          CollectKeepsSound(w, stats, name);
        }
    }
  }

  /**
   * In every run, what was consumed of a counter and what waits for its caller
   * never exceed what was moved since it was first seen, and all that is missing
   * is what was not read yet, what was not read before a restart, and what a
   * restart hid that did not show as a drop.
   */
  lemma CountersConserved(events: seq<Event>, n: nat, name: string)
    requires n <= |events|
    ensures var w := After(events, n);
            var billed := Value(w.consumed, name) + Value(w.books.pending, name);
            && billed <= Value(w.since, name)
            && (name in w.books.baseline ==> billed == Value(w.since, name) - Unread(w, name) - Value(w.missed, name))
            && 0 <= Value(w.missed, name)
  {
    SoundAfter(events, n, name);
  }

  /** Nothing a restart took or hid, up to now. */
  ghost predicate NothingMissed(events: seq<Event>, n: nat, name: string)
    requires n <= |events|
  {
    n == 0 || (NothingMissed(events, n - 1, name) && !Misses(After(events, n - 1), events[n - 1], name))
  }

  ghost predicate Misses(w: World, e: Event, name: string) {
    match e
    case Restart => name in w.books.baseline && Unread(w, name) > 0
    case Collect(stats) => Reading(w.counter, stats) && Hidden(w, name) && w.books.baseline[name] > 0
    case _ => false
  }

  lemma MissesAdds(w: World, e: Event, name: string)
    requires Sound(w, name)
    ensures Value(Next(w, e).missed, name) >= Value(w.missed, name)
    ensures Value(Next(w, e).missed, name) == Value(w.missed, name) <==> !Misses(w, e, name)
  {
    hide FoldFirst;
  }

  lemma {:induction false} MissedWhen(events: seq<Event>, n: nat, name: string)
    requires n <= |events|
    ensures Value(After(events, n).missed, name) == 0 <==> NothingMissed(events, n, name)
  {
    if n > 0 {
      MissedWhen(events, n - 1, name);
      SoundAfter(events, n - 1, name);
      assert 0 <= Value(After(events, n - 1).missed, name);
      hide Sound, Misses, Next;
      MissesAdds(After(events, n - 1), events[n - 1], name);
    }
  }

  /**
   * Right after a reading the bill is exact if and only if no restart came with
   * something unread, and every restart showed as a drop or had nothing to hide.
   */
  lemma ExactAfterCollect(events: seq<Event>, n: nat, name: string)
    requires 0 < n <= |events| && events[n - 1].Collect? && Reading(After(events, n - 1).counter, events[n - 1].stats)
    requires name in After(events, n - 1).counter && name in After(events, n - 1).books.baseline
    ensures var w := After(events, n);
            Value(w.consumed, name) + Value(w.books.pending, name) == Value(w.since, name) <==> NothingMissed(events, n, name)
  {
    var w := After(events, n - 1);
    SoundAfter(events, n - 1, name);
    CollectKeepsSound(w, events[n - 1].stats, name);
    BaselineStays(w.books, events[n - 1].stats, |events[n - 1].stats|, name);
    MissedWhen(events, n, name);
    hide FoldFirst, NothingMissed, Reading;
  }

  lemma {:induction false} BaselineStays(b: Books, stats: seq<Stat>, n: nat, name: string)
    requires n <= |stats| && name in b.baseline
    ensures name in FoldFirst(b, stats, n).baseline
  {
    if n > 0 {
      BaselineStays(b, stats, n - 1, name);
    }
  }

  /** A counter is read at `a`, the core restarts, and `b` more is moved before the next reading. */
  function RestartRun(name: string, a: nat, b: nat): (run: seq<Event>)
    ensures |run| == 5
  {
    [Move(name, a), Collect([Stat(name, a)]), Restart, Move(name, b), Collect([Stat(name, b)])]
  }

  lemma OneReading(w: World, name: string, value: int)
    requires w.counter == map[name := value]
    ensures var stats := [Stat(name, value)];
            Reading(w.counter, stats) && Next(w, Collect(stats)) == Collected(w, FoldOne(w.books, Stat(name, value)))
  {
    var stats := [Stat(name, value)];
    assert stats[0].name == name;
    assert FoldFirst(w.books, stats, 0) == w.books;
    assert FoldFirst(w.books, stats, 1) == FoldOne(w.books, Stat(name, value));
    assert Reading(w.counter, stats);
  }

  lemma RestartRead(w: World, name: string, a: nat)
    requires w == INITIAL
    ensures var w' := Next(Next(w, Move(name, a)), Collect([Stat(name, a)]));
            && w'.books == Books(map[name := a], map[]) && w'.counter == map[name := a]
            && Value(w'.since, name) == 0 && Value(w'.missed, name) == 0 && w'.consumed == map[]
  {
    var w1 := Next(w, Move(name, a));
    assert w1.counter == map[name := a];
    OneReading(w1, name, a);
    hide Next;
  }

  lemma RestartMoves(w: World, name: string, a: nat, b: nat)
    requires w.books == Books(map[name := a], map[]) && w.counter == map[name := a] && Value(w.since, name) == 0
    ensures var w' := Next(Next(w, Restart), Move(name, b));
            && w'.books == w.books && w'.counter == map[name := b] && w'.restarted == {name}
            && Value(w'.since, name) == b && w'.consumed == w.consumed
  {
    var w1 := Next(w, Restart);
    assert w1.counter == map[] && w1.restarted == {name};
  }

  /** If the counter has caught up by then, as much as it held before the restart is missing from the bill. */
  lemma {:induction false} RestartHidden(name: string, a: nat, b: nat)
    requires a <= b
    ensures var w := After(RestartRun(name, a, b), 5);
            Value(w.since, name) == b && Value(w.consumed, name) + Value(w.books.pending, name) == b - a
  {
    var events := RestartRun(name, a, b);
    assert After(events, 0) == INITIAL;
    hide Next;
    RestartRead(After(events, 0), name, a);
    assert After(events, 2) == Next(Next(After(events, 0), events[0]), events[1]);
    RestartMoves(After(events, 2), name, a, b);
    assert After(events, 4) == Next(Next(After(events, 2), events[2]), events[3]);
    OneReading(After(events, 4), name, b);
  }

  /** A take for another prefix, or one that only looks, changes nothing about a counter. */
  lemma TakeOnlyItsOwn(w: World, prefix: string, consume: bool, name: string)
    requires !consume || !(prefix <= name)
    ensures var w' := Next(w, Take(prefix, consume));
            && (name in w'.books.pending <==> name in w.books.pending)
            && Value(w'.books.pending, name) == Value(w.books.pending, name)
            && Value(w'.consumed, name) == Value(w.consumed, name) && w'.books.baseline == w.books.baseline
  {
  }
}

/**
 * The world OpenVPN is billed in: clients come, move bytes and go; the daemon
 * reports over one ordered management stream; the node receives, polls and
 * collects; the panel reads.
 *
 * A poll asks for the status and waits. The daemon answers each request with a
 * snapshot of its live sessions, at some time; whatever answer arrives while the
 * node waits ends the wait, and so does a timeout. The node then copies the
 * answer that arrived last, be it late, meant for an earlier request or one it
 * has collected with before, and collects with the copy. Disconnects may happen,
 * and ends and answers may arrive, at any point in between.
 */
module OpenVpnWorld {
  import opened Traffic
  import opened RunningTotals
  import opened OpenVpnStats

  /** How far the end of a session has got: on the stream, in the queue, folded by a poll. */
  datatype Stage = Live | Leaving | Queued | Settled {
    /** Its end has not arrived yet. */
    predicate Awaited() {
      Live? || Leaving?
    }
  }

  datatype Session = Session(cn: Name, bytes: Bytes, stage: Stage)

  datatype Message = End(row: Row) | Status(rows: seq<Row>)

  datatype Phase = Idle | Waiting | Ready | Holding(rows: seq<Row>)

  datatype World = World(
    sessions: map<Name, Session>,  // every session there ever was
    stream: seq<Message>,
    asked: nat,                    // requests the daemon has not answered yet
    phase: Phase,
    books: Books,
    status: seq<Row>,              // the answer that arrived last
    last: seq<Row>,                // the rows the node collected with last
    rebilled: map<Name, Bytes>,    // per session, what was billed on top of its final totals
    money: Money,
    timedOut: bool)                // whether a wait ever timed out

  datatype Event =
    | Connect(cid: Name, cn: Name)
    | Move(cid: Name, moved: Bytes)
    | Disconnect(cid: Name)
    | Ask
    | Reply(rows: seq<Row>)
    | Receive
    | Timeout
    | Copy
    | Collect
    | Reads(read: Read)

  const INITIAL := World(map[], [], 0, Idle, Books(map[], []), [], [], map[], NO_MONEY, false)

  function RowOf(w: World, cid: Name): Row
    requires cid in w.sessions
  {
    Row(cid, w.sessions[cid].cn, w.sessions[cid].bytes)
  }

  ghost predicate Distinct(rows: seq<Row>) {
    forall i, j :: 0 <= i < j < |rows| ==> rows[i].clientID != rows[j].clientID
  }

  /** Every live session once, with its counters as they are now, in any order. */
  ghost predicate Snapshot(w: World, rows: seq<Row>) {
    && Distinct(rows)
    && (forall i :: 0 <= i < |rows| ==>
          && rows[i].clientID in w.sessions
          && w.sessions[rows[i].clientID].stage.Live?
          && rows[i] == RowOf(w, rows[i].clientID))
    && (forall cid :: cid in w.sessions && w.sessions[cid].stage.Live? ==> cid in ClientIDs(rows))
  }

  function Joined(w: World, cid: Name, who: Name): World {
    w.(sessions := w.sessions[cid := Session(who, Bytes(0, 0), Live)], rebilled := w.rebilled[cid := Bytes(0, 0)])
  }

  function Moved(w: World, cid: Name, b: Bytes): World
    requires cid in w.sessions
  {
    var s := w.sessions[cid];
    w.(sessions := w.sessions[cid := s.(bytes := Bytes(s.bytes.rx + b.rx, s.bytes.tx + b.tx))])
  }

  function Staged(w: World, cid: Name, stage: Stage): map<Name, Session>
    requires cid in w.sessions
  {
    w.sessions[cid := w.sessions[cid].(stage := stage)]
  }

  function Left(w: World, cid: Name): World
    requires cid in w.sessions
  {
    w.(sessions := Staged(w, cid, Leaving), stream := w.stream + [End(RowOf(w, cid))])
  }

  function Replied(w: World, rows: seq<Row>): World
    requires w.asked > 0
  {
    w.(asked := w.asked - 1, stream := w.stream + [Status(rows)])
  }

  /** Queued ends become settled when a poll folds them in. */
  function SettleQueued(sessions: map<Name, Session>): map<Name, Session> {
    map cid | cid in sessions ::
      if sessions[cid].stage.Queued? then sessions[cid].(stage := Settled) else sessions[cid]
  }

  /** Events that make no sense in the current state leave it alone. */
  ghost function Next(w: World, e: Event): World {
    match e
    case Connect(cid, cn) =>
      if cid !in w.sessions && cid != NO_NAME && cn != NO_NAME then Joined(w, cid, cn) else w
    case Move(cid, b) =>
      if cid in w.sessions && w.sessions[cid].stage.Live? && b.NonNegative() then Moved(w, cid, b) else w
    case Disconnect(cid) =>
      if cid in w.sessions && w.sessions[cid].stage.Live? then Left(w, cid) else w
    case Ask => if w.phase.Idle? then w.(phase := Waiting, asked := w.asked + 1) else w
    case Reply(rows) => if w.asked > 0 && Snapshot(w, rows) then Replied(w, rows) else w
    case Receive => if w.stream == [] then w else Received(w)
    case Timeout => if w.phase.Waiting? then w.(phase := Ready, timedOut := true) else w
    case Copy => if w.phase.Ready? then w.(phase := Holding(w.status)) else w
    case Collect => if w.phase.Holding? then Billed(w, w.phase.rows) else w
    case Reads(read) => w.(money := Reading(w.money, read))
  }

  ghost function Billed(w: World, rows: seq<Row>): World {
    w.(phase := Idle, sessions := SettleQueued(w.sessions),
       books := Collected(w.books, rows), last := rows,
       rebilled := map cid | cid in w.sessions ::
         Bytes(At(w.rebilled, cid, Uplink) + Rebill(w, rows, cid, Uplink), At(w.rebilled, cid, Downlink) + Rebill(w, rows, cid, Downlink)),
       money := Absorbed(w.money, Folded(w.books, rows).growth))
  }

  function Received(w: World): World
    requires w.stream != []
  {
    var w' := w.(stream := w.stream[1..]);
    match w.stream[0]
    case Status(rows) => w'.(status := rows, phase := if w.phase.Waiting? then Ready else w.phase)
    case End(row) =>
      // A disconnect event without a client id or a name is not recorded.
      if row.clientID == NO_NAME || row.commonName == NO_NAME || row.clientID !in w.sessions then w'
      else w'.(sessions := Staged(w, row.clientID, Queued), books := w.books.(ended := w.books.ended + [row]))
  }

  ghost function After(events: seq<Event>, n: nat): World
    requires n <= |events|
  {
    if n == 0 then INITIAL else Next(After(events, n - 1), events[n - 1])
  }

  // ----------------------------------------------------------- what is billed

  /** Settled sessions count in full, the others at their last polled counters. */
  ghost function PaidBySession(w: World): map<Name, Bytes> {
    map cid | cid in w.sessions ::
      if w.sessions[cid].stage.Settled? then w.sessions[cid].bytes
      else if cid in w.books.seen then w.books.seen[cid].bytes
      else Bytes(0, 0)
  }

  /** What the base lines say each session has been billed. */
  ghost function Baseline(w: World): map<Name, Bytes> {
    map cid | cid in w.sessions :: if cid in w.books.seen then w.books.seen[cid].bytes else Bytes(0, 0)
  }

  /** Per-session amounts once the first `n` of these rows are paid up to. */
  ghost function PaidUpTo(paid: map<Name, Bytes>, rows: seq<Row>, n: nat): map<Name, Bytes>
    requires n <= |rows|
  {
    if n == 0 then paid else PaidUpTo(paid, rows, n - 1)[rows[n - 1].clientID := rows[n - 1].bytes]
  }

  /** What collecting with these rows bills for a session that is settled already. */
  ghost function Rebill(w: World, rows: seq<Row>, cid: Name, d: Direction): int
    requires cid in w.sessions
  {
    if w.sessions[cid].stage.Settled? then At(PaidUpTo(Baseline(w), rows, |rows|), cid, d) - At(Baseline(w), cid, d) else 0
  }

  ghost function MovedBySession(w: World): map<Name, Bytes> {
    map cid | cid in w.sessions :: w.sessions[cid].bytes
  }

  ghost function OwnerOf(w: World): map<Name, Name> {
    map cid | cid in w.sessions :: w.sessions[cid].cn
  }

  // ---------------------------------------------------------------- invariant

  ghost predicate NamesSound(w: World) {
    forall cid :: cid in w.sessions ==>
      cid != NO_NAME && w.sessions[cid].cn != NO_NAME && w.sessions[cid].bytes.NonNegative()
  }

  /** The node's base lines lag behind their sessions' counters. */
  ghost predicate SeenSound(w: World) {
    forall cid :: cid in w.books.seen ==>
      && cid in w.sessions
      && w.books.seen[cid].bytes.NonNegative()
      && w.books.seen[cid].bytes.AtMost(w.sessions[cid].bytes)
  }

  /** The queue holds each queued session once, with its final counters. */
  ghost predicate QueueSound(w: World) {
    && Distinct(w.books.ended)
    && (forall i :: 0 <= i < |w.books.ended| ==>
          && w.books.ended[i].clientID in w.sessions
          && w.sessions[w.books.ended[i].clientID].stage.Queued?
          && w.books.ended[i] == RowOf(w, w.books.ended[i].clientID))
    && (forall cid :: cid in w.sessions && w.sessions[cid].stage.Queued? ==> cid in ClientIDs(w.books.ended))
  }

  /** An end still on the stream belongs to a leaving session, which has only that one. */
  ghost predicate StreamSound(w: World) {
    && (forall i :: 0 <= i < |w.stream| && w.stream[i].End? ==>
          && w.stream[i].row.clientID in w.sessions
          && w.sessions[w.stream[i].row.clientID].stage.Leaving?
          && w.stream[i].row == RowOf(w, w.stream[i].row.clientID))
    && (forall i, j :: 0 <= i < j < |w.stream| && w.stream[i].End? && w.stream[j].End? ==>
          w.stream[i].row.clientID != w.stream[j].row.clientID)
  }

  ghost predicate EndsBefore(stream: seq<Message>, cid: Name, p: int) {
    exists i :: 0 <= i < p && i < |stream| && stream[i].End? && stream[i].row.clientID == cid
  }

  /** A leaving session's end is somewhere on the stream. */
  ghost predicate LeaversOnStream(w: World) {
    forall cid :: cid in w.sessions && w.sessions[cid].stage.Leaving? ==> EndsBefore(w.stream, cid, |w.stream|)
  }

  /** Rows are about sessions there are, and behind their counters. */
  ghost predicate RowsFit(w: World, rows: seq<Row>) {
    && Distinct(rows)
    && (forall i :: 0 <= i < |rows| ==>
          var cid := rows[i].clientID;
          && cid in w.sessions && rows[i].commonName == w.sessions[cid].cn
          && rows[i].bytes.NonNegative() && rows[i].bytes.AtMost(w.sessions[cid].bytes))
  }

  /** Rows on the stream are about sessions whose end comes after them. */
  ghost predicate RowsAhead(w: World, rows: seq<Row>, p: int) {
    forall i :: 0 <= i < |rows| ==>
      && rows[i].clientID in w.sessions && w.sessions[rows[i].clientID].stage.Awaited()
      && !EndsBefore(w.stream, rows[i].clientID, p)
  }

  /**
   * One answer is older than another at position `p` of the stream: its counters
   * are behind, and who is missing from the newer one has their end in front of it.
   */
  ghost predicate Older(w: World, rows: seq<Row>, newer: seq<Row>, p: int) {
    && (forall cid :: cid in ClientIDs(rows) && cid in w.sessions && w.sessions[cid].stage.Awaited() ==>
          cid in ClientIDs(newer) || EndsBefore(w.stream, cid, p))
    && (forall i, j :: 0 <= i < |rows| && 0 <= j < |newer| && rows[i].clientID == newer[j].clientID ==>
          rows[i].bytes.AtMost(newer[j].bytes))
  }

  /** Rows the node can collect with: ahead of the base lines, and covering all of them whose end is awaited. */
  ghost predicate RowsSound(w: World, rows: seq<Row>) {
    && RowsFit(w, rows)
    && (forall i :: 0 <= i < |rows| && rows[i].clientID in w.books.seen ==>
          w.books.seen[rows[i].clientID].bytes.AtMost(rows[i].bytes))
    && (forall cid :: cid in w.books.seen && cid in w.sessions && w.sessions[cid].stage.Awaited() ==> cid in ClientIDs(rows))
  }

  ghost predicate NoneSettled(w: World, rows: seq<Row>) {
    forall i :: 0 <= i < |rows| ==> rows[i].clientID in w.sessions && !w.sessions[rows[i].clientID].stage.Settled?
  }

  /** The answer that arrived last, and the copy the node may hold of it or of an older one. */
  ghost predicate StatusSound(w: World) {
    && RowsSound(w, w.status)
    && (w.phase.Holding? ==> RowsSound(w, w.phase.rows) && Older(w, w.phase.rows, w.status, 0))
  }

  /** Without timeouts nobody in the rows about to be collected is settled. */
  ghost predicate Timely(w: World) {
    && (w.phase.Ready? && !w.timedOut ==> NoneSettled(w, w.status))
    && (w.phase.Holding? && !w.timedOut ==> NoneSettled(w, w.phase.rows))
  }

  /** Each row of the last collection is its session's base line, unless the end was folded with it. */
  ghost predicate LastSound(w: World) {
    && Distinct(w.last)
    && (forall i :: 0 <= i < |w.last| ==>
          && w.last[i].clientID in w.sessions
          && if w.last[i].clientID in w.books.seen then w.books.seen[w.last[i].clientID] == w.last[i]
             else w.sessions[w.last[i].clientID].stage.Settled?)
  }

  /** An answer on the stream, at position `p`: newer than the one that arrived last. */
  ghost predicate AnswerAhead(w: World, rows: seq<Row>, p: int) {
    RowsFit(w, rows) && RowsAhead(w, rows, p) && Older(w, w.status, rows, p)
  }

  ghost predicate AnswersAhead(w: World) {
    forall p :: 0 <= p < |w.stream| && w.stream[p].Status? ==> AnswerAhead(w, w.stream[p].rows, p)
  }

  /** Answers on the stream come in the order they were given in. */
  ghost predicate AnswersInOrder(w: World) {
    forall p, q :: 0 <= p < q < |w.stream| && w.stream[p].Status? && w.stream[q].Status? ==>
      Older(w, w.stream[p].rows, w.stream[q].rows, q)
  }

  ghost predicate RebilledSound(w: World) {
    && w.rebilled.Keys == w.sessions.Keys
    && (forall cid :: cid in w.rebilled ==> w.rebilled[cid].NonNegative())
    && (forall cid :: cid in w.rebilled && !w.timedOut ==> w.rebilled[cid] == Bytes(0, 0))
  }

  /** Transport: where every session's bytes are between the daemon and the books. */
  ghost predicate Transport(w: World) {
    && NamesSound(w)
    && SeenSound(w)
    && QueueSound(w)
    && StreamSound(w)
    && LeaversOnStream(w)
    && StatusSound(w)
    && Timely(w)
    && LastSound(w)
    && AnswersAhead(w)
    && AnswersInOrder(w)
    && RebilledSound(w)
  }

  /** Money: what a user is charged is what was paid for their sessions, and what was billed again. */
  ghost predicate MoneyRight(w: World, cn: Name, d: Direction) {
    && InStep(w.money)
    && Right(w.money, cn, d)
    && Charged(w.money, cn, d) == TotalOf(PaidBySession(w), OwnerOf(w), cn, d) + TotalOf(w.rebilled, OwnerOf(w), cn, d)
  }

  // ------------------------------------------------ transport, event by event

  /** Only live sessions change: they grow, or start to leave. New ones are live. */
  ghost predicate Evolves(w: World, w': World) {
    && w'.books == w.books && w'.status == w.status && w'.last == w.last
    && w'.phase == w.phase && w'.timedOut == w.timedOut
    && w.stream <= w'.stream
    && (forall i :: |w.stream| <= i < |w'.stream| ==> w'.stream[i].End?)
    && (forall cid :: cid in w.sessions ==>
          && cid in w'.sessions
          && w'.sessions[cid].cn == w.sessions[cid].cn
          && w.sessions[cid].bytes.AtMost(w'.sessions[cid].bytes)
          && (w.sessions[cid].stage.Live? ==> w'.sessions[cid].stage.Awaited())
          && (!w.sessions[cid].stage.Live? ==> w'.sessions[cid] == w.sessions[cid]))
    && (forall cid :: cid in w'.sessions && cid !in w.sessions ==> w'.sessions[cid].stage.Live?)
  }

  lemma SameEnds(stream: seq<Message>, longer: seq<Message>, cid: Name, p: int)
    requires stream <= longer && p <= |stream|
    ensures EndsBefore(longer, cid, p) <==> EndsBefore(stream, cid, p)
  {
    assert forall i :: 0 <= i < p ==> longer[i] == stream[i];
  }

  lemma EndsStay(stream: seq<Message>, longer: seq<Message>, cid: Name, p: int)
    requires stream <= longer && EndsBefore(stream, cid, p)
    ensures EndsBefore(longer, cid, p) && EndsBefore(longer, cid, |longer|)
  {
    var i :| 0 <= i < p && i < |stream| && stream[i].End? && stream[i].row.clientID == cid;
    assert longer[i] == stream[i];
  }

  lemma EvolvingKeepsSeen(w: World, w': World)
    requires SeenSound(w) && QueueSound(w) && Evolves(w, w')
    ensures SeenSound(w') && QueueSound(w')
  {
  }

  lemma EvolvingKeepsFit(w: World, w': World, rows: seq<Row>)
    requires RowsFit(w, rows) && Evolves(w, w')
    ensures RowsFit(w', rows)
  {
  }

  lemma EvolvingKeepsRows(w: World, w': World, rows: seq<Row>)
    requires SeenSound(w) && RowsSound(w, rows) && Evolves(w, w')
    ensures RowsSound(w', rows)
  {
    EvolvingKeepsFit(w, w', rows);
    hide RowsFit;
  }

  lemma EvolvingKeepsStatus(w: World, w': World)
    requires SeenSound(w) && StatusSound(w) && Evolves(w, w')
    ensures StatusSound(w')
  {
    EvolvingKeepsRows(w, w', w.status);
    if w.phase.Holding? {
      EvolvingKeepsRows(w, w', w.phase.rows);
      EvolvingKeepsOlder(w, w', w.phase.rows, w.status, 0);
    }
    hide Older;
  }

  lemma EvolvingKeepsLast(w: World, w': World)
    requires Timely(w) && LastSound(w) && Evolves(w, w')
    ensures Timely(w') && LastSound(w')
  {
  }

  lemma EvolvingKeepsAhead(w: World, w': World, rows: seq<Row>, p: int)
    requires RowsAhead(w, rows, p) && Evolves(w, w') && p <= |w.stream|
    ensures RowsAhead(w', rows, p)
  {
    forall i | 0 <= i < |rows| ensures !EndsBefore(w'.stream, rows[i].clientID, p) {
      SameEnds(w.stream, w'.stream, rows[i].clientID, p);
    }
    hide EndsBefore;
  }

  lemma EvolvingKeepsOlder(w: World, w': World, rows: seq<Row>, newer: seq<Row>, p: int)
    requires Older(w, rows, newer, p) && RowsFit(w, rows) && Evolves(w, w') && p <= |w.stream|
    ensures Older(w', rows, newer, p)
  {
    hide EndsBefore;
    forall cid | cid in ClientIDs(rows) && cid in w'.sessions && w'.sessions[cid].stage.Awaited()
      ensures cid in ClientIDs(newer) || EndsBefore(w'.stream, cid, p)
    {
      SameEnds(w.stream, w'.stream, cid, p);
      var i :| 0 <= i < |rows| && rows[i].clientID == cid;
    }
  }

  lemma EvolvingKeepsAnswers(w: World, w': World)
    requires RowsFit(w, w.status) && AnswersAhead(w) && Evolves(w, w')
    ensures AnswersAhead(w')
  {
    hide RowsFit, RowsAhead, Older;
    forall p | 0 <= p < |w'.stream| && w'.stream[p].Status? ensures AnswerAhead(w', w'.stream[p].rows, p) {
      assert p < |w.stream| && w.stream[p] == w'.stream[p];
      EvolvingKeepsFit(w, w', w.stream[p].rows);
      EvolvingKeepsAhead(w, w', w.stream[p].rows, p);
      EvolvingKeepsOlder(w, w', w.status, w.stream[p].rows, p);
    }
  }

  lemma EvolvingKeepsOrder(w: World, w': World)
    requires AnswersAhead(w) && AnswersInOrder(w) && Evolves(w, w')
    ensures AnswersInOrder(w')
  {
    hide RowsFit, RowsAhead, Older;
    forall p, q | 0 <= p < q < |w'.stream| && w'.stream[p].Status? && w'.stream[q].Status?
      ensures Older(w', w'.stream[p].rows, w'.stream[q].rows, q)
    {
      assert q < |w.stream| && w.stream[p] == w'.stream[p] && w.stream[q] == w'.stream[q];
      assert AnswerAhead(w, w.stream[p].rows, p);
      EvolvingKeepsOlder(w, w', w.stream[p].rows, w.stream[q].rows, q);
    }
  }

  /** What does not follow from evolving alone. */
  ghost predicate Rest(w: World) {
    NamesSound(w) && StreamSound(w) && LeaversOnStream(w) && RebilledSound(w)
  }

  lemma EvolvedKeepsTransport(w: World, w': World)
    requires Transport(w) && Evolves(w, w') && Rest(w')
    ensures Transport(w')
  {
    assert RowsFit(w, w.status);
    hide Evolves, NamesSound, SeenSound, QueueSound, StreamSound, LeaversOnStream, StatusSound, Timely, LastSound, AnswersAhead, AnswersInOrder, RebilledSound, RowsFit;
    EvolvingKeepsSeen(w, w');
    EvolvingKeepsStatus(w, w');
    EvolvingKeepsLast(w, w');
    EvolvingKeepsAnswers(w, w');
    EvolvingKeepsOrder(w, w');
  }

  lemma ConnectKeepsTransport(w: World, cid: Name, cn: Name)
    requires Transport(w) && cid !in w.sessions && cid != NO_NAME && cn != NO_NAME
    ensures Transport(Joined(w, cid, cn))
  {
    ConnectEvolves(w, cid, cn);
    ConnectKeepsRest(w, cid, cn);
    EvolvedKeepsTransport(w, Joined(w, cid, cn));
    hide Transport;
  }

  lemma ConnectEvolves(w: World, cid: Name, cn: Name)
    requires cid !in w.sessions
    ensures Evolves(w, Joined(w, cid, cn))
  {
  }

  lemma ConnectKeepsRest(w: World, cid: Name, cn: Name)
    requires Rest(w) && cid !in w.sessions && cid != NO_NAME && cn != NO_NAME
    ensures Rest(Joined(w, cid, cn))
  {
    hide EndsBefore;
  }

  lemma MoveKeepsTransport(w: World, cid: Name, b: Bytes)
    requires Transport(w) && cid in w.sessions && w.sessions[cid].stage.Live? && b.NonNegative()
    ensures Transport(Moved(w, cid, b))
  {
    MoveEvolves(w, cid, b);
    MoveKeepsRest(w, cid, b);
    EvolvedKeepsTransport(w, Moved(w, cid, b));
    hide Transport;
  }

  lemma MoveEvolves(w: World, cid: Name, b: Bytes)
    requires cid in w.sessions && w.sessions[cid].stage.Live? && b.NonNegative()
    ensures Evolves(w, Moved(w, cid, b))
  {
  }

  lemma MoveKeepsRest(w: World, cid: Name, b: Bytes)
    requires Rest(w) && cid in w.sessions && w.sessions[cid].stage.Live? && b.NonNegative()
    ensures Rest(Moved(w, cid, b))
  {
    hide EndsBefore;
  }

  lemma DisconnectKeepsTransport(w: World, cid: Name)
    requires Transport(w) && cid in w.sessions && w.sessions[cid].stage.Live?
    ensures Transport(Left(w, cid))
  {
    hide Evolves, NamesSound, SeenSound, QueueSound, StreamSound, LeaversOnStream, StatusSound, Timely, LastSound, AnswersAhead, AnswersInOrder, RebilledSound, Left;
    DisconnectEvolves(w, cid);
    DisconnectKeepsStream(w, cid);
    DisconnectKeepsLeavers(w, cid);
    DisconnectKeepsNames(w, cid);
    EvolvedKeepsTransport(w, Left(w, cid));
  }

  lemma DisconnectEvolves(w: World, cid: Name)
    requires cid in w.sessions && w.sessions[cid].stage.Live?
    ensures Evolves(w, Left(w, cid))
  {
  }

  lemma DisconnectKeepsNames(w: World, cid: Name)
    requires NamesSound(w) && RebilledSound(w) && cid in w.sessions && w.sessions[cid].stage.Live?
    ensures NamesSound(Left(w, cid)) && RebilledSound(Left(w, cid))
  {
  }

  lemma DisconnectKeepsStream(w: World, cid: Name)
    requires StreamSound(w) && cid in w.sessions && w.sessions[cid].stage.Live?
    ensures StreamSound(Left(w, cid))
  {
    var w' := Left(w, cid);
    assert forall i :: 0 <= i < |w.stream| ==> w'.stream[i] == w.stream[i];
    assert w'.stream[|w.stream|] == End(RowOf(w, cid));
  }

  lemma DisconnectKeepsLeavers(w: World, cid: Name)
    requires LeaversOnStream(w) && cid in w.sessions && w.sessions[cid].stage.Live?
    ensures LeaversOnStream(Left(w, cid))
  {
    var w' := Left(w, cid);
    assert w'.stream[|w.stream|] == End(RowOf(w, cid));
    assert EndsBefore(w'.stream, cid, |w'.stream|);
    forall c | EndsBefore(w.stream, c, |w.stream|) ensures EndsBefore(w'.stream, c, |w'.stream|) {
      EndsStay(w.stream, w'.stream, c, |w.stream|);
    }
    hide EndsBefore;
  }

  /** Asking, timing out and reading touch neither sessions, stream nor books. */
  lemma QuietKeepsTransport(w: World, w': World)
    requires Transport(w) && w'.sessions == w.sessions && w'.stream == w.stream && w'.books == w.books
    requires w'.status == w.status && w'.last == w.last && w'.rebilled == w.rebilled && (w.timedOut ==> w'.timedOut)
    requires w'.phase == w.phase || !(w'.phase.Ready? || w'.phase.Holding?) || (w'.phase.Ready? && w'.timedOut)
    ensures Transport(w')
  {
    QuietKeepsFit(w, w');
    QuietKeepsFlight(w, w');
    assert forall rows, newer, p :: Older(w', rows, newer, p) == Older(w, rows, newer, p);
    hide RowsFit, AnswersAhead, AnswersInOrder, EndsBefore, Older;
  }

  lemma CopyKeepsTransport(w: World)
    requires Transport(w) && w.phase.Ready?
    ensures Transport(w.(phase := Holding(w.status)))
  {
    var w' := w.(phase := Holding(w.status));
    QuietKeepsFit(w, w');
    QuietKeepsFlight(w, w');
    assert RowsSound(w, w.status);
    assert Older(w', w.status, w.status, 0);
    hide RowsFit, AnswersAhead, AnswersInOrder, EndsBefore, Older, StreamSound;
  }

  lemma QuietKeepsFit(w: World, w': World)
    requires w'.sessions == w.sessions
    ensures forall rows :: RowsFit(w', rows) == RowsFit(w, rows)
  {
  }

  lemma QuietKeepsFlight(w: World, w': World)
    requires AnswersAhead(w) && AnswersInOrder(w) && w'.sessions == w.sessions && w'.stream == w.stream && w'.status == w.status
    ensures AnswersAhead(w') && AnswersInOrder(w')
  {
    QuietKeepsFit(w, w');
    assert forall rows, p :: RowsAhead(w', rows, p) == RowsAhead(w, rows, p);
    assert forall rows, newer, p :: Older(w', rows, newer, p) == Older(w, rows, newer, p);
    hide RowsFit, RowsAhead, Older;
  }

  // -------------------------------------------------------------------- reply

  lemma ReplyKeepsTransport(w: World, rows: seq<Row>)
    requires Transport(w) && w.asked > 0 && Snapshot(w, rows)
    ensures Transport(Replied(w, rows))
  {
    ReplyKeepsStream(w, rows);
    ReplyKeepsAnswers(w, rows);
    ReplyKeepsOrder(w, rows);
    QuietKeepsFit(w, Replied(w, rows));
    if w.phase.Holding? {
      LongerKeeps(w, Replied(w, rows), w.status, w.phase.rows, 0);
    }
    hide StreamSound, LeaversOnStream, AnswersAhead, AnswersInOrder, EndsBefore, RowsFit, Snapshot, Older;
  }

  lemma ReplyKeepsStream(w: World, rows: seq<Row>)
    requires StreamSound(w) && LeaversOnStream(w) && w.asked > 0
    ensures StreamSound(Replied(w, rows)) && LeaversOnStream(Replied(w, rows))
  {
    var w' := Replied(w, rows);
    forall c | EndsBefore(w.stream, c, |w.stream|) ensures EndsBefore(w'.stream, c, |w'.stream|) {
      EndsStay(w.stream, w'.stream, c, |w.stream|);
    }
    hide EndsBefore;
    assert forall i :: 0 <= i < |w.stream| ==> w'.stream[i] == w.stream[i];
    assert w'.stream[|w.stream|] == Status(rows);
  }

  /** A new answer is newer than any other. */
  lemma SnapshotIsNewest(w: World, w': World, rows: seq<Row>, older: seq<Row>)
    requires StreamSound(w) && LeaversOnStream(w) && Snapshot(w, rows) && RowsFit(w, older)
    requires w'.sessions == w.sessions && w.stream <= w'.stream
    ensures Older(w', older, rows, |w.stream|)
  {
    forall cid | cid in ClientIDs(older) && cid in w.sessions && w.sessions[cid].stage.Awaited()
      ensures cid in ClientIDs(rows) || EndsBefore(w'.stream, cid, |w.stream|)
    {
      if w.sessions[cid].stage.Leaving? {
        EndsStay(w.stream, w'.stream, cid, |w.stream|);
      }
    }
    hide EndsBefore, StreamSound, LeaversOnStream;
  }

  lemma SnapshotIsAhead(w: World, w': World, rows: seq<Row>)
    requires NamesSound(w) && StreamSound(w) && Snapshot(w, rows) && w'.sessions == w.sessions && w.stream <= w'.stream
    ensures RowsAhead(w', rows, |w.stream|) && RowsFit(w', rows)
  {
    forall i | 0 <= i < |rows| ensures !EndsBefore(w'.stream, rows[i].clientID, |w.stream|) {
      SameEnds(w.stream, w'.stream, rows[i].clientID, |w.stream|);
    }
  }

  lemma ReplyKeepsAnswers(w: World, rows: seq<Row>)
    requires Transport(w) && w.asked > 0 && Snapshot(w, rows)
    ensures AnswersAhead(Replied(w, rows))
  {
    var w', n := Replied(w, rows), |w.stream|;
    assert RowsFit(w, w.status);
    SnapshotIsAhead(w, w', rows);
    SnapshotIsNewest(w, w', rows, w.status);
    QuietKeepsFit(w, w');
    hide NamesSound, SeenSound, QueueSound, StatusSound, Timely, LastSound, RebilledSound, StreamSound, LeaversOnStream, AnswersInOrder;
    hide EndsBefore, RowsFit, RowsAhead, Older, Snapshot;
    forall p | 0 <= p < |w'.stream| && w'.stream[p].Status? ensures AnswerAhead(w', w'.stream[p].rows, p) {
      if p < n {
        assert w.stream[p] == w'.stream[p];
        LongerKeeps(w, w', w.stream[p].rows, w.status, p);
      }
    }
  }

  lemma ReplyKeepsOrder(w: World, rows: seq<Row>)
    requires Transport(w) && w.asked > 0 && Snapshot(w, rows)
    ensures AnswersInOrder(Replied(w, rows))
  {
    var w', n := Replied(w, rows), |w.stream|;
    hide NamesSound, SeenSound, QueueSound, StatusSound, Timely, LastSound, RebilledSound, StreamSound, LeaversOnStream;
    hide EndsBefore, RowsFit, RowsAhead, Older, Snapshot;
    forall p, q | 0 <= p < q < |w'.stream| && w'.stream[p].Status? && w'.stream[q].Status?
      ensures Older(w', w'.stream[p].rows, w'.stream[q].rows, q)
    {
      assert w.stream[p] == w'.stream[p];
      assert AnswerAhead(w, w.stream[p].rows, p);
      if q < n {
        assert w.stream[q] == w'.stream[q];
        LongerKeeps(w, w', w.stream[q].rows, w.stream[p].rows, q);
      } else {
        SnapshotIsNewest(w, w', rows, w.stream[p].rows);
      }
    }
  }

  lemma LongerKeeps(w: World, w': World, rows: seq<Row>, older: seq<Row>, p: int)
    requires w'.sessions == w.sessions && w.stream <= w'.stream && p <= |w.stream|
    ensures RowsAhead(w, rows, p) ==> RowsAhead(w', rows, p)
    ensures Older(w, older, rows, p) ==> Older(w', older, rows, p)
  {
    forall c ensures EndsBefore(w'.stream, c, p) <==> EndsBefore(w.stream, c, p) {
      SameEnds(w.stream, w'.stream, c, p);
    }
    hide EndsBefore;
  }

  // ------------------------------------------------------------------ receive

  /** Receiving takes one message off the front, so every other one moves up by one. */
  lemma EndsMoveUp(w: World, c: Name, p: int)
    requires w.stream != [] && p >= 1
    ensures EndsBefore(w.stream, c, p)
       <==> (w.stream[0].End? && w.stream[0].row.clientID == c) || EndsBefore(w.stream[1..], c, p - 1)
  {
    assert forall i :: 0 <= i < |w.stream| - 1 ==> w.stream[1..][i] == w.stream[i + 1];
    if EndsBefore(w.stream, c, p) {
      var i :| 0 <= i < p && i < |w.stream| && w.stream[i].End? && w.stream[i].row.clientID == c;
      assert i > 0 ==> w.stream[1..][i - 1] == w.stream[i];
    }
    if EndsBefore(w.stream[1..], c, p - 1) {
      var i :| 0 <= i < p - 1 && i < |w.stream| - 1 && w.stream[1..][i].End? && w.stream[1..][i].row.clientID == c;
      assert w.stream[i + 1] == w.stream[1..][i];
    }
  }

  lemma ReceiveKeepsTransport(w: World)
    requires Transport(w) && w.stream != []
    ensures Transport(Received(w))
  {
    if w.stream[0].Status? {
      ReceiveStatusKeepsTransport(w);
    } else {
      ReceiveEndKeepsTransport(w);
    }
    hide Transport;
  }

  /** Rows further up keep their place relative to the rest. */
  lemma AheadMovesUp(w: World, w': World, rows: seq<Row>, p: int)
    requires w.stream != [] && w'.stream == w.stream[1..] && p >= 1 && RowsAhead(w, rows, p)
    requires forall i :: 0 <= i < |rows| ==> rows[i].clientID in w.sessions ==>
               rows[i].clientID in w'.sessions && w'.sessions[rows[i].clientID].stage == w.sessions[rows[i].clientID].stage
    ensures RowsAhead(w', rows, p - 1)
  {
    forall i | 0 <= i < |rows| ensures !EndsBefore(w'.stream, rows[i].clientID, p - 1) {
      EndsMoveUp(w, rows[i].clientID, p);
    }
    hide EndsBefore;
  }

  lemma OlderMovesUp(w: World, w': World, rows: seq<Row>, newer: seq<Row>, p: int)
    requires w.stream != [] && w'.stream == w.stream[1..] && p >= 1 && Older(w, rows, newer, p)
    requires forall c :: c in w'.sessions && w'.sessions[c].stage.Awaited() ==> c in w.sessions && w.sessions[c].stage.Awaited()
    requires w.stream[0].End? ==>
               !(w.stream[0].row.clientID in w'.sessions && w'.sessions[w.stream[0].row.clientID].stage.Awaited())
    ensures Older(w', rows, newer, p - 1)
  {
    hide EndsBefore;
    forall c | c in ClientIDs(rows) && c in w'.sessions && w'.sessions[c].stage.Awaited()
      ensures c in ClientIDs(newer) || EndsBefore(w'.stream, c, p - 1)
    {
      EndsMoveUp(w, c, p);
    }
  }

  lemma ReceiveStatusKeepsTransport(w: World)
    requires Transport(w) && w.stream != [] && w.stream[0].Status?
    ensures Transport(Received(w))
  {
    ReceiveStatusKeepsStream(w);
    ReceiveStatusKeepsStatus(w);
    ReceiveStatusKeepsTimely(w);
    ReceiveStatusKeepsAnswers(w);
    hide NamesSound, SeenSound, QueueSound, StreamSound, LeaversOnStream, StatusSound, Timely, LastSound, AnswersAhead, AnswersInOrder, RebilledSound, Received;
  }

  lemma ReceiveStatusKeepsStream(w: World)
    requires Transport(w) && w.stream != [] && w.stream[0].Status?
    ensures var w' := Received(w);
            && NamesSound(w') && SeenSound(w') && QueueSound(w') && RebilledSound(w') && StreamSound(w') && LeaversOnStream(w')
  {
    var w' := Received(w);
    hide StatusSound, Timely, LastSound, AnswersAhead, AnswersInOrder, EndsBefore;
    assert forall i :: 0 <= i < |w'.stream| ==> w'.stream[i] == w.stream[i + 1];
    forall c | c in w'.sessions && w'.sessions[c].stage.Leaving? ensures EndsBefore(w'.stream, c, |w'.stream|) {
      EndsMoveUp(w, c, |w.stream|);
    }
  }

  lemma NoEndsBeforeTheFirst(stream: seq<Message>)
    ensures forall c :: !EndsBefore(stream, c, 0)
  {
  }

  /** The first answer on the stream is ahead of whatever rows the one before it was ahead of. */
  lemma FirstIsSound(w: World, rows: seq<Row>)
    requires RowsSound(w, w.status) && AnswerAhead(w, rows, 0)
    ensures RowsSound(w, rows)
  {
    NoEndsBeforeTheFirst(w.stream);
    hide EndsBefore;
    forall i | 0 <= i < |rows| && rows[i].clientID in w.books.seen
      ensures w.books.seen[rows[i].clientID].bytes.AtMost(rows[i].bytes)
    {
      assert rows[i].clientID in ClientIDs(w.status);
      var j :| 0 <= j < |w.status| && w.status[j].clientID == rows[i].clientID;
    }
  }

  lemma OlderStill(w: World, rows: seq<Row>, newer: seq<Row>)
    requires Older(w, rows, w.status, 0) && Older(w, w.status, newer, 0) && RowsAhead(w, newer, 0)
    ensures Older(w, rows, newer, 0)
  {
    NoEndsBeforeTheFirst(w.stream);
    hide EndsBefore;
    forall i, j | 0 <= i < |rows| && 0 <= j < |newer| && rows[i].clientID == newer[j].clientID
      ensures rows[i].bytes.AtMost(newer[j].bytes)
    {
      assert rows[i].clientID in ClientIDs(rows);
      var k :| 0 <= k < |w.status| && w.status[k].clientID == rows[i].clientID;
    }
  }

  /** Rows are sound in the same way wherever sessions and base lines are the same. */
  lemma SameRowsSound(w: World, w': World, rows: seq<Row>, newer: seq<Row>)
    requires w'.sessions == w.sessions
    ensures w'.books == w.books && RowsSound(w, rows) ==> RowsSound(w', rows)
    ensures Older(w, rows, newer, 0) ==> Older(w', rows, newer, 0)
  {
    NoEndsBeforeTheFirst(w.stream);
    NoEndsBeforeTheFirst(w'.stream);
    QuietKeepsFit(w, w');
    hide RowsFit, EndsBefore;
  }

  lemma ReceiveStatusKeepsStatus(w: World)
    requires StatusSound(w) && AnswersAhead(w) && w.stream != [] && w.stream[0].Status?
    ensures StatusSound(Received(w))
  {
    var w', rows := Received(w), w.stream[0].rows;
    assert AnswerAhead(w, rows, 0);
    FirstIsSound(w, rows);
    SameRowsSound(w, w', rows, rows);
    if w.phase.Holding? {
      OlderStill(w, w.phase.rows, rows);
      SameRowsSound(w, w', w.phase.rows, rows);
    }
    hide RowsSound, Older, AnswersAhead;
  }

  lemma ReceiveStatusKeepsTimely(w: World)
    requires Timely(w) && LastSound(w) && AnswersAhead(w) && w.stream != [] && w.stream[0].Status?
    ensures Timely(Received(w)) && LastSound(Received(w))
  {
    assert AnswerAhead(w, w.stream[0].rows, 0);
    hide AnswersAhead, RowsFit, Older, EndsBefore;
  }

  lemma ReceiveStatusKeepsAnswers(w: World)
    requires AnswersAhead(w) && AnswersInOrder(w) && w.stream != [] && w.stream[0].Status?
    ensures AnswersAhead(Received(w)) && AnswersInOrder(Received(w))
  {
    var w' := Received(w);
    hide EndsBefore, RowsFit, RowsAhead, Older;
    QuietKeepsFit(w, w');
    forall p | 0 <= p < |w'.stream| && w'.stream[p].Status? ensures AnswerAhead(w', w'.stream[p].rows, p) {
      assert w'.stream[p] == w.stream[p + 1];
      AheadMovesUp(w, w', w.stream[p + 1].rows, p + 1);
      OlderMovesUp(w, w', w.stream[0].rows, w.stream[p + 1].rows, p + 1);
    }
    forall p, q | 0 <= p < q < |w'.stream| && w'.stream[p].Status? && w'.stream[q].Status?
      ensures Older(w', w'.stream[p].rows, w'.stream[q].rows, q)
    {
      assert w'.stream[p] == w.stream[p + 1] && w'.stream[q] == w.stream[q + 1];
      OlderMovesUp(w, w', w.stream[p + 1].rows, w.stream[q + 1].rows, q + 1);
    }
  }

  lemma ReceiveEndKeepsTransport(w: World)
    requires Transport(w) && w.stream != [] && w.stream[0].End?
    ensures Transport(Received(w))
  {
    ReceiveEndKeepsQueue(w);
    ReceiveEndKeepsStream(w);
    ReceiveEndKeepsStatus(w);
    ReceiveEndKeepsTimely(w);
    ReceiveEndKeepsAnswers(w);
    ReceiveEndKeepsOrder(w);
    hide NamesSound, SeenSound, QueueSound, StreamSound, LeaversOnStream, StatusSound, Timely, LastSound, AnswersAhead, AnswersInOrder, RebilledSound, Received;
  }

  /** What an end does to the sessions: it queues one that was leaving. */
  lemma EndQueues(w: World)
    requires NamesSound(w) && StreamSound(w) && w.stream != [] && w.stream[0].End?
    ensures var w', row := Received(w), w.stream[0].row;
            && row.clientID in w.sessions && w.sessions[row.clientID].stage.Leaving? && row == RowOf(w, row.clientID)
            && w'.sessions == w.sessions[row.clientID := w.sessions[row.clientID].(stage := Queued)]
            && w'.books == w.books.(ended := w.books.ended + [row]) && w'.stream == w.stream[1..]
            && w' == w.(sessions := w'.sessions, books := w'.books, stream := w'.stream)
  {
  }

  lemma ReceiveEndKeepsStream(w: World)
    requires Transport(w) && w.stream != [] && w.stream[0].End?
    ensures var w' := Received(w);
            NamesSound(w') && SeenSound(w') && StreamSound(w') && LeaversOnStream(w') && RebilledSound(w')
  {
    var w' := Received(w);
    EndQueues(w);
    hide QueueSound, StatusSound, Timely, LastSound, AnswersAhead, AnswersInOrder, EndsBefore, Received;
    assert forall i :: 0 <= i < |w'.stream| ==> w'.stream[i] == w.stream[i + 1];
    forall c | c in w'.sessions && w'.sessions[c].stage.Leaving? ensures EndsBefore(w'.stream, c, |w'.stream|) {
      EndsMoveUp(w, c, |w.stream|);
    }
  }

  lemma ReceiveEndKeepsQueue(w: World)
    requires NamesSound(w) && QueueSound(w) && StreamSound(w) && w.stream != [] && w.stream[0].End?
    ensures QueueSound(Received(w))
  {
    EndQueues(w);
    ClientIDsAppend(w.books.ended, w.stream[0].row);
    hide ClientIDs, Received, StreamSound, NamesSound;
  }

  lemma ClientIDsAppend(rows: seq<Row>, row: Row)
    ensures ClientIDs(rows + [row]) == ClientIDs(rows) + {row.clientID}
  {
    ClientIDsSnoc(rows + [row], |rows|);
    assert (rows + [row])[..|rows| + 1] == rows + [row];
    assert (rows + [row])[..|rows|] == rows;
  }

  /** One session's end has come: nothing else about the sessions and base lines is different. */
  ghost predicate Queues(w: World, w': World) {
    && w'.sessions.Keys == w.sessions.Keys && w'.books.seen == w.books.seen
    && (forall c :: c in w.sessions ==>
          && w'.sessions[c].cn == w.sessions[c].cn && w'.sessions[c].bytes == w.sessions[c].bytes
          && (w'.sessions[c].stage == w.sessions[c].stage || (w.sessions[c].stage.Leaving? && w'.sessions[c].stage.Queued?)))
  }

  lemma QueuedKeepsFit(w: World, w': World, rows: seq<Row>)
    requires RowsFit(w, rows) && Queues(w, w')
    ensures RowsFit(w', rows)
  {
  }

  lemma QueuedKeepsRows(w: World, w': World, rows: seq<Row>, newer: seq<Row>)
    requires Queues(w, w')
    ensures RowsSound(w, rows) ==> RowsSound(w', rows)
    ensures Older(w, rows, newer, 0) ==> Older(w', rows, newer, 0)
  {
    NoEndsBeforeTheFirst(w.stream);
    if RowsFit(w, rows) {
      QueuedKeepsFit(w, w', rows);
    }
    hide RowsFit, EndsBefore;
  }

  lemma ReceiveEndKeepsStatus(w: World)
    requires NamesSound(w) && StreamSound(w) && StatusSound(w) && w.stream != [] && w.stream[0].End?
    ensures StatusSound(Received(w))
  {
    var w' := Received(w);
    EndQueues(w);
    hide NamesSound, StreamSound, Received, RowsSound, Older;
    QueuedKeepsRows(w, w', w.status, w.status);
    if w.phase.Holding? {
      QueuedKeepsRows(w, w', w.phase.rows, w.status);
    }
  }

  lemma ReceiveEndKeepsTimely(w: World)
    requires NamesSound(w) && StreamSound(w) && Timely(w) && LastSound(w) && w.stream != [] && w.stream[0].End?
    ensures Timely(Received(w)) && LastSound(Received(w))
  {
    EndQueues(w);
    hide NamesSound, StreamSound, Received;
  }

  lemma ReceiveEndKeepsAnswers(w: World)
    requires NamesSound(w) && StreamSound(w) && AnswersAhead(w) && w.stream != [] && w.stream[0].End?
    ensures AnswersAhead(Received(w))
  {
    var w', gone := Received(w), w.stream[0].row.clientID;
    EndQueues(w);
    hide NamesSound, StreamSound, EndsBefore, RowsFit, Older, Received;
    forall p | 0 <= p < |w'.stream| && w'.stream[p].Status? ensures AnswerAhead(w', w'.stream[p].rows, p) {
      assert w'.stream[p] == w.stream[p + 1];
      QueuedKeepsFit(w, w', w.stream[p + 1].rows);
      EndsMoveUp(w, gone, p + 1);
      AheadMovesUp(w, w', w.stream[p + 1].rows, p + 1);
      OlderMovesUp(w, w', w.status, w.stream[p + 1].rows, p + 1);
    }
  }

  lemma ReceiveEndKeepsOrder(w: World)
    requires NamesSound(w) && StreamSound(w) && AnswersInOrder(w) && w.stream != [] && w.stream[0].End?
    ensures AnswersInOrder(Received(w))
  {
    var w' := Received(w);
    EndQueues(w);
    hide NamesSound, StreamSound, EndsBefore, RowsFit, Older, Received;
    forall p, q | 0 <= p < q < |w'.stream| && w'.stream[p].Status? && w'.stream[q].Status?
      ensures Older(w', w'.stream[p].rows, w'.stream[q].rows, q)
    {
      assert w'.stream[p] == w.stream[p + 1] && w'.stream[q] == w.stream[q + 1];
      OlderMovesUp(w, w', w.stream[p + 1].rows, w.stream[q + 1].rows, q + 1);
    }
  }
}

/**
 * Chunked user updates: the receive loop (controller/rpc/user.go) and the
 * reassembly (controller/users_chunk.go), with 64-bit indices.
 */
module UserChunks {
  import opened Wrappers

  const LIMIT: nat := 0x1_0000_0000_0000_0000

  type Index = i: int | 0 <= i < 0x1_0000_0000_0000_0000

  datatype Chunk<T> = Chunk(index: Index, users: seq<T>, last: bool)

  /** What a stream delivers: chunks, and perhaps a failure. */
  datatype Message<T> = Received(chunk: Chunk<T>) | Failed

  // ------------------------------------------------------------ specification

  /** The chunks 0 to n - 1, one after the other. */
  function Joined<T>(chunks: map<Index, seq<T>>, n: nat): seq<T>
    requires n <= LIMIT && forall i: Index :: i < n ==> i in chunks
  {
    if n == 0 then [] else Joined(chunks, n - 1) + chunks[n - 1]
  }

  ghost predicate Complete<T>(chunks: map<Index, seq<T>>, n: nat) {
    n <= LIMIT && forall i: Index :: i < n ==> i in chunks
  }

  lemma {:induction false} CompleteNeedsAll<T>(chunks: map<Index, seq<T>>, n: nat)
    requires Complete(chunks, n)
    ensures n <= |chunks|
    decreases n
  {
    if n > 0 {
      var last: Index := n - 1;
      CompleteNeedsAll(chunks - {last}, n - 1);
      assert (chunks - {last}).Keys == chunks.Keys - {last};
      assert |chunks.Keys| == |chunks| && |(chunks - {last}).Keys| == |chunks - {last}|;
    }
  }

  // ---------------------------------------------------------- implementation

  /**
   * Puts the chunks in order. The counter is 64 bits wide and wraps around, so
   * with the largest possible last index the loop condition never fails: what
   * ends the loop then is the first index that is missing.
   */
  method BuildUsersFromChunks<T>(chunks: map<Index, seq<T>>, lastIndex: Index, sawLast: bool) returns (r: Result<seq<T>>, ghost rounds: nat)
    requires |chunks| < LIMIT
    ensures r.Ok? <==> sawLast && Complete(chunks, lastIndex + 1) && Joined(chunks, lastIndex + 1) != []
    ensures r.Ok? ==> r.value == Joined(chunks, lastIndex + 1)
    ensures rounds <= |chunks| + 1
  {
    rounds := 0;
    if !sawLast {
      return Error, rounds;
    }
    var users: seq<T> := [];
    var i: Index := 0;
    while i <= lastIndex
      invariant rounds == i && i <= lastIndex + 1
      invariant Complete(chunks, i) && users == Joined(chunks, i)
      decreases |chunks| + 1 - i
    {
      CompleteNeedsAll(chunks, i);
      rounds := rounds + 1;
      if i !in chunks {
        return Error, rounds;
      }
      users := users + chunks[i];
      assert Complete(chunks, i + 1);
      CompleteNeedsAll(chunks, i + 1);
      i := (i as int + 1) % LIMIT;
    }
    CompleteNeedsAll(chunks, i);
    if users == [] {
      return Error, rounds;
    }
    return Ok(users), rounds;
  }

  // ------------------------------------------------------------- receive loop

  function At<T>(chunks: map<Index, seq<T>>, i: Index): seq<T> {
    if i in chunks then chunks[i] else []
  }

  /** Users by index after the first `n` chunks: a repeated index adds to what is there. */
  function Gathered<T>(stream: seq<Message<T>>, n: nat): map<Index, seq<T>>
    requires n <= |stream| && forall k :: 0 <= k < n ==> stream[k].Received?
  {
    if n == 0 then map[]
    else
      var before, chunk := Gathered(stream, n - 1), stream[n - 1].chunk;
      before[chunk.index := At(before, chunk.index) + chunk.users]
  }

  /** The users of all chunks with one index, in the order they arrived. */
  function Arrived<T>(stream: seq<Message<T>>, n: nat, i: Index): seq<T>
    requires n <= |stream|
  {
    if n == 0 then []
    else Arrived(stream, n - 1, i) + if stream[n - 1].Received? && stream[n - 1].chunk.index == i then stream[n - 1].chunk.users else []
  }

  /** A chunk with this index is among the first `n` messages. */
  ghost predicate Delivered<T>(stream: seq<Message<T>>, n: nat, i: Index)
    requires n <= |stream|
  {
    exists k :: 0 <= k < n && stream[k].Received? && stream[k].chunk.index == i
  }

  /** Every index collects what arrived under it, and is there exactly if something did. */
  lemma {:induction false} GatheredIs<T>(stream: seq<Message<T>>, n: nat, i: Index)
    requires n <= |stream| && forall k :: 0 <= k < n ==> stream[k].Received?
    ensures At(Gathered(stream, n), i) == Arrived(stream, n, i)
    ensures i in Gathered(stream, n) <==> Delivered(stream, n, i)
  {
    hide Delivered, At, Gathered, Arrived;
    if n == 0 {
      NothingArrived(stream, i);
    } else {
      GatheredIs(stream, n - 1, i);
      DeliveredStep(stream, n, i);
      GatheredStep(stream, n);
      ArrivedStep(stream, n, i);
      GatherOne(Gathered(stream, n - 1), stream[n - 1].chunk, i);
    }
  }

  lemma NothingArrived<T>(stream: seq<Message<T>>, i: Index)
    ensures At(Gathered(stream, 0), i) == Arrived(stream, 0, i) && i !in Gathered(stream, 0) && !Delivered(stream, 0, i)
  {
  }

  lemma ArrivedStep<T>(stream: seq<Message<T>>, n: nat, i: Index)
    requires 0 < n <= |stream| && stream[n - 1].Received?
    ensures Arrived(stream, n, i)
         == Arrived(stream, n - 1, i) + if stream[n - 1].chunk.index == i then stream[n - 1].chunk.users else []
  {
  }

  lemma GatheredStep<T>(stream: seq<Message<T>>, n: nat)
    requires 0 < n <= |stream| && forall k :: 0 <= k < n ==> stream[k].Received?
    ensures var before, chunk := Gathered(stream, n - 1), stream[n - 1].chunk;
            Gathered(stream, n) == before[chunk.index := At(before, chunk.index) + chunk.users]
  {
    hide At;
  }

  lemma GatherOne<T>(before: map<Index, seq<T>>, chunk: Chunk<T>, i: Index)
    ensures var after := before[chunk.index := At(before, chunk.index) + chunk.users];
            && At(after, i) == At(before, i) + (if chunk.index == i then chunk.users else [])
            && (i in after <==> i in before || chunk.index == i)
  {
  }

  lemma DeliveredStep<T>(stream: seq<Message<T>>, n: nat, i: Index)
    requires 0 < n <= |stream| && stream[n - 1].Received?
    ensures Delivered(stream, n, i) <==> Delivered(stream, n - 1, i) || stream[n - 1].chunk.index == i
  {
  }

  predicate Stops<T>(m: Message<T>) {
    m.Failed? || m.chunk.last
  }

  /** The first message that fails or is flagged as the last, or the end of the stream. */
  function StopOf<T>(stream: seq<Message<T>>, n: nat): (k: nat)
    requires n <= |stream|
    ensures n <= k <= |stream| && (forall i :: n <= i < k ==> !Stops(stream[i])) && (k < |stream| ==> Stops(stream[k]))
    decreases |stream| - n
  {
    if n == |stream| || Stops(stream[n]) then n else StopOf(stream, n + 1)
  }

  /** The chunks are complete up to the one flagged as the last, and not all empty. */
  ghost predicate Acceptable<T>(stream: seq<Message<T>>) {
    var k := StopOf(stream, 0);
    && k < |stream| && stream[k].Received?
    && Complete(Gathered(stream, k + 1), stream[k].chunk.index + 1)
    && Joined(Gathered(stream, k + 1), stream[k].chunk.index + 1) != []
  }

  lemma {:induction false} GatheredSize<T>(stream: seq<Message<T>>, n: nat)
    requires n <= |stream| && forall k :: 0 <= k < n ==> stream[k].Received?
    ensures |Gathered(stream, n)| <= n
  {
    if n > 0 {
      GatheredSize(stream, n - 1);
      var before, chunk := Gathered(stream, n - 1), stream[n - 1].chunk;
      var after := Gathered(stream, n);
      assert after.Keys == before.Keys + {chunk.index};
      assert |after.Keys| == |after| && |before.Keys| == |before|;
    }
  }

  /** Receives until the last chunk, a failure or the end, and reassembles. */
  method SyncUsersChunked<T>(stream: seq<Message<T>>) returns (r: Result<seq<T>>)
    requires |stream| < LIMIT
    ensures r.Ok? <==> Acceptable(stream)
    ensures r.Ok? ==> var k := StopOf(stream, 0);
                      r.value == Joined(Gathered(stream, k + 1), stream[k].chunk.index + 1)
  {
    var chunks: map<Index, seq<T>> := map[];
    var lastIndex: Index, sawLast := 0, false;
    var n := 0;
    while n < |stream| && !sawLast
      invariant n <= |stream| && forall k :: 0 <= k < n ==> stream[k].Received?
      invariant chunks == Gathered(stream, n)
      invariant !sawLast ==> StopOf(stream, 0) == StopOf(stream, n)
      invariant sawLast ==> 0 < n == StopOf(stream, 0) + 1 && lastIndex == stream[n - 1].chunk.index
      decreases |stream| - n
    {
      match stream[n]
      case Failed =>
        return Error;
      case Received(chunk) =>
        chunks := chunks[chunk.index := At(chunks, chunk.index) + chunk.users];
        if chunk.last {
          sawLast, lastIndex := true, chunk.index;
        }
        n := n + 1;
    }
    GatheredSize(stream, n);
    ghost var rounds;
    r, rounds := BuildUsersFromChunks(chunks, lastIndex, sawLast);
  }

  // --------------------------------------------------------------- round trip

  function Flatten<T>(parts: seq<seq<T>>, n: nat): seq<T>
    requires n <= |parts|
  {
    if n == 0 then [] else Flatten(parts, n - 1) + parts[n - 1]
  }

  /** A list split into indexed chunks, sent in some order with the last one last. */
  ghost predicate Sends<T>(stream: seq<Message<T>>, parts: seq<seq<T>>) {
    && 0 < |stream| == |parts| < LIMIT
    && (forall k :: 0 <= k < |stream| ==>
          && stream[k].Received? && stream[k].chunk.index < |parts|
          && stream[k].chunk.users == parts[stream[k].chunk.index]
          && (stream[k].chunk.last <==> stream[k].chunk.index == |parts| - 1))
    && (forall j, k :: 0 <= j < k < |stream| ==> stream[j].chunk.index != stream[k].chunk.index)
    && (forall i: Index :: i < |parts| ==> Delivered(stream, |stream|, i))
    && stream[|stream| - 1].chunk.last
  }

  lemma {:induction false} GatheredFrom<T>(stream: seq<Message<T>>, parts: seq<seq<T>>, n: nat, i: Index)
    requires Sends(stream, parts) && n <= |stream|
    ensures i in Gathered(stream, n) <==> Delivered(stream, n, i)
    ensures i in Gathered(stream, n) ==> i < |parts| && Gathered(stream, n)[i] == parts[i]
  {
    if n > 0 {
      GatheredFrom(stream, parts, n - 1, i);
      GatheredFrom(stream, parts, n - 1, stream[n - 1].chunk.index);
    }
  }

  lemma {:induction false} JoinedIsFlat<T>(chunks: map<Index, seq<T>>, parts: seq<seq<T>>, n: nat)
    requires n <= |parts| < LIMIT && Complete(chunks, |parts|) && forall i: Index :: i < |parts| ==> chunks[i] == parts[i]
    ensures Joined(chunks, n) == Flatten(parts, n)
  {
    if n > 0 {
      JoinedIsFlat(chunks, parts, n - 1);
      var last: Index := n - 1;
      assert chunks[last] == parts[last];
    }
  }

  lemma {:induction false} StopIsLast<T>(stream: seq<Message<T>>, parts: seq<seq<T>>, n: nat)
    requires Sends(stream, parts) && n < |stream|
    ensures StopOf(stream, n) == |stream| - 1
    decreases |stream| - n
  {
    if n < |stream| - 1 {
      assert stream[n].chunk.index != stream[|stream| - 1].chunk.index;
      StopIsLast(stream, parts, n + 1);
    }
  }

  /** Whatever order its chunks arrive in, a list is put together exactly as it was. */
  lemma Reassembled<T>(stream: seq<Message<T>>, parts: seq<seq<T>>)
    requires Sends(stream, parts)
    ensures var k := StopOf(stream, 0);
            && k == |stream| - 1 && stream[k].chunk.index + 1 == |parts|
            && Complete(Gathered(stream, k + 1), |parts|)
            && Joined(Gathered(stream, k + 1), |parts|) == Flatten(parts, |parts|)
    ensures Acceptable(stream) <==> Flatten(parts, |parts|) != []
  {
    StopIsLast(stream, parts, 0);
    var chunks := Gathered(stream, |stream|);
    forall i: Index | i < |parts| ensures i in chunks && chunks[i] == parts[i] {
      GatheredFrom(stream, parts, |stream|, i);
    }
    JoinedIsFlat(chunks, parts, |parts|);
  }

  lemma {:induction false} GatheredKeys<T>(stream: seq<Message<T>>, n: nat, i: Index)
    requires n <= |stream| && forall k :: 0 <= k < n ==> stream[k].Received?
    ensures i in Gathered(stream, n) <==> Delivered(stream, n, i)
  {
    if n > 0 {
      GatheredKeys(stream, n - 1, i);
    }
  }

  /** A gap below the last chunk is never papered over. */
  lemma GapIsRefused<T>(stream: seq<Message<T>>, i: Index)
    requires var k := StopOf(stream, 0);
             k < |stream| && stream[k].Received? && i < stream[k].chunk.index && !Delivered(stream, k + 1, i)
    ensures !Acceptable(stream)
  {
    GatheredKeys(stream, StopOf(stream, 0) + 1, i);
  }
}

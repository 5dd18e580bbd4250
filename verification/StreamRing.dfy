/** The stream as the C struct: a ring of chunks and flags, updated in place by each critical section. */
module StreamRing {
  import opened Facets
  import opened Messages
  import opened Words
  import S = Stream
  import opened Stream

  const CLEARED := Chunk([], 0)

  /** The i-th slot after `head`. */
  function Index(head: nat, i: nat, capacity: nat): nat {
    if head + i < capacity then head + i else head + i - capacity
  }

  lemma NextIndex(head: nat, capacity: nat)
    requires head < capacity
    ensures (head + 1) % capacity == Index(head, 1, capacity)
  {
    if head + 1 == capacity {
      assert capacity % capacity == 0;
    }
  }

  /** From `head` on, the slots hold the queued chunks. */
  ghost predicate Filled(head: nat, slots: seq<Chunk>, queue: seq<Chunk>) {
    head < |slots| && |queue| <= |slots| && forall i :: 0 <= i < |queue| ==> slots[Index(head, i, |slots|)] == queue[i]
  }

  lemma FillNext(head: nat, slots: seq<Chunk>, queue: seq<Chunk>, chunk: Chunk)
    requires Filled(head, slots, queue) && |queue| < |slots|
    ensures Filled(head, slots[Index(head, |queue|, |slots|) := chunk], queue + [chunk])
  {
  }

  lemma TakeFirst(head: nat, slots: seq<Chunk>, queue: seq<Chunk>)
    requires Filled(head, slots, queue) && queue != []
    ensures slots[head] == queue[0] && Filled(Index(head, 1, |slots|), slots[head := CLEARED], queue[1..])
  {
    var next := Index(head, 1, |slots|);
    assert slots[Index(head, 0, |slots|)] == queue[0];
    forall i | 0 <= i < |queue| - 1
      ensures slots[head := CLEARED][Index(next, i, |slots|)] == queue[1..][i]
    {
      assert Index(next, i, |slots|) == Index(head, i + 1, |slots|);
    }
  }

  lemma ChangeFirst(head: nat, slots: seq<Chunk>, queue: seq<Chunk>, chunk: Chunk)
    requires Filled(head, slots, queue) && queue != []
    ensures slots[head] == queue[0] && Filled(head, slots[head := chunk], queue[0 := chunk])
  {
    assert slots[Index(head, 0, |slots|)] == queue[0];
  }

  class HcurlStream {
    const kind: Kind
    const chunks: array<Chunk>
    const capacity: nat
    var head: nat
    var tail: nat
    var count: nat
    var finished: bool
    var closed: bool
    var paused: bool
    var terminalSet: bool
    var terminalCode: int
    var cancelSent: bool
    var readWaiter: Option<Waker>
    var writeWaiter: Option<Waker>

    /** The struct is in the state `s`. */
    ghost predicate Holds(s: Stream)
      reads this, chunks
    {
      && Ring(s.queue) && kind == s.kind && capacity == s.capacity
      && finished == s.finished && closed == s.closed && paused == s.paused && cancelSent == s.cancelSent
      && s.terminal == (if terminalSet then Some(terminalCode) else None)
      && readWaiter == s.readWaiter && writeWaiter == s.writeWaiter
    }

    ghost predicate Ring(queue: seq<Chunk>)
      reads this, chunks
    {
      && count == |queue| <= capacity == chunks.Length && head < capacity && tail < capacity
      && tail == Index(head, count, capacity)
      && forall facet :: Shown(facet) && facet.Chunks? ==> Filled(head, chunks[..], queue)
    }

    static method Create(kind: Kind, capacity: nat, senderRetained: bool, transferId: nat, memory: bool)
      returns (stream: HcurlStream?)
      ensures stream != null <==>
              capacity != 0 && capacity <= SIZE_MAX / 24 && transferId != 0 && senderRetained && memory
      ensures stream != null ==> fresh(stream) && fresh(stream.chunks) && stream.Holds(S.Create(kind, capacity))
    {
      if capacity == 0 || capacity > SIZE_MAX / 24 || transferId == 0 || !senderRetained {
        return null;
      }
      if !memory {
        return null;
      }
      stream := new HcurlStream(kind, capacity);
    }

    constructor (kind: Kind, capacity: nat)
      requires capacity > 0
      ensures Holds(S.Create(kind, capacity)) && fresh(chunks)
    {
      this.kind := kind;
      this.capacity := capacity;
      chunks := new Chunk[capacity](_ => CLEARED);
      head, tail, count := 0, 0, 0;
      finished, closed, paused, cancelSent := false, false, false, false;
      terminalSet, terminalCode := false, CURLE_OK;
      readWaiter, writeWaiter := None, None;
    }

    /** Append at the tail. */
    method PushChunk(ghost queue: seq<Chunk>, data: seq<Byte>)
      requires Ring(queue) && |queue| < capacity
      modifies this`tail, this`count, chunks
      ensures Ring(queue + [Chunk(data, 0)])
    {
      assert Shown(Chunks);
      FillNext(head, chunks[..], queue, Chunk(data, 0));
      NextIndex(tail, capacity);
      chunks[tail] := Chunk(data, 0);
      tail := (tail + 1) % capacity;
      count := count + 1;
    }

    /** Clear the slot at the head and step past it. */
    method PopChunk(ghost queue: seq<Chunk>) returns (chunk: Chunk)
      requires Ring(queue) && queue != []
      modifies this`head, this`count, chunks
      ensures Ring(queue[1..]) && chunk == queue[0]
    {
      assert Shown(Chunks);
      TakeFirst(head, chunks[..], queue);
      NextIndex(head, capacity);
      chunk := chunks[head];
      chunks[head] := CLEARED;
      head := (head + 1) % capacity;
      count := count - 1;
    }

    method DropChunks(ghost queue: seq<Chunk>)
      requires Ring(queue)
      modifies this`head, this`tail, this`count, chunks
      ensures Ring([])
    {
      ghost var rest := queue;
      while count > 0
        invariant Ring(rest)
        decreases count
      {
        var _ := PopChunk(rest);
        rest := rest[1..];
      }
      tail := head;
    }

    method DetachRead() returns (wake: Option<Waker>)
      modifies this`readWaiter
      ensures wake == old(readWaiter) && readWaiter == None
    {
      wake := readWaiter;
      readWaiter := None;
    }

    method DetachWrite() returns (wake: Option<Waker>)
      modifies this`writeWaiter
      ensures wake == old(writeWaiter) && writeWaiter == None
    {
      wake := writeWaiter;
      writeWaiter := None;
    }

    /** libcurl passes the number of bytes as a product; one that overflows is rejected. */
    method OnDownload(ghost s: Stream, data: seq<Byte>, size: nat, items: nat, memory: bool)
      returns (answer: WriteAnswer, wake: Option<Waker>)
      requires Holds(s) && size < WORD && items < WORD && (size * items < WORD ==> |data| == size * items)
      modifies this, chunks
      ensures size * items < WORD ==> Holds(S.OnDownload(s, data, memory).s)
      ensures size * items < WORD ==> answer == S.OnDownload(s, data, memory).answer
      ensures size * items >= WORD ==> Holds(s) && answer == Rejected
      ensures wake == if answer.Taken? then s.readWaiter else None
    {
      var fits, total := CheckedSize(size, items);
      if kind != Download || !fits || total == 0 {
        return Rejected, None;
      }
      answer, wake := TakeBlock(s, data, memory);
    }

    /** The callback's critical section. */
    method TakeBlock(ghost s: Stream, data: seq<Byte>, memory: bool) returns (answer: WriteAnswer, wake: Option<Waker>)
      requires Holds(s) && kind == Download && data != []
      modifies this, chunks
      ensures Holds(S.OnDownload(s, data, memory).s) && answer == S.OnDownload(s, data, memory).answer
      ensures wake == if answer.Taken? then s.readWaiter else None
    {
      if closed || terminalSet {
        return Rejected, None;
      }
      if count == capacity {
        paused := true;
        return PauseReplay, None;
      }
      if !memory {
        return Rejected, None;
      }
      PushChunk(s.queue, data);
      var pauseNow := false;
      if count == capacity {
        paused := true;
        pauseNow := true;
      }
      wake := DetachRead();
      answer := Taken(pauseNow);
    }

    method OnUpload(ghost s: Stream, size: nat, items: nat) returns (answer: SendAnswer, wake: Option<Waker>)
      requires Holds(s) && size < WORD && items < WORD
      modifies this, chunks
      ensures size * items < WORD ==> Holds(S.OnUpload(s, size * items).s)
      ensures size * items < WORD ==> answer == S.OnUpload(s, size * items).answer
      ensures size * items < WORD ==>
                wake == if S.OnUpload(s, size * items).s.writeWaiter == s.writeWaiter then None else s.writeWaiter
      ensures size * items >= WORD ==> Holds(s) && answer == Abort && wake == None
    {
      var fits, room := CheckedSize(size, items);
      if kind != Upload || !fits {
        return Abort, None;
      }
      if room == 0 {
        return NoRoom, None;
      }
      answer, wake := SendBlock(s, room);
    }

    /** The callback's critical section. */
    method SendBlock(ghost s: Stream, room: nat) returns (answer: SendAnswer, wake: Option<Waker>)
      requires Holds(s) && kind == Upload && room > 0
      modifies this, chunks
      ensures Holds(S.OnUpload(s, room).s) && answer == S.OnUpload(s, room).answer
      ensures wake == if S.OnUpload(s, room).s.writeWaiter == s.writeWaiter then None else s.writeWaiter
    {
      if closed || (terminalSet && terminalCode != CURLE_OK) {
        return Abort, None;
      }
      if count == 0 {
        if finished {
          return Eof, None;
        }
        paused := true;
        return Pause, None;
      }
      var wasFull := count == capacity;
      answer := CopyFirst(s.queue, room);
      wake := None;
      if wasFull && count < capacity {
        wake := DetachWrite();
      }
    }

    /** Copy from the first chunk, and drop it once it is used up. */
    method CopyFirst(ghost queue: seq<Chunk>, room: nat) returns (answer: SendAnswer)
      requires Ring(queue) && queue != [] && room > 0
      modifies this`head, this`count, chunks
      ensures var rest, copied := Rest(queue[0]), Least(|Rest(queue[0])|, room);
              && answer == Bytes(rest[..copied])
              && Ring(if copied < |rest| then queue[0 := queue[0].(offset := queue[0].offset + copied)] else queue[1..])
    {
      assert Shown(Chunks);
      ChangeFirst(head, chunks[..], queue, queue[0]);
      var chunk := chunks[head];
      var remaining := Rest(chunk);
      var copied := if |remaining| < room then |remaining| else room;
      answer := Bytes(remaining[..copied]);
      if copied == |remaining| {
        var _ := PopChunk(queue);
      } else {
        ChangeFirst(head, chunks[..], queue, chunk.(offset := chunk.offset + copied));
        chunks[head] := chunk.(offset := chunk.offset + copied);
      }
    }

    method TryRead(ghost s: Stream) returns (answer: ReadAnswer)
      requires Holds(s)
      modifies this, chunks
      ensures Holds(S.TryRead(s).s) && answer == S.TryRead(s).answer
    {
      if kind != Download {
        return ReadClosed;
      }
      if count > 0 {
        var chunk := PopChunk(s.queue);
        return Got(chunk.data, paused);
      }
      if closed {
        return ReadClosed;
      }
      if terminalSet {
        return Finished(terminalCode);
      }
      answer := ReadBlocks;
    }

    method WaitRead(ghost s: Stream, w: Waker) returns (answer: WaitAnswer)
      requires Holds(s)
      modifies this`readWaiter
      ensures Holds(S.WaitRead(s, w).s) && answer == S.WaitRead(s, w).answer
    {
      if kind != Download {
        return Invalid;
      }
      if count > 0 || closed || terminalSet {
        return Ready;
      }
      if paused {
        return ControlPending;
      }
      if readWaiter.Some? {
        return Invalid;
      }
      readWaiter := Some(w);
      answer := Registered;
    }

    method CancelWaitRead(ghost s: Stream, w: Waker) returns (removed: bool)
      requires Holds(s)
      modifies this`readWaiter
      ensures Holds(S.CancelWaitRead(s, w).s) && removed == S.CancelWaitRead(s, w).answer
    {
      if kind != Download {
        return false;
      }
      removed := false;
      if readWaiter == Some(w) {
        readWaiter := None;
        removed := true;
      }
    }

    method TryWrite(ghost s: Stream, data: seq<Byte>, memory: bool) returns (answer: SendResult)
      requires Holds(s)
      modifies this, chunks
      ensures Holds(S.TryWrite(s, data, memory).s) && answer == S.TryWrite(s, data, memory).answer
    {
      if kind != Upload {
        return SendClosed;
      }
      if closed {
        return SendClosed;
      }
      if terminalSet {
        return SendTerminal(terminalCode);
      }
      if finished {
        return SendClosed;
      }
      if |data| == 0 {
        return Sent(false);
      }
      if count == capacity {
        return SendBlocks;
      }
      if !memory {
        return SendNoMemory;
      }
      PushChunk(s.queue, data);
      answer := Sent(paused);
    }

    method WaitWrite(ghost s: Stream, w: Waker) returns (answer: WaitAnswer)
      requires Holds(s)
      modifies this`writeWaiter
      ensures Holds(S.WaitWrite(s, w).s) && answer == S.WaitWrite(s, w).answer
    {
      if kind != Upload {
        return Invalid;
      }
      if count < capacity || closed || terminalSet {
        return Ready;
      }
      if writeWaiter.Some? {
        return Invalid;
      }
      writeWaiter := Some(w);
      answer := Registered;
    }

    method CancelWaitWrite(ghost s: Stream, w: Waker) returns (removed: bool)
      requires Holds(s)
      modifies this`writeWaiter
      ensures Holds(S.CancelWaitWrite(s, w).s) && removed == S.CancelWaitWrite(s, w).answer
    {
      if kind != Upload {
        return false;
      }
      removed := false;
      if writeWaiter == Some(w) {
        writeWaiter := None;
        removed := true;
      }
    }

    method FinishUpload(ghost s: Stream) returns (answer: SendResult)
      requires Holds(s)
      modifies this`finished
      ensures Holds(S.FinishUpload(s).s) && answer == S.FinishUpload(s).answer
    {
      if kind != Upload {
        return SendClosed;
      }
      if closed {
        return SendClosed;
      }
      if terminalSet {
        return SendTerminal(terminalCode);
      }
      finished := true;
      answer := Sent(paused);
    }

    method TakePause(ghost s: Stream) returns (needed: bool)
      requires Holds(s)
      modifies this`paused
      ensures Holds(S.TakePause(s).s) && needed == S.TakePause(s).answer
    {
      needed := paused && !closed && !terminalSet && !cancelSent;
      if needed {
        paused := false;
      }
    }

    method RestorePause(ghost s: Stream)
      requires Holds(s)
      modifies this`paused
      ensures Holds(S.RestorePause(s))
    {
      if !closed && !terminalSet && !cancelSent {
        paused := true;
      }
    }

    method Close(ghost s: Stream) returns (needsCancel: bool, wakeRead: Option<Waker>, wakeWrite: Option<Waker>)
      requires Holds(s)
      modifies this, chunks
      ensures Holds(S.Close(s).s) && needsCancel == S.Close(s).answer
      ensures wakeRead == s.readWaiter && wakeWrite == s.writeWaiter
    {
      closed := true;
      paused := false;
      DropChunks(s.queue);
      wakeRead := DetachRead();
      wakeWrite := DetachWrite();
      needsCancel := !terminalSet && !cancelSent;
      if needsCancel {
        cancelSent := true;
      }
    }

    method RestoreCancel(ghost s: Stream)
      requires Holds(s)
      modifies this`cancelSent
      ensures Holds(S.RestoreCancel(s))
    {
      if !terminalSet {
        cancelSent := false;
      }
    }

    method NormalizeCompletion(ghost s: Stream, code: int) returns (final: int)
      requires Holds(s)
      ensures final == S.NormalizeCompletion(s, code)
    {
      var cancelled := closed || cancelSent;
      final := if cancelled then CURLE_ABORTED_BY_CALLBACK else code;
    }

    method Complete(ghost s: Stream, code: int) returns (wakeRead: Option<Waker>, wakeWrite: Option<Waker>)
      requires Holds(s)
      modifies this
      ensures Holds(S.Complete(s, code)) && wakeRead == s.readWaiter && wakeWrite == s.writeWaiter
    {
      if !terminalSet {
        terminalSet := true;
        terminalCode := code;
      }
      paused := false;
      wakeRead := DetachRead();
      wakeWrite := DetachWrite();
    }

    method Destroy(ghost s: Stream) returns (wakeRead: Option<Waker>, wakeWrite: Option<Waker>)
      requires Holds(s)
      modifies this, chunks
      ensures Holds(S.Destroy(s)) && wakeRead == s.readWaiter && wakeWrite == s.writeWaiter
    {
      closed := true;
      DropChunks(s.queue);
      wakeRead := DetachRead();
      wakeWrite := DetachWrite();
    }
  }
}

/** What the callers of a stream are told on every run, in terms of the bytes accepted and handed on; and that nobody
    who is told to go on leaves libcurl stopped. */
module StreamAnswers {
  import opened Messages
  import opened Stream
  import opened StreamProtocol
  import V = Verdicts

  // ---- bytes and chunks

  lemma NothingPending(queue: seq<Chunk>)
    requires NoneEmpty(queue)
    ensures Pending(queue) == [] <==> queue == []
  {
    if queue != [] {
      assert Rest(queue[0]) != [];
    }
  }

  /** Until it is closed, a stream's ring is empty exactly when everything accepted has been handed on. */
  lemma EmptyMeansHandedOn(t: State)
    requires Inv(t) && !t.s.closed
    ensures t.s.queue == [] <==> t.passed == t.entered
    ensures t.s.queue != [] ==> t.passed + Rest(t.s.queue[0]) <= t.entered && Rest(t.s.queue[0]) != []
  {
    NothingPending(t.s.queue);
    if t.s.queue != [] {
      Regroup(t.passed, Rest(t.s.queue[0]), [], Pending(t.s.queue[1..]));
    }
  }

  // ---- the reader

  /** What each call of a reader is told, exactly: bytes as long as some are left, then the terminal code, and nothing
      once it has closed the stream. */
  lemma ReaderTold(capacity: nat, run: seq<State>, acts: seq<Action>, i: nat)
    requires IsRun(Download, capacity, run, acts) && i < |run|
    ensures var t, answer := run[i], TryRead(run[i].s).answer;
            && (answer == ReadClosed <==> t.s.closed)
            && (answer.Got? <==> !t.s.closed && t.passed != t.entered)
            && (answer.Got? ==> answer.data != [] && t.passed + answer.data <= t.entered)
            && (forall c :: answer == Finished(c) <==> !t.s.closed && t.passed == t.entered && t.s.terminal == Some(c))
            && (answer == ReadBlocks <==> !t.s.closed && t.passed == t.entered && t.s.terminal.None?)
  {
    RunKeepsInv(Download, capacity, run, acts, i);
    SameShape(Download, capacity, run, acts, i);
    if !run[i].s.closed {
      EmptyMeansHandedOn(run[i]);
    }
  }

  /** A reader that goes to wait is registered exactly if there is nothing to read and libcurl is not marked as
      paused, and under the stream's lock it never finds another one there. */
  lemma ReaderWaits(capacity: nat, run: seq<State>, acts: seq<Action>, i: nat, w: Waker)
    requires IsRun(Download, capacity, run, acts) && i < |run| && run[i].client.Registering?
    ensures var t, answer := run[i], WaitRead(run[i].s, w).answer;
            && (answer == Registered <==> !t.s.Over() && t.passed == t.entered && !t.s.paused)
            && (answer == ControlPending <==> !t.s.Over() && t.passed == t.entered && t.s.paused)
            && (answer == Ready <==> t.s.Over() || t.passed != t.entered)
            && (answer == Registered <==> WaitRead(t.s, w).s.readWaiter == Some(w))
  {
    RunKeepsInv(Download, capacity, run, acts, i);
    SameShape(Download, capacity, run, acts, i);
    if !run[i].s.closed {
      EmptyMeansHandedOn(run[i]);
    }
  }

  /** A writer is registered exactly if the ring is full on a stream that is not over. */
  lemma WriterWaits(capacity: nat, run: seq<State>, acts: seq<Action>, i: nat, w: Waker)
    requires IsRun(Upload, capacity, run, acts) && i < |run| && run[i].client.Registering?
    ensures var t, answer := run[i], WaitWrite(run[i].s, w).answer;
            && (answer == Registered <==> !t.s.Over() && |t.s.queue| == capacity)
            && (answer == Ready <==> t.s.Over() || |t.s.queue| < capacity)
            && (answer == Registered <==> WaitWrite(t.s, w).s.writeWaiter == Some(w))
  {
    RunKeepsInv(Upload, capacity, run, acts, i);
    SameShape(Upload, capacity, run, acts, i);
  }

  // ---- the writer

  /** What each write is told, exactly: the terminal code of a transfer that is over, and otherwise whether the block
      went in. */
  lemma WriterTold(capacity: nat, run: seq<State>, acts: seq<Action>, i: nat, data: seq<Byte>, memory: bool)
    requires IsRun(Upload, capacity, run, acts) && i < |run| && data != []
    ensures var t, answer := run[i], TryWrite(run[i].s, data, memory).answer;
            && (forall c :: answer == SendTerminal(c) <==> !t.s.closed && t.s.terminal == Some(c))
            && (answer == SendClosed <==> t.s.closed || (t.s.finished && t.s.terminal.None?))
            && (answer == SendBlocks <==> !t.s.Over() && !t.s.finished && |t.s.queue| == capacity)
            && (answer == SendNoMemory <==> !t.s.Over() && !t.s.finished && |t.s.queue| < capacity && !memory)
            && (forall resume :: answer == Sent(resume) <==>
                  !t.s.Over() && !t.s.finished && |t.s.queue| < capacity && memory && resume == t.s.paused)
            && (answer.Sent? <==> TryWrite(t.s, data, memory).s != t.s)
  {
    RunKeepsInv(Upload, capacity, run, acts, i);
    SameShape(Upload, capacity, run, acts, i);
  }

  /** Finishing succeeds on every upload that is not over, for good, and asks for a flush exactly if libcurl may be
      stopped. */
  lemma FinisherTold(capacity: nat, run: seq<State>, acts: seq<Action>, i: nat)
    requires IsRun(Upload, capacity, run, acts) && i < |run|
    ensures var t, step := run[i], FinishUpload(run[i].s);
            && (forall c :: step.answer == SendTerminal(c) <==> !t.s.closed && t.s.terminal == Some(c))
            && (step.answer == SendClosed <==> t.s.closed)
            && (forall resume :: step.answer == Sent(resume) <==> !t.s.Over() && resume == t.s.paused)
            && (step.answer.Sent? ==> step.s.finished) && (!step.answer.Sent? ==> step.s == t.s)
  {
    SameShape(Upload, capacity, run, acts, i);
  }

  // ---- libcurl

  predicate Failed(s: Stream) {
    s.closed || (s.terminal.Some? && s.terminal.value != CURLE_OK)
  }

  /** What libcurl's request for upload bytes is answered, exactly: the next bytes while some are left, as many as fit
      of the oldest block; then the end if the writer has finished, or a pause; an abort once the stream is closed or
      failed. */
  lemma UploadTold(capacity: nat, run: seq<State>, acts: seq<Action>, i: nat, room: nat)
    requires IsRun(Upload, capacity, run, acts) && i < |run| && room > 0
    ensures var t, answer := run[i], OnUpload(run[i].s, room).answer;
            && (answer == Abort <==> Failed(t.s))
            && (answer.Bytes? <==> !Failed(t.s) && t.passed != t.entered)
            && (answer.Bytes? ==> answer.data != [] && t.passed + answer.data <= t.entered
                                  && |answer.data| == Least(room, |Rest(t.s.queue[0])|))
            && (answer == Eof <==> !Failed(t.s) && t.passed == t.entered && t.s.finished)
            && (answer == Pause <==> !Failed(t.s) && t.passed == t.entered && !t.s.finished)
  {
    RunKeepsInv(Upload, capacity, run, acts, i);
    SameShape(Upload, capacity, run, acts, i);
    if !run[i].s.closed {
      EmptyMeansHandedOn(run[i]);
    }
  }

  /** What libcurl's download block is answered, exactly: a live stream never rejects a block for lack of room. */
  lemma DownloadTold(capacity: nat, run: seq<State>, acts: seq<Action>, i: nat, data: seq<Byte>, memory: bool)
    requires IsRun(Download, capacity, run, acts) && i < |run| && data != []
    ensures var t, step := run[i], OnDownload(run[i].s, data, memory);
            && (step.answer == Rejected <==> t.s.Over() || (|t.s.queue| < capacity && !memory))
            && (step.answer == PauseReplay <==> !t.s.Over() && |t.s.queue| == capacity)
            && (forall pause :: step.answer == Taken(pause) <==>
                  !t.s.Over() && |t.s.queue| < capacity && memory && pause == (|t.s.queue| + 1 == capacity))
            && (step.answer == PauseReplay || step.answer == Taken(true) ==> step.s.paused)
  {
    RunKeepsInv(Download, capacity, run, acts, i);
    SameShape(Download, capacity, run, acts, i);
  }

  // ---- which code

  /** The terminal code of a stream is that of the first call that completed it. */
  lemma {:induction false} VerdictIsFirst(kind: Kind, capacity: nat, run: seq<State>, acts: seq<Action>, i: nat)
    returns (k: nat)
    requires IsRun(kind, capacity, run, acts) && i < |run| && run[i].s.terminal.Some?
    ensures k < i && run[k].s.terminal.None? && V.Finisher(acts[k]).Some?
    ensures V.CallOf(run[k], V.Finisher(acts[k]).value).Some?
    ensures run[i].s.terminal == Some(V.CallOf(run[k], V.Finisher(acts[k]).value).value.code)
  {
    var j := i - 1;
    StepOfRun(kind, capacity, run, acts, j, i);
    if V.Finisher(acts[j]).None? {
      V.OtherCalm(run[j], acts[j], run[i]);
    } else {
      V.FinishEffect(run[j], acts[j], run[i]);
    }
    if run[j].s.terminal.Some? {
      k := VerdictIsFirst(kind, capacity, run, acts, j);
    } else {
      k := j;
    }
  }

  /** Everybody who asks whether the transfer was cancelled is told so once the stream is closed, or its cancel is
      out. */
  lemma ClosedIsAborted(kind: Kind, capacity: nat, run: seq<State>, acts: seq<Action>, k: nat, other: bool)
    requires IsRun(kind, capacity, run, acts) && k < |acts| && acts[k] == ByAgent(Normalize(true, other))
    ensures run[k].agent.Detached?
    ensures if other || run[k].s.closed || run[k].s.cancelSent
            then run[k + 1].agent == Completing(CURLE_ABORTED_BY_CALLBACK)
            else run[k + 1].agent == Completing(run[k].agent.code)
  {
    var j := k + 1;
    StepOfRun(kind, capacity, run, acts, k, j);
  }

  // ---- nobody forgets

  /** libcurl could go on: a download has room, an upload has bytes or its end. */
  predicate CouldGoOn(s: Stream) {
    if s.kind == Download then !s.Full() else s.queue != [] || s.finished
  }

  /** A live stream marked as paused that could go on has a flusher, on every run without an abandoned flush loop. */
  lemma PausedHasFlusher(kind: Kind, capacity: nat, run: seq<State>, acts: seq<Action>, i: nat)
    requires IsRun(kind, capacity, run, acts) && i < |run| && !run[i].abandoned
    requires run[i].s.Live() && run[i].s.paused && CouldGoOn(run[i].s)
    ensures run[i].client.Flushing?
  {
    RunKeepsInv(kind, capacity, run, acts, i);
  }

  lemma SomebodyIsAtIt(t: State)
    requires Inv(t) && !t.abandoned && t.s.Live() && Stopped(t) && CouldGoOn(t.s)
    ensures t.client.Flushing? || Holds(t.client) || t.resumes > 0
  {
  }

  /** Whenever libcurl is stopped on a live stream that could go on, a RESUME is queued or the reader or writer is at
      it: no read that makes room, no write that brings bytes and no finish returns for good without one. */
  lemma NobodyForgets(kind: Kind, capacity: nat, run: seq<State>, acts: seq<Action>, i: nat)
    requires IsRun(kind, capacity, run, acts) && i < |run| && !run[i].abandoned
    requires run[i].s.Live() && Stopped(run[i]) && CouldGoOn(run[i].s)
    ensures run[i].client.Flushing? || Holds(run[i].client) || run[i].resumes > 0
    ensures run[i].client.Free? ==> run[i].resumes > 0
  {
    RunKeepsInv(kind, capacity, run, acts, i);
    SomebodyIsAtIt(run[i]);
  }

  /** Nor does a close forget its cancel: on a closed stream without a terminal code, one CANCEL was accepted, or one
      closer is in the course of sending it, or the flag is clear, so that the next close asks for one. */
  lemma NoLostCancel(kind: Kind, capacity: nat, run: seq<State>, acts: seq<Action>, i: nat)
    requires IsRun(kind, capacity, run, acts) && i < |run| && run[i].s.terminal.None?
    ensures run[i].s.cancelSent <==> run[i].cancelsAccepted == 1 || run[i].closers != map[]
    ensures run[i].s.cancelSent ==> run[i].s.closed
    ensures Close(run[i].s).answer <==> run[i].cancelsAccepted == 0 && run[i].closers == map[]
    ensures var s' := Close(run[i].s).s; s'.closed && s'.cancelSent && !s'.paused && s'.queue == []
  {
    RunKeepsInv(kind, capacity, run, acts, i);
  }
}

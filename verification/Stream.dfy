/** The bounded stream of cbits/stream.c: what each critical section does to the shared state. */
module Stream {
  import opened Messages

  type Byte = bv8
  datatype Kind = Download | Upload

  /** `offset` bytes of the data have already been handed to libcurl. */
  datatype Chunk = Chunk(data: seq<Byte>, offset: nat)

  datatype Stream = Stream(
    kind: Kind,
    capacity: nat,
    queue: seq<Chunk>,
    finished: bool,
    closed: bool,
    paused: bool,
    terminal: Option<int>,
    cancelSent: bool,
    readWaiter: Option<Waker>,
    writeWaiter: Option<Waker>)
  {
    predicate Over() {
      closed || terminal.Some?
    }

    predicate Full() {
      |queue| == capacity
    }

    /** Neither closed, terminal nor cancelled: resuming still makes sense. */
    predicate Live() {
      !closed && terminal.None? && !cancelSent
    }
  }

  /** hcurl_stream_create accepts only a capacity of at least one chunk. */
  function Create(kind: Kind, capacity: nat): Stream {
    Stream(kind, capacity, [], false, false, false, None, false, None, None)
  }

  // ---- what a critical section leaves behind and answers

  datatype DownloadStep = DownloadStep(s: Stream, answer: WriteAnswer)
  datatype UploadStep = UploadStep(s: Stream, answer: SendAnswer)
  datatype ReadStep = ReadStep(s: Stream, answer: ReadAnswer)
  datatype SendStep = SendStep(s: Stream, answer: SendResult)
  datatype WaitStep = WaitStep(s: Stream, answer: WaitAnswer)
  datatype FlagStep = FlagStep(s: Stream, answer: bool)

  // ---- libcurl's callbacks

  datatype WriteAnswer = Rejected | PauseReplay | Taken(pauseNow: bool)

  /** hcurl_download_write_callback. A full ring pauses and has libcurl replay the block; the block
      that fills the ring is kept and libcurl is paused explicitly. */
  function OnDownload(s: Stream, data: seq<Byte>, memory: bool): DownloadStep {
    if s.kind != Download || data == [] || s.Over() then DownloadStep(s, Rejected)
    else if s.Full() then DownloadStep(s.(paused := true), PauseReplay)
    else if !memory then DownloadStep(s, Rejected)
    else
      var s' := s.(queue := s.queue + [Chunk(data, 0)], readWaiter := None);
      if s'.Full() then DownloadStep(s'.(paused := true), Taken(true)) else DownloadStep(s', Taken(false))
  }

  /** NoRoom is the zero returned to a request for no bytes; Eof the zero that ends the upload. */
  datatype SendAnswer = Abort | NoRoom | Eof | Pause | Bytes(data: seq<Byte>)

  function Least(a: nat, b: nat): nat {
    if a < b then a else b
  }

  /** The part of a chunk that is still to be sent. */
  function Rest(c: Chunk): seq<Byte> {
    if c.offset <= |c.data| then c.data[c.offset..] else []
  }

  /** hcurl_upload_read_callback with this much room. */
  function OnUpload(s: Stream, room: nat): UploadStep {
    if s.kind != Upload then UploadStep(s, Abort)
    else if room == 0 then UploadStep(s, NoRoom)
    else if s.closed || (s.terminal.Some? && s.terminal.value != CURLE_OK) then UploadStep(s, Abort)
    else if s.queue == [] then
      if s.finished then UploadStep(s, Eof) else UploadStep(s.(paused := true), Pause)
    else
      var chunk := s.queue[0];
      var rest := Rest(chunk);
      var copied := Least(|rest|, room);
      if copied < |rest|
      then UploadStep(s.(queue := s.queue[0 := chunk.(offset := chunk.offset + copied)]), Bytes(rest[..copied]))
      else UploadStep(s.(queue := s.queue[1..], writeWaiter := if s.Full() then None else s.writeWaiter), Bytes(rest))
  }

  // ---- the reader's and the writer's calls

  datatype ReadAnswer = Got(data: seq<Byte>, resume: bool) | ReadClosed | Finished(code: int) | ReadBlocks

  function TryRead(s: Stream): ReadStep {
    if s.kind != Download then ReadStep(s, ReadClosed)
    else if s.queue != [] then ReadStep(s.(queue := s.queue[1..]), Got(s.queue[0].data, s.paused))
    else if s.closed then ReadStep(s, ReadClosed)
    else if s.terminal.Some? then ReadStep(s, Finished(s.terminal.value))
    else ReadStep(s, ReadBlocks)
  }

  datatype WaitAnswer = Registered | Ready | ControlPending | Invalid

  function WaitRead(s: Stream, w: Waker): WaitStep {
    if s.kind != Download then WaitStep(s, Invalid)
    else if s.queue != [] || s.Over() then WaitStep(s, Ready)
    else if s.paused then WaitStep(s, ControlPending)
    else if s.readWaiter.Some? then WaitStep(s, Invalid)
    else WaitStep(s.(readWaiter := Some(w)), Registered)
  }

  function CancelWaitRead(s: Stream, w: Waker): FlagStep {
    if s.kind == Download && s.readWaiter == Some(w) then FlagStep(s.(readWaiter := None), true) else FlagStep(s, false)
  }

  datatype SendResult = Sent(resume: bool) | SendBlocks | SendTerminal(code: int) | SendClosed | SendNoMemory

  function TryWrite(s: Stream, data: seq<Byte>, memory: bool): SendStep {
    if s.kind != Upload || s.closed then SendStep(s, SendClosed)
    else if s.terminal.Some? then SendStep(s, SendTerminal(s.terminal.value))
    else if s.finished then SendStep(s, SendClosed)
    else if data == [] then SendStep(s, Sent(false))
    else if s.Full() then SendStep(s, SendBlocks)
    else if !memory then SendStep(s, SendNoMemory)
    else SendStep(s.(queue := s.queue + [Chunk(data, 0)]), Sent(s.paused))
  }

  /** Unlike WaitRead this does not look at `paused`. */
  function WaitWrite(s: Stream, w: Waker): WaitStep {
    if s.kind != Upload then WaitStep(s, Invalid)
    else if !s.Full() || s.Over() then WaitStep(s, Ready)
    else if s.writeWaiter.Some? then WaitStep(s, Invalid)
    else WaitStep(s.(writeWaiter := Some(w)), Registered)
  }

  function CancelWaitWrite(s: Stream, w: Waker): FlagStep {
    if s.kind == Upload && s.writeWaiter == Some(w) then FlagStep(s.(writeWaiter := None), true) else FlagStep(s, false)
  }

  function FinishUpload(s: Stream): SendStep {
    if s.kind != Upload || s.closed then SendStep(s, SendClosed)
    else if s.terminal.Some? then SendStep(s, SendTerminal(s.terminal.value))
    else SendStep(s.(finished := true), Sent(s.paused))
  }

  // ---- flow control

  /** First section of hcurl_stream_flush_resume: take the pause flag, if a RESUME is needed. */
  function TakePause(s: Stream): FlagStep {
    if s.paused && s.Live() then FlagStep(s.(paused := false), true) else FlagStep(s, false)
  }

  /** Second section, after the queue refused the RESUME for now. */
  function RestorePause(s: Stream): Stream {
    if s.Live() then s.(paused := true) else s
  }

  /** First section of hcurl_stream_close. */
  function Close(s: Stream): FlagStep {
    var needsCancel := s.terminal.None? && !s.cancelSent;
    FlagStep(s.(closed := true, paused := false, queue := [], readWaiter := None, writeWaiter := None,
        cancelSent := s.cancelSent || needsCancel),
     needsCancel)
  }

  /** Second section, after the queue refused the CANCEL for now. */
  function RestoreCancel(s: Stream): Stream {
    if s.terminal.None? then s.(cancelSent := false) else s
  }

  function NormalizeCompletion(s: Stream, code: int): int {
    if s.closed || s.cancelSent then CURLE_ABORTED_BY_CALLBACK else code
  }

  /** hcurl_stream_complete: the first terminal code stays. */
  function Complete(s: Stream, code: int): Stream {
    s.(terminal := if s.terminal.Some? then s.terminal else Some(code), paused := false, readWaiter := None,
       writeWaiter := None)
  }

  function Destroy(s: Stream): Stream {
    s.(closed := true, queue := [], readWaiter := None, writeWaiter := None)
  }
}

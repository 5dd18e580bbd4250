/** One stream shared by the agent with libcurl, one reader or writer under its lock, and any number of closers. */
module StreamProtocol {
  import opened Counting
  import opened Messages
  import opened Stream

  /** The agent thread, with libcurl, as far as this transfer goes. Detached and Completing are finish_detached_transfer
      before and after it asked hcurl_stream_normalize_completion. */
  datatype Agent = Running | Pausing | Detached(code: int) | Completing(code: int) | Ended

  datatype Call = Read | Write(data: seq<Byte>) | Finish

  /** The thread that holds the stream's lock. `again` marks a flush loop run by Haskell, which an asynchronous
      exception may abandon; the first flush of a call runs inside C. */
  datatype Client =
    | Free
    | Trying(call: Call)
    | Registering(call: Call)
    | Blocked(call: Call, w: Waker)
    | Flushing(call: Call, again: bool, rewait: bool)
    | Sending(call: Call, rewait: bool)     // pause flag taken, RESUME not yet answered
    | Restoring(call: Call, rewait: bool)   // the queue refused for now
    | GivingUp(call: Call, rewait: bool)    // the queue is closed: about to complete the stream itself

  /** A thread in hcurl_stream_close that set cancel_sent. */
  datatype Closer = SendingCancel | Retracting | GivingUpCancel

  /** Answer of enqueue_control. */
  datatype Reply = Accepted | Retry | Gone

  /** `curlPaused` is libcurl's own bit for this direction. `entered` and `passed` are the bytes accepted into the
      stream and handed on by it; `disturbed` once libcurl was resumed by another stream of the transfer or refused to
      pause; `abandoned` once a writer's flush loop was; `waitedPaused` and `waitedResumes` are the pause flag and the
      number of queued RESUMEs when the last waiter was registered. */
  datatype State = State(
    s: Stream,
    agent: Agent,
    curlPaused: bool,
    client: Client,
    closers: map<Pid, Closer>,
    resumes: nat,
    cancels: nat,
    entered: seq<Byte>,
    passed: seq<Byte>,
    cancelsAccepted: nat,
    disturbed: bool,
    abandoned: bool,
    waitedPaused: bool,
    waitedResumes: nat)

  /** Normalize has `asked` false for a transfer that was never registered, whose streams are not asked; `other` is
      what the transfer's other stream answered. */
  datatype AgentAction =
    | CallDownload(data: seq<Byte>, memory: bool)
    | CallUpload(room: nat)
    | SetPause(ok: bool)
    | HandleResume(ok: bool, code: int)
    | OtherResume
    | HandleCancel
    | CurlDone(code: int)
    | Normalize(asked: bool, other: bool)
    | CompleteStream
    | DropControl(resume: bool)

  datatype ClientAction =
    | Begin(call: Call)
    | Try(memory: bool)
    | Wait(w: Waker)
    | Wake
    | Interrupt
    | Flush
    | SendResume(reply: Reply)
    | Restore
    | GiveUp
    | Abandon

  datatype CloserAction =
    | StartClose
    | SendCancel(reply: Reply)
    | Retract
    | GiveUpCancel

  datatype Action = ByAgent(a: AgentAction) | ByClient(c: ClientAction) | ByCloser(p: Pid, d: CloserAction)

  predicate Fits(kind: Kind, call: Call) {
    if kind == Download then call.Read? else !call.Read?
  }

  predicate AgentEnabled(t: State, a: AgentAction) {
    match a
    case CallDownload(data, _) => t.agent.Running? && !t.curlPaused && t.s.kind == Download
    case CallUpload(_) => t.agent.Running? && !t.curlPaused && t.s.kind == Upload
    case SetPause(ok) => t.agent.Pausing?
    case HandleResume(_, _) => t.agent.Running? && t.resumes > 0
    case OtherResume => t.agent.Running?
    case HandleCancel => t.agent.Running? && t.cancels > 0
    case CurlDone(_) => t.agent.Running?
    case Normalize(_, _) => t.agent.Detached?
    case CompleteStream => t.agent.Completing?
    case DropControl(resume) => t.agent.Ended? && (if resume then t.resumes else t.cancels) > 0
  }

  function AgentApply(t: State, a: AgentAction): State
    requires AgentEnabled(t, a)
  {
    match a
    case CallDownload(data, memory) =>
      var r := OnDownload(t.s, data, memory);
      t.(s := r.s,
         entered := if r.answer.Taken? then t.entered + data else t.entered,
         agent := if r.answer == PauseReplay || r.answer == Taken(true) then Pausing else Running)
    case CallUpload(room) =>
      var r := OnUpload(t.s, room);
      t.(s := r.s,
         passed := if r.answer.Bytes? then t.passed + r.answer.data else t.passed,
         agent := if r.answer.Pause? then Pausing else Running)
    case SetPause(ok) =>
      t.(agent := Running, curlPaused := ok, disturbed := t.disturbed || !ok)
    case HandleResume(ok, code) =>
      if ok then t.(resumes := t.resumes - 1, curlPaused := false)
      else t.(resumes := t.resumes - 1, agent := Detached(code), disturbed := true)
    case OtherResume =>
      t.(curlPaused := false, disturbed := true)
    case HandleCancel =>
      t.(cancels := t.cancels - 1, agent := Detached(CURLE_ABORTED_BY_CALLBACK))
    case CurlDone(code) =>
      t.(agent := Detached(code))
    case Normalize(asked, other) =>
      var aborted := if other then CURLE_ABORTED_BY_CALLBACK else NormalizeCompletion(t.s, t.agent.code);
      t.(agent := Completing(if asked then aborted else t.agent.code))
    case CompleteStream =>
      t.(s := Complete(t.s, t.agent.code), agent := Ended)
    case DropControl(resume) =>
      if resume then t.(resumes := t.resumes - 1) else t.(cancels := t.cancels - 1)
  }

  predicate ClientEnabled(t: State, a: ClientAction) {
    match a
    case Begin(call) => t.client.Free? && Fits(t.s.kind, call)
    case Try(_) => t.client.Trying?
    case Wait(_) => t.client.Registering?
    case Wake => t.client.Blocked? && t.s.readWaiter.None? && t.s.writeWaiter.None?
    case Interrupt => t.client.Blocked?
    case Flush => t.client.Flushing?
    case SendResume(_) => t.client.Sending?
    case Restore => t.client.Restoring?
    case GiveUp => t.client.GivingUp?
    case Abandon => t.client.Trying? || t.client.Registering? || (t.client.Flushing? && t.client.again)
  }

  /** Where the loops of Body.hs go once nothing is left to flush. */
  function AfterFlush(call: Call, rewait: bool): Client {
    if rewait then Registering(call) else Free
  }

  function AfterRead(t: State): State {
    var r := TryRead(t.s);
    match r.answer
    case Got(data, resume) =>
      t.(s := r.s, passed := t.passed + data, client := if resume then Flushing(Read, false, false) else Free)
    case ReadBlocks => t.(client := Registering(Read))
    case _ => t.(client := Free)
  }

  function AfterWrite(t: State, data: seq<Byte>, memory: bool): State {
    var r := TryWrite(t.s, data, memory);
    match r.answer
    case Sent(resume) =>
      t.(s := r.s, entered := t.entered + data, client := if resume then Flushing(Write(data), false, false) else Free)
    case SendBlocks => t.(client := Registering(Write(data)))
    case _ => t.(client := Free)
  }

  function AfterFinish(t: State): State {
    var r := FinishUpload(t.s);
    t.(s := r.s, client := if r.answer == Sent(true) then Flushing(Finish, false, false) else Free)
  }

  function Attempt(t: State, memory: bool): State
    requires t.client.Trying?
  {
    match t.client.call
    case Read => AfterRead(t)
    case Write(data) => AfterWrite(t, data, memory)
    case Finish => AfterFinish(t)
  }

  function AfterWait(t: State, call: Call, w: Waker, s': Stream, answer: WaitAnswer): State {
    match answer
    case Registered => t.(s := s', client := Blocked(call, w), waitedPaused := t.s.paused, waitedResumes := t.resumes)
    case Ready => t.(client := Trying(call))
    case ControlPending => t.(client := Flushing(call, true, true))
    case Invalid => t.(client := Free)
  }

  function Await(t: State, w: Waker): State
    requires t.client.Registering?
  {
    if t.s.kind == Download then AfterWait(t, t.client.call, w, WaitRead(t.s, w).s, WaitRead(t.s, w).answer)
    else AfterWait(t, t.client.call, w, WaitWrite(t.s, w).s, WaitWrite(t.s, w).answer)
  }

  function AfterReply(t: State, call: Call, rewait: bool, reply: Reply): State {
    match reply
    case Accepted => t.(resumes := t.resumes + 1, client := AfterFlush(call, rewait))
    case Retry => t.(client := Restoring(call, rewait))
    case Gone => t.(client := GivingUp(call, rewait))
  }

  function AfterTake(t: State, call: Call, rewait: bool): State {
    var r := TakePause(t.s);
    if r.answer then t.(s := r.s, client := Sending(call, rewait)) else t.(client := AfterFlush(call, rewait))
  }

  function ClientApply(t: State, a: ClientAction): State
    requires ClientEnabled(t, a)
  {
    match a
    case Begin(call) => t.(client := Trying(call))
    case Try(memory) => Attempt(t, memory)
    case Wait(w) => Await(t, w)
    case Wake => t.(client := Trying(t.client.call))
    case Interrupt =>
      t.(s := if t.s.kind == Download then CancelWaitRead(t.s, t.client.w).s
         else CancelWaitWrite(t.s, t.client.w).s, client := Free)
    case Flush =>
      AfterTake(t, t.client.call, t.client.rewait)
    case SendResume(reply) =>
      AfterReply(t, t.client.call, t.client.rewait, reply)
    case Restore =>
      t.(s := RestorePause(t.s), client := Flushing(t.client.call, true, t.client.rewait))
    case GiveUp =>
      t.(s := Complete(t.s, CURLE_ABORTED_BY_CALLBACK), client := AfterFlush(t.client.call, t.client.rewait))
    case Abandon =>
      t.(client := Free, abandoned := t.abandoned || t.client.Flushing?)
  }

  predicate CloserEnabled(t: State, p: Pid, d: CloserAction) {
    match d
    case StartClose => p !in t.closers
    case SendCancel(_) => p in t.closers && t.closers[p].SendingCancel?
    case Retract => p in t.closers && t.closers[p].Retracting?
    case GiveUpCancel => p in t.closers && t.closers[p].GivingUpCancel?
  }

  function CloserApply(t: State, p: Pid, d: CloserAction): State
    requires CloserEnabled(t, p, d)
  {
    match d
    case StartClose =>
      var r := Close(t.s);
      t.(s := r.s, closers := if r.answer then t.closers[p := SendingCancel] else t.closers)
    case SendCancel(reply) =>
      (match reply
       case Accepted => t.(cancels := t.cancels + 1, cancelsAccepted := t.cancelsAccepted + 1,
                           closers := t.closers - {p})
       case Retry => t.(closers := t.closers[p := Retracting])
       case Gone => t.(closers := t.closers[p := GivingUpCancel]))
    case Retract =>
      t.(s := RestoreCancel(t.s), closers := t.closers - {p})
    case GiveUpCancel =>
      t.(s := Complete(t.s, CURLE_ABORTED_BY_CALLBACK), closers := t.closers - {p})
  }

  predicate Enabled(t: State, a: Action) {
    match a
    case ByAgent(act) => AgentEnabled(t, act)
    case ByClient(act) => ClientEnabled(t, act)
    case ByCloser(p, act) => CloserEnabled(t, p, act)
  }

  function Apply(t: State, a: Action): State
    requires Enabled(t, a)
  {
    match a
    case ByAgent(act) => AgentApply(t, act)
    case ByClient(act) => ClientApply(t, act)
    case ByCloser(p, act) => CloserApply(t, p, act)
  }

  function Start(kind: Kind, capacity: nat): State {
    State(Create(kind, capacity), Running, false, Free, map[], 0, 0, [], [], 0, false, false, false, 0)
  }

  // ---- invariants

  /** A registered waiter has something to wait for, and belongs to the blocked client. */
  predicate Waiters(s: Stream, client: Client, waitedPaused: bool) {
    && |s.queue| <= s.capacity && s.capacity > 0
    && (s.cancelSent ==> s.closed)
    && (s.readWaiter.Some? ==>
          s.kind == Download && s.queue == [] && !s.Over() && !s.paused && client.Blocked?
            && client.w == s.readWaiter.value)
    && (s.writeWaiter.Some? ==>
          s.kind == Upload && s.Full() && !s.Over() && s.paused == waitedPaused && client.Blocked?
            && client.w == s.writeWaiter.value)
    && (!client.Free? ==> Fits(s.kind, client.call))
  }

  predicate Holds(client: Client) {
    client.Sending? || client.Restoring? || client.GivingUp?
  }

  /** The right to resume libcurl is a token: the pause flag, a flusher that took it, or a queued RESUME. */
  function Tokens(t: State): nat {
    One(t.s.paused) + One(Holds(t.client)) + t.resumes
  }

  predicate InMulti(t: State) {
    t.agent.Running? || t.agent.Pausing?
  }

  /** libcurl has stopped calling for this direction, or is about to. */
  predicate Stopped(t: State) {
    t.agent.Pausing? || (t.agent.Running? && t.curlPaused)
  }

  predicate Resumable(t: State) {
    && (t.s.Live() && Stopped(t) ==> Tokens(t) >= 1)
    && (t.s.Live() && InMulti(t) && !t.disturbed ==> Tokens(t) == One(Stopped(t)))
    && (t.s.writeWaiter.Some? && Stopped(t) ==> t.resumes == t.waitedResumes)
    && (t.agent.Pausing? ==> !t.curlPaused)
    && (t.agent.Ended? ==> t.s.terminal.Some?)
  }

  /** Unless a flush loop was abandoned, a pause with nothing left to wait for has a flusher: a download waits for
      room, an upload for bytes or for its end. */
  predicate Flushed(t: State) {
    t.s.Live() && t.s.paused && !t.abandoned ==>
      t.client.Flushing? || (if t.s.kind == Download then t.s.Full() else t.s.queue == [] && !t.s.finished)
  }

  function Pending(queue: seq<Chunk>): seq<Byte> {
    if queue == [] then [] else Rest(queue[0]) + Pending(queue[1..])
  }

  /** Every chunk still has bytes to hand on. */
  predicate NoneEmpty(queue: seq<Chunk>) {
    forall i :: 0 <= i < |queue| ==> Rest(queue[i]) != []
  }

  /** Nothing is lost, repeated or reordered; closing only cuts the tail off. */
  ghost predicate Conserved(kind: Kind, closed: bool, queue: seq<Chunk>, entered: seq<Byte>, passed: seq<Byte>) {
    && (kind == Download ==> forall i :: 0 <= i < |queue| ==> queue[i].offset == 0)
    && NoneEmpty(queue)
    && (closed ==> queue == [])
    && passed <= entered
    && (!closed ==> passed + Pending(queue) == entered)
  }

  /** cancel_sent is a token too: one closer has it, or one CANCEL was accepted. */
  predicate OneCancel(t: State) {
    && (forall p, r :: p in t.closers && r in t.closers ==> p == r)
    && t.cancels <= t.cancelsAccepted <= 1
    && (t.cancelsAccepted == 1 ==> t.closers == map[])
    && (t.cancelsAccepted == 1 || t.closers != map[] ==> t.s.closed)
    && (t.s.terminal.None? ==> (t.s.cancelSent <==> t.cancelsAccepted == 1 || t.closers != map[]))
  }

  predicate Shape(t: State) {
    Waiters(t.s, t.client, t.waitedPaused) && OneCancel(t)
  }

  predicate Flow(t: State) {
    Shape(t) && Resumable(t) && Flushed(t)
  }

  ghost predicate Balanced(t: State) {
    Conserved(t.s.kind, t.s.closed, t.s.queue, t.entered, t.passed)
  }

  ghost predicate Inv(t: State) {
    Flow(t) && Balanced(t)
  }

  lemma {:induction false} PendingPush(queue: seq<Chunk>, c: Chunk)
    ensures Pending(queue + [c]) == Pending(queue) + Rest(c)
  {
    if queue == [] {
      assert queue + [c] == [c];
    } else {
      assert (queue + [c])[1..] == queue[1..] + [c];
      PendingPush(queue[1..], c);
    }
  }

  lemma StartInv(kind: Kind, capacity: nat)
    requires capacity > 0
    ensures Inv(Start(kind, capacity))
  {
  }

  // ---- conservation, on the ring's contents

  lemma ConservedPush(kind: Kind, queue: seq<Chunk>, entered: seq<Byte>, passed: seq<Byte>, data: seq<Byte>)
    requires Conserved(kind, false, queue, entered, passed) && data != []
    ensures Conserved(kind, false, queue + [Chunk(data, 0)], entered + data, passed)
  {
    PendingPush(queue, Chunk(data, 0));
    assert Rest(Chunk(data, 0)) == data;
    Regroup(passed, Pending(queue), [], data);
  }

  lemma Regroup(a: seq<Byte>, b: seq<Byte>, c: seq<Byte>, d: seq<Byte>)
    ensures a + ((b + c) + d) == (a + b) + (c + d)
    ensures a + (b + d) == (a + b) + d
  {
  }

  lemma ConservedPop(kind: Kind, closed: bool, queue: seq<Chunk>, entered: seq<Byte>, passed: seq<Byte>)
    requires Conserved(kind, closed, queue, entered, passed) && queue != []
    ensures Conserved(kind, closed, queue[1..], entered, passed + Rest(queue[0]))
  {
    Regroup(passed, Rest(queue[0]), [], Pending(queue[1..]));
  }

  lemma PendingFirst(queue: seq<Chunk>, c: Chunk)
    requires queue != []
    ensures Pending(queue[0 := c]) == Rest(c) + Pending(queue[1..])
  {
    assert queue[0 := c][1..] == queue[1..];
  }

  lemma SplitFirst(c: Chunk, copied: nat)
    requires copied < |Rest(c)|
    ensures Rest(c) == Rest(c)[..copied] + Rest(c.(offset := c.offset + copied))
    ensures Rest(c.(offset := c.offset + copied)) != []
  {
  }

  lemma PartNotEmpty(queue: seq<Chunk>, c: Chunk)
    requires NoneEmpty(queue) && queue != [] && Rest(c) != []
    ensures NoneEmpty(queue[0 := c])
  {
  }

  lemma ConservedPart(kind: Kind, closed: bool, queue: seq<Chunk>, entered: seq<Byte>, passed: seq<Byte>, copied: nat)
    requires Conserved(kind, closed, queue, entered, passed) && kind == Upload && queue != []
    requires copied < |Rest(queue[0])|
    ensures var c := queue[0];
            Conserved(kind, closed, queue[0 := c.(offset := c.offset + copied)], entered, passed + Rest(c)[..copied])
  {
    var c := queue[0];
    var rest := c.(offset := c.offset + copied);
    SplitFirst(c, copied);
    PendingFirst(queue, rest);
    PartNotEmpty(queue, rest);
    Regroup(passed, Rest(c)[..copied], Rest(rest), Pending(queue[1..]));
  }

  lemma ConservedClose(kind: Kind, closed: bool, queue: seq<Chunk>, entered: seq<Byte>, passed: seq<Byte>)
    requires Conserved(kind, closed, queue, entered, passed)
    ensures Conserved(kind, true, [], entered, passed)
  {
  }

  // ---- agent steps

  lemma DownloadBalanced(t: State, data: seq<Byte>, memory: bool, t': State)
    requires Balanced(t) && AgentEnabled(t, CallDownload(data, memory))
    requires t' == AgentApply(t, CallDownload(data, memory))
    ensures Balanced(t')
  {
    if t'.s.queue != t.s.queue {
      ConservedPush(t.s.kind, t.s.queue, t.entered, t.passed, data);
    }
  }

  /** The bytes a callback with this much room copies, and the ring it leaves. */
  function Copied(queue: seq<Chunk>, room: nat): seq<Byte>
    requires queue != []
  {
    var rest := Rest(queue[0]);
    if room < |rest| then rest[..room] else rest
  }

  function Remaining(queue: seq<Chunk>, room: nat): seq<Chunk>
    requires queue != []
  {
    var c := queue[0];
    if room < |Rest(c)| then queue[0 := c.(offset := c.offset + room)] else queue[1..]
  }

  lemma ConservedCopy(kind: Kind, closed: bool, queue: seq<Chunk>, entered: seq<Byte>, passed: seq<Byte>, room: nat)
    requires Conserved(kind, closed, queue, entered, passed) && kind == Upload && queue != []
    ensures Conserved(kind, closed, Remaining(queue, room), entered, passed + Copied(queue, room))
  {
    if room < |Rest(queue[0])| {
      ConservedPart(kind, closed, queue, entered, passed, room);
    } else {
      ConservedPop(kind, closed, queue, entered, passed);
    }
  }

  lemma UploadEffect(s: Stream, room: nat)
    ensures var r := OnUpload(s, room);
            && r.s.kind == s.kind && r.s.closed == s.closed
            && if r.answer.Bytes?
               then s.kind == Upload && s.queue != [] && r.answer.data == Copied(s.queue, room)
                 && r.s.queue == Remaining(s.queue, room)
               else r.s.queue == s.queue
  {
  }

  lemma UploadBalanced(t: State, room: nat, t': State)
    requires Balanced(t) && AgentEnabled(t, CallUpload(room)) && t' == AgentApply(t, CallUpload(room))
    ensures Balanced(t')
  {
    UploadEffect(t.s, room);
    if OnUpload(t.s, room).answer.Bytes? {
      ConservedCopy(t.s.kind, t.s.closed, t.s.queue, t.entered, t.passed, room);
    }
  }

  lemma DownloadFlow(t: State, a: AgentAction, t': State)
    requires Flow(t) && a.CallDownload? && AgentEnabled(t, a) && t' == AgentApply(t, a)
    ensures Flow(t')
  {
  }

  lemma UploadFlow(t: State, a: AgentAction, t': State)
    requires Flow(t) && a.CallUpload? && AgentEnabled(t, a) && t' == AgentApply(t, a)
    ensures Flow(t')
  {
  }

  lemma SetPauseFlow(t: State, ok: bool, t': State)
    requires Flow(t) && t.agent.Pausing?
    requires t' == t.(agent := Running, curlPaused := ok, disturbed := t.disturbed || !ok)
    ensures Flow(t')
  {
  }

  lemma ResumedFlow(t: State, t': State)
    requires Flow(t) && t.agent.Running? && t.resumes > 0 && t' == t.(resumes := t.resumes - 1, curlPaused := false)
    ensures Flow(t')
  {
  }

  lemma ResumeFailedFlow(t: State, code: int, t': State)
    requires Flow(t) && t.agent.Running? && t.resumes > 0
    requires t' == t.(resumes := t.resumes - 1, agent := Detached(code), disturbed := true)
    ensures Flow(t')
  {
  }

  lemma LeaveFlow(t: State, a: AgentAction, t': State)
    requires Flow(t) && AgentEnabled(t, a) && t' == AgentApply(t, a)
    requires (a.OtherResume? || a.HandleCancel? || a.CurlDone?)
    ensures Flow(t')
  {
  }

  lemma CompleteFlow(t: State, a: AgentAction, t': State)
    requires Flow(t) && AgentEnabled(t, a) && t' == AgentApply(t, a) && (a.Normalize? || a.CompleteStream?)
    ensures Flow(t')
  {
  }

  lemma EndFlow(t: State, a: AgentAction, t': State)
    requires Flow(t) && AgentEnabled(t, a) && t' == AgentApply(t, a) && a.DropControl?
    ensures Flow(t')
  {
  }

  lemma AgentFlow(t: State, a: AgentAction, t': State)
    requires Flow(t) && AgentEnabled(t, a) && t' == AgentApply(t, a)
    ensures Flow(t')
  {
    if a.CallDownload? {
      DownloadFlow(t, a, t');
    } else if a.CallUpload? {
      UploadFlow(t, a, t');
    } else if a.Normalize? || a.CompleteStream? {
      CompleteFlow(t, a, t');
    } else if a.DropControl? {
      EndFlow(t, a, t');
    } else if a.SetPause? {
      SetPauseFlow(t, a.ok, t');
    } else if a.HandleResume? && a.ok {
      ResumedFlow(t, t');
    } else if a.HandleResume? {
      ResumeFailedFlow(t, a.code, t');
    } else {
      LeaveFlow(t, a, t');
    }
  }

  lemma TurnSameBytes(t: State, a: AgentAction, t': State)
    requires a.SetPause? || a.HandleResume? || a.OtherResume? || a.HandleCancel? || a.CurlDone?
    requires AgentEnabled(t, a) && t' == AgentApply(t, a)
    ensures t'.s == t.s && t'.entered == t.entered && t'.passed == t.passed
  {
  }

  lemma EndSameBytes(t: State, a: AgentAction, t': State)
    requires a.Normalize? || a.CompleteStream? || a.DropControl?
    requires AgentEnabled(t, a) && t' == AgentApply(t, a)
    ensures SameBytes(t, t') && Follows(t.s, t'.s) && t'.s.cancelSent == t.s.cancelSent
  {
  }

  /** Apart from its callbacks, the agent at most completes the stream. */
  lemma AgentBalanced(t: State, a: AgentAction, t': State)
    requires Balanced(t) && AgentEnabled(t, a) && t' == AgentApply(t, a)
    ensures Balanced(t')
  {
    match a
    case CallDownload(data, memory) => DownloadBalanced(t, data, memory, t');
    case CallUpload(room) => UploadBalanced(t, room, t');
    case _ =>
      if a.Normalize? || a.CompleteStream? || a.DropControl? {
        EndSameBytes(t, a, t');
      } else {
        TurnSameBytes(t, a, t');
      }
  }

  // ---- client steps

  /** Neither registered nor holding a token. */
  predicate Quiet(client: Client) {
    !client.Blocked? && !Holds(client)
  }

  /** Only the thread's place in its call changes; a pending flush is not dropped. */
  lemma IdleFlow(t: State, client: Client, t': State)
    requires Flow(t) && Quiet(t.client) && Quiet(client) && t' == t.(client := client)
    requires !client.Free? ==> Fits(t.s.kind, client.call)
    requires t.client.Flushing? ==> client.Flushing? || !t.s.paused || !t.s.Live()
    ensures Flow(t')
  {
  }

  lemma ReadEffect(t: State)
    ensures if t.s.kind == Download && t.s.queue != []
            then AfterRead(t) == t.(s := t.s.(queue := t.s.queue[1..]), passed := t.passed + t.s.queue[0].data,
                                    client := if t.s.paused then Flushing(Read, false, false) else Free)
            else AfterRead(t) == t.(client := Free) || AfterRead(t) == t.(client := Registering(Read))
  {
  }

  lemma GotFlow(t: State, client: Client, passed: seq<Byte>, t': State)
    requires Flow(t) && t.client == Trying(Read) && t.s.queue != []
    requires client == if t.s.paused then Flushing(Read, false, false) else Free
    requires t' == t.(s := t.s.(queue := t.s.queue[1..]), passed := passed, client := client)
    ensures Flow(t')
  {
  }

  lemma ReadKeepsInv(t: State, t': State)
    requires Inv(t) && t.client == Trying(Read) && t' == AfterRead(t)
    ensures Inv(t')
  {
    ReadEffect(t);
    if t.s.queue != [] {
      GotFlow(t, t'.client, t'.passed, t');
      ConservedPop(t.s.kind, t.s.closed, t.s.queue, t.entered, t.passed);
      assert t.s.queue[0].offset == 0;
    } else {
      IdleFlow(t, t'.client, t');
    }
  }

  lemma WriteEffect(t: State, data: seq<Byte>, memory: bool)
    ensures var t' := AfterWrite(t, data, memory);
            if TryWrite(t.s, data, memory).answer.Sent? && data != []
            then t.s.kind == Upload && !t.s.Over() && !t.s.Full() &&
                 t' == t.(s := t.s.(queue := t.s.queue + [Chunk(data, 0)]), entered := t.entered + data,
                          client := if t.s.paused then Flushing(Write(data), false, false) else Free)
            else t' == t.(client := Free) || t' == t.(client := Registering(Write(data)))
  {
    if data == [] {
      assert t.entered + data == t.entered;
    }
  }

  lemma SentFlow(t: State, data: seq<Byte>, entered: seq<Byte>, t': State)
    requires Flow(t) && t.client == Trying(Write(data)) && t.s.kind == Upload && !t.s.Full()
    requires t' == t.(s := t.s.(queue := t.s.queue + [Chunk(data, 0)]), entered := entered,
                      client := if t.s.paused then Flushing(Write(data), false, false) else Free)
    ensures Flow(t')
  {
  }

  lemma WriteKeepsInv(t: State, data: seq<Byte>, memory: bool, t': State)
    requires Inv(t) && t.client == Trying(Write(data)) && t' == AfterWrite(t, data, memory)
    ensures Inv(t')
  {
    WriteEffect(t, data, memory);
    if TryWrite(t.s, data, memory).answer.Sent? && data != [] {
      SentFlow(t, data, t'.entered, t');
      ConservedPush(t.s.kind, t.s.queue, t.entered, t.passed, data);
    } else {
      IdleFlow(t, t'.client, t');
    }
  }

  lemma FinishKeepsInv(t: State, t': State)
    requires Inv(t) && t.client == Trying(Finish) && t' == AfterFinish(t)
    ensures Inv(t')
  {
  }

  lemma TryKeepsInv(t: State, memory: bool, t': State)
    requires Inv(t) && t.client.Trying? && t' == Attempt(t, memory)
    ensures Inv(t')
  {
    match t.client.call
    case Read => ReadKeepsInv(t, t');
    case Write(data) => WriteKeepsInv(t, data, memory, t');
    case Finish => FinishKeepsInv(t, t');
  }

  lemma RegisterReadFlow(t: State, w: Waker, t': State)
    requires Flow(t) && t.client.Registering? && t.s.kind == Download && t.s.queue == [] && !t.s.Over() && !t.s.paused
    requires t' == t.(s := t.s.(readWaiter := Some(w)), client := Blocked(t.client.call, w), waitedPaused := t.s.paused,
                      waitedResumes := t.resumes)
    ensures Flow(t')
  {
  }

  lemma RegisterWriteFlow(t: State, w: Waker, t': State)
    requires Flow(t) && t.client.Registering? && t.s.kind == Upload && t.s.Full() && !t.s.Over()
    requires t' == t.(s := t.s.(writeWaiter := Some(w)), client := Blocked(t.client.call, w),
                      waitedPaused := t.s.paused, waitedResumes := t.resumes)
    ensures Flow(t')
  {
  }

  predicate Registers(t: State, w: Waker, t': State)
    requires t.client.Registering?
  {
    || (t.s.kind == Download && t.s.queue == [] && !t.s.Over() && !t.s.paused &&
        t' == t.(s := t.s.(readWaiter := Some(w)), client := Blocked(t.client.call, w), waitedPaused := t.s.paused,
                 waitedResumes := t.resumes))
    || (t.s.kind == Upload && t.s.Full() && !t.s.Over() &&
        t' == t.(s := t.s.(writeWaiter := Some(w)), client := Blocked(t.client.call, w), waitedPaused := t.s.paused,
                 waitedResumes := t.resumes))
  }

  predicate Idles(t: State, t': State)
    requires t.client.Registering?
  {
    t' == t.(client := t'.client) && Quiet(t'.client) && (t'.client.Free? || t'.client.call == t.client.call)
  }

  /** What registering, or not, comes to. */
  lemma WaitEffect(t: State, w: Waker)
    requires t.client.Registering?
    ensures Registers(t, w, Await(t, w)) || Idles(t, Await(t, w))
  {
  }

  lemma RegisteredFlow(t: State, w: Waker, t': State)
    requires Flow(t) && t.client.Registering? && Registers(t, w, t')
    ensures Flow(t') && SameBytes(t, t')
  {
    if t.s.kind == Download {
      RegisterReadFlow(t, w, t');
    } else {
      RegisterWriteFlow(t, w, t');
    }
  }

  lemma IdledFlow(t: State, t': State)
    requires Flow(t) && t.client.Registering? && Idles(t, t')
    ensures Flow(t') && SameBytes(t, t')
  {
    IdleFlow(t, t'.client, t');
  }

  lemma WaitKeepsInv(t: State, w: Waker, t': State)
    requires Inv(t) && t.client.Registering? && (Registers(t, w, t') || Idles(t, t'))
    ensures Inv(t')
  {
    if Registers(t, w, t') {
      RegisteredFlow(t, w, t');
    } else {
      IdledFlow(t, t');
    }
  }

  lemma MoveKeepsInv(t: State, a: ClientAction, t': State)
    requires Inv(t) && ClientEnabled(t, a) && t' == ClientApply(t, a) && (a.Begin? || a.Wake? || a.Abandon?)
    ensures Inv(t')
  {
  }

  lemma InterruptKeepsInv(t: State, t': State)
    requires Inv(t) && ClientEnabled(t, Interrupt) && t' == ClientApply(t, Interrupt)
    ensures Inv(t')
  {
  }

  lemma TakeFlow(t: State, t': State)
    requires Flow(t) && t.client.Flushing? && t.s.paused && t.s.Live()
    requires t' == t.(s := t.s.(paused := false), client := Sending(t.client.call, t.client.rewait))
    ensures Flow(t')
  {
  }

  lemma FlushKeepsInv(t: State, t': State)
    requires Inv(t) && t.client.Flushing? && t' == AfterTake(t, t.client.call, t.client.rewait)
    ensures Inv(t')
  {
    if t.s.paused && t.s.Live() {
      TakeFlow(t, t');
    } else {
      IdleFlow(t, AfterFlush(t.client.call, t.client.rewait), t');
    }
  }

  lemma SendKeepsInv(t: State, reply: Reply, t': State)
    requires Inv(t) && t.client.Sending? && t' == AfterReply(t, t.client.call, t.client.rewait, reply)
    ensures Inv(t')
  {
  }

  lemma RestoreKeepsInv(t: State, a: ClientAction, t': State)
    requires Inv(t) && ClientEnabled(t, a) && t' == ClientApply(t, a)
    requires a.Restore? || a.GiveUp?
    ensures Inv(t')
  {
  }

  lemma ClientKeepsInv(t: State, a: ClientAction, t': State)
    requires Inv(t) && ClientEnabled(t, a) && t' == ClientApply(t, a)
    ensures Inv(t')
  {
    match a
    case Try(memory) => TryKeepsInv(t, memory, t');
    case Wait(w) =>
      WaitEffect(t, w);
      WaitKeepsInv(t, w, t');
    case Begin(_) => MoveKeepsInv(t, a, t');
    case Wake => MoveKeepsInv(t, a, t');
    case Interrupt => InterruptKeepsInv(t, t');
    case Abandon => MoveKeepsInv(t, a, t');
    case Flush => FlushKeepsInv(t, t');
    case SendResume(reply) => SendKeepsInv(t, reply, t');
    case Restore => RestoreKeepsInv(t, a, t');
    case GiveUp => RestoreKeepsInv(t, a, t');
  }

  // ---- closer steps

  lemma StartCloseFlow(t: State, p: Pid, t': State)
    requires Flow(t) && CloserEnabled(t, p, StartClose) && t' == CloserApply(t, p, StartClose)
    ensures Flow(t')
  {
  }

  lemma SendCancelFlow(t: State, p: Pid, reply: Reply, t': State)
    requires Flow(t) && CloserEnabled(t, p, SendCancel(reply)) && t' == CloserApply(t, p, SendCancel(reply))
    ensures Flow(t')
  {
  }

  lemma RetractFlow(t: State, p: Pid, d: CloserAction, t': State)
    requires Flow(t) && (d.Retract? || d.GiveUpCancel?) && CloserEnabled(t, p, d) && t' == CloserApply(t, p, d)
    ensures Flow(t')
  {
  }

  lemma StartCloseBalanced(t: State, p: Pid, t': State)
    requires Balanced(t) && CloserEnabled(t, p, StartClose) && t' == CloserApply(t, p, StartClose)
    ensures Balanced(t')
  {
    ConservedClose(t.s.kind, t.s.closed, t.s.queue, t.entered, t.passed);
  }

  lemma CancelSameBytes(t: State, p: Pid, d: CloserAction, t': State)
    requires !d.StartClose? && CloserEnabled(t, p, d) && t' == CloserApply(t, p, d)
    ensures SameBytes(t, t')
  {
  }

  predicate SameBytes(t: State, t': State) {
    && t'.s.kind == t.s.kind && t'.s.closed == t.s.closed && t'.s.queue == t.s.queue
    && t'.entered == t.entered && t'.passed == t.passed
  }

  lemma CloserKeepsInv(t: State, p: Pid, d: CloserAction, t': State)
    requires Inv(t) && CloserEnabled(t, p, d) && t' == CloserApply(t, p, d)
    ensures Inv(t')
  {
    match d
    case StartClose =>
      StartCloseBalanced(t, p, t');
      StartCloseFlow(t, p, t');
    case SendCancel(reply) =>
      CancelSameBytes(t, p, d, t');
      SendCancelFlow(t, p, reply, t');
    case _ =>
      CancelSameBytes(t, p, d, t');
      RetractFlow(t, p, d, t');
  }

  // ---- runs

  ghost predicate StepAt(run: seq<State>, acts: seq<Action>, i: nat)
    requires i < |acts| && |run| == |acts| + 1
  {
    Step(run[i], acts[i], run[i + 1])
  }

  predicate Step(t: State, a: Action, t': State) {
    Enabled(t, a) && t' == Apply(t, a)
  }

  /** Any interleaving of the agent, libcurl, the lock's holder and any number of closers. */
  ghost predicate IsRun(kind: Kind, capacity: nat, run: seq<State>, acts: seq<Action>) {
    && capacity > 0 && |run| == |acts| + 1 && run[0] == Start(kind, capacity)
    && forall i :: 0 <= i < |acts| ==> StepAt(run, acts, i)
  }

  lemma StepKeepsInv(t: State, a: Action, t': State)
    requires Inv(t) && Step(t, a, t')
    ensures Inv(t')
  {
    match a
    case ByAgent(act) =>
      AgentFlow(t, act, t');
      AgentBalanced(t, act, t');
    case ByClient(act) => ClientKeepsInv(t, act, t');
    case ByCloser(p, act) => CloserKeepsInv(t, p, act, t');
  }

  lemma StepOfRun(kind: Kind, capacity: nat, run: seq<State>, acts: seq<Action>, k: nat, i: nat)
    requires IsRun(kind, capacity, run, acts) && i == k + 1 < |run|
    ensures Step(run[k], acts[k], run[i])
  {
    assert StepAt(run, acts, k);
  }

  lemma {:induction false} RunKeepsInv(kind: Kind, capacity: nat, run: seq<State>, acts: seq<Action>, i: nat)
    requires IsRun(kind, capacity, run, acts) && i < |run|
    ensures Inv(run[i])
  {
    if i == 0 {
      StartInv(kind, capacity);
    } else {
      var k := i - 1;
      RunKeepsInv(kind, capacity, run, acts, k);
      StepOfRun(kind, capacity, run, acts, k, i);
      StepKeepsInv(run[k], acts[k], run[i]);
    }
  }

  // ---- what the stream promises

  /** No lost resume: while libcurl's side of a live stream is stopped or about to be, the pause flag is set, a flusher
      is between taking it and its answer, or a RESUME is queued; and exactly one of these unless libcurl was resumed
      from elsewhere. */
  lemma NoLostResume(kind: Kind, capacity: nat, run: seq<State>, acts: seq<Action>, i: nat)
    requires IsRun(kind, capacity, run, acts) && i < |run|
    requires var t := run[i]; t.s.Live() && Stopped(t)
    ensures var t := run[i];
            && (t.s.paused || Holds(t.client) || t.resumes > 0)
            && (!t.disturbed ==> One(t.s.paused) + One(Holds(t.client)) + t.resumes == 1)
  {
    RunKeepsInv(kind, capacity, run, acts, i);
  }

  /** A registered reader is never stranded: if libcurl is stopped, a RESUME is queued. */
  lemma ReaderHasResume(kind: Kind, capacity: nat, run: seq<State>, acts: seq<Action>, i: nat)
    requires IsRun(kind, capacity, run, acts) && i < |run|
    requires var t := run[i]; t.s.readWaiter.Some? && Stopped(t)
    ensures run[i].resumes > 0 && run[i].s.Live()
  {
    RunKeepsInv(kind, capacity, run, acts, i);
  }

  /** The upload side, exactly and on every run: a stopped stream with a registered writer has a RESUME queued if and
      only if one was queued when the writer registered. A clear pause flag guarantees that; hcurl_stream_wait_write
      does not check it, and unless libcurl was resumed from elsewhere a set flag means that there was none. */
  lemma WriterHasResume(kind: Kind, capacity: nat, run: seq<State>, acts: seq<Action>, i: nat)
    requires IsRun(kind, capacity, run, acts) && i < |run|
    requires var t := run[i]; t.s.writeWaiter.Some? && Stopped(t)
    ensures run[i].resumes > 0 <==> run[i].waitedResumes > 0
    ensures !run[i].waitedPaused ==> run[i].waitedResumes > 0
    ensures !run[i].disturbed ==> (run[i].waitedResumes > 0 <==> !run[i].waitedPaused)
  {
    RunKeepsInv(kind, capacity, run, acts, i);
  }

  /** A writer that runs every flush loop to its end before it writes again never registers with the flag set. */
  lemma CarefulWriterHasResume(kind: Kind, capacity: nat, run: seq<State>, acts: seq<Action>, i: nat)
    requires IsRun(kind, capacity, run, acts) && i < |run| && !run[i].abandoned
    requires var t := run[i]; t.s.writeWaiter.Some? && Stopped(t)
    ensures run[i].resumes > 0
  {
    RunKeepsInv(kind, capacity, run, acts, i);
  }

  /** No lost wake-up: a registered waiter always has something to wait for. */
  lemma WaitersHaveCause(kind: Kind, capacity: nat, run: seq<State>, acts: seq<Action>, i: nat)
    requires IsRun(kind, capacity, run, acts) && i < |run|
    ensures var s := run[i].s;
            && (s.readWaiter.Some? ==> s.queue == [] && !s.closed && s.terminal.None?)
            && (s.writeWaiter.Some? ==> |s.queue| == s.capacity && !s.closed && s.terminal.None?)
  {
    RunKeepsInv(kind, capacity, run, acts, i);
  }

  /** Conservation: what came out is a prefix of what went in, and until close the ring holds exactly the rest. */
  lemma NothingLost(kind: Kind, capacity: nat, run: seq<State>, acts: seq<Action>, i: nat)
    requires IsRun(kind, capacity, run, acts) && i < |run|
    ensures run[i].passed <= run[i].entered
    ensures !run[i].s.closed ==> run[i].passed + Pending(run[i].s.queue) == run[i].entered
    ensures |run[i].s.queue| <= capacity
  {
    RunKeepsInv(kind, capacity, run, acts, i);
    SameShape(kind, capacity, run, acts, i);
  }

  /** The terminal code is written once; closing and, but for one exception, the cancel flag are for ever. */
  predicate Follows(s: Stream, s': Stream) {
    && s'.kind == s.kind && s'.capacity == s.capacity
    && (s.terminal.Some? ==> s'.terminal == s.terminal)
    && (s.closed ==> s'.closed)
  }

  lemma CallbackFollows(t: State, data: seq<Byte>, room: nat, memory: bool)
    ensures var s' := OnDownload(t.s, data, memory).s; Follows(t.s, s') && s'.cancelSent == t.s.cancelSent
    ensures var s' := OnUpload(t.s, room).s; Follows(t.s, s') && s'.cancelSent == t.s.cancelSent
  {
  }

  lemma AgentFollows(t: State, a: AgentAction, t': State)
    requires AgentEnabled(t, a) && t' == AgentApply(t, a)
    ensures Follows(t.s, t'.s) && t'.s.cancelSent == t.s.cancelSent
  {
    match a
    case CallDownload(data, memory) => CallbackFollows(t, data, 0, memory);
    case CallUpload(room) => CallbackFollows(t, [], room, false);
    case _ =>
      if a.Normalize? || a.CompleteStream? || a.DropControl? {
        EndSameBytes(t, a, t');
      } else {
        TurnSameBytes(t, a, t');
      }
  }

  lemma ReadFollows(t: State)
    ensures Follows(t.s, AfterRead(t).s) && AfterRead(t).s.cancelSent == t.s.cancelSent
  {
    ReadEffect(t);
  }

  lemma WriteFollows(t: State, data: seq<Byte>, memory: bool)
    ensures var s' := AfterWrite(t, data, memory).s; Follows(t.s, s') && s'.cancelSent == t.s.cancelSent
  {
    WriteEffect(t, data, memory);
  }

  lemma TryFollows(t: State, memory: bool, t': State)
    requires t.client.Trying? && t' == Attempt(t, memory)
    ensures Follows(t.s, t'.s) && t'.s.cancelSent == t.s.cancelSent
  {
    match t.client.call
    case Read => ReadFollows(t);
    case Write(data) => WriteFollows(t, data, memory);
    case Finish =>
  }

  lemma MoveFollows(t: State, a: ClientAction, t': State)
    requires ClientEnabled(t, a) && t' == ClientApply(t, a)
    requires a.Begin? || a.Wake? || a.Interrupt? || a.Abandon? || a.Restore? || a.GiveUp?
    ensures Follows(t.s, t'.s) && t'.s.cancelSent == t.s.cancelSent
  {
  }

  lemma TakeFollows(t: State, call: Call, rewait: bool)
    ensures var s' := AfterTake(t, call, rewait).s; Follows(t.s, s') && s'.cancelSent == t.s.cancelSent
  {
  }

  lemma ReplySame(t: State, call: Call, rewait: bool, reply: Reply)
    ensures AfterReply(t, call, rewait, reply).s == t.s
  {
  }

  lemma ClientFollows(t: State, a: ClientAction, t': State)
    requires ClientEnabled(t, a) && t' == ClientApply(t, a)
    ensures Follows(t.s, t'.s) && t'.s.cancelSent == t.s.cancelSent
  {
    match a
    case Try(memory) => TryFollows(t, memory, t');
    case Wait(w) => WaitEffect(t, w);
    case Flush => TakeFollows(t, t.client.call, t.client.rewait);
    case SendResume(reply) => ReplySame(t, t.client.call, t.client.rewait, reply);
    case _ => MoveFollows(t, a, t');
  }

  lemma CloserFollows(t: State, p: Pid, d: CloserAction, t': State)
    requires CloserEnabled(t, p, d) && t' == CloserApply(t, p, d)
    ensures Follows(t.s, t'.s)
    ensures t.s.cancelSent && !t'.s.cancelSent ==> d == Retract && p in t.closers
  {
  }

  lemma StepFollows(t: State, a: Action, t': State)
    requires Step(t, a, t')
    ensures Follows(t.s, t'.s)
    ensures t.s.cancelSent && !t'.s.cancelSent ==> a.ByCloser? && a.d == Retract && a.p in t.closers
  {
    match a
    case ByAgent(act) => AgentFollows(t, act, t');
    case ByClient(act) => ClientFollows(t, act, t');
    case ByCloser(p, act) => CloserFollows(t, p, act, t');
  }

  lemma {:induction false} SameShape(kind: Kind, capacity: nat, run: seq<State>, acts: seq<Action>, i: nat)
    requires IsRun(kind, capacity, run, acts) && i < |run|
    ensures run[i].s.kind == kind && run[i].s.capacity == capacity
  {
    if i > 0 {
      var k := i - 1;
      SameShape(kind, capacity, run, acts, k);
      StepOfRun(kind, capacity, run, acts, k, i);
      StepFollows(run[k], acts[k], run[i]);
    }
  }

  /** A reader is told the end, or the error, only after every accepted byte was returned; and nothing is accepted
      afterwards. */
  lemma EndAfterEverything(kind: Kind, capacity: nat, run: seq<State>, acts: seq<Action>, i: nat)
    requires IsRun(kind, capacity, run, acts) && i < |run| && TryRead(run[i].s).answer.Finished?
    ensures run[i].passed == run[i].entered
    ensures forall data, memory :: OnDownload(run[i].s, data, memory).answer == Rejected
  {
    RunKeepsInv(kind, capacity, run, acts, i);
  }

  /** libcurl is told the end of the upload only when the writer has finished and every accepted byte was handed over;
      after close it is told to abort instead. */
  lemma EofAfterEverything(kind: Kind, capacity: nat, run: seq<State>, acts: seq<Action>, i: nat, room: nat)
    requires IsRun(kind, capacity, run, acts) && i < |run|
    ensures OnUpload(run[i].s, room).answer == Eof ==> run[i].s.finished && run[i].passed == run[i].entered
    ensures kind == Upload && room > 0 && run[i].s.closed ==> OnUpload(run[i].s, room).answer == Abort
  {
    RunKeepsInv(kind, capacity, run, acts, i);
    SameShape(kind, capacity, run, acts, i);
  }

  /** One cancel: the queue accepts at most one CANCEL of a stream, however many threads close it, retry and race with
      its completion. */
  lemma AtMostOneCancel(kind: Kind, capacity: nat, run: seq<State>, acts: seq<Action>, i: nat)
    requires IsRun(kind, capacity, run, acts) && i < |run|
    ensures run[i].cancelsAccepted <= 1 && run[i].cancels <= 1
    ensures forall p, r :: p in run[i].closers && r in run[i].closers ==> p == r
  {
    RunKeepsInv(kind, capacity, run, acts, i);
  }

  /** One verdict: the terminal code is written once and closing is for ever. */
  lemma {:induction false} OneVerdict(kind: Kind, capacity: nat, run: seq<State>, acts: seq<Action>, i: nat, j: nat)
    requires IsRun(kind, capacity, run, acts) && i <= j < |run|
    ensures run[i].s.terminal.Some? ==> run[j].s.terminal == run[i].s.terminal
    ensures run[i].s.closed ==> run[j].s.closed
    decreases j
  {
    if i < j {
      var k := j - 1;
      OneVerdict(kind, capacity, run, acts, i, k);
      StepOfRun(kind, capacity, run, acts, k, j);
      StepFollows(run[k], acts[k], run[j]);
    }
  }

  /** cancel_sent is cleared only by the one closer that set it, once the queue has refused its CANCEL. */
  lemma OnlySetterClears(kind: Kind, capacity: nat, run: seq<State>, acts: seq<Action>, k: nat)
    requires IsRun(kind, capacity, run, acts) && k < |acts|
    requires run[k].s.cancelSent && !run[k + 1].s.cancelSent
    ensures acts[k].ByCloser? && acts[k].d == Retract
    ensures acts[k].p in run[k].closers && run[k].closers[acts[k].p] == Retracting
    ensures run[k].closers.Keys == {acts[k].p} && run[k].cancelsAccepted == 0
  {
    RunKeepsInv(kind, capacity, run, acts, k);
    StepOfRun(kind, capacity, run, acts, k, k + 1);
    StepFollows(run[k], acts[k], run[k + 1]);
    SoleCloser(run[k], acts[k].p);
  }

  lemma SoleCloser(t: State, p: Pid)
    requires OneCancel(t) && p in t.closers
    ensures t.closers.Keys == {p} && t.cancelsAccepted == 0
  {
  }

  /** A finished transfer leaves its stream with a terminal code, so no later reader or writer waits. */
  lemma EndedIsTerminal(kind: Kind, capacity: nat, run: seq<State>, acts: seq<Action>, i: nat)
    requires IsRun(kind, capacity, run, acts) && i < |run| && run[i].agent.Ended?
    ensures run[i].s.terminal.Some? && run[i].s.readWaiter.None? && run[i].s.writeWaiter.None?
  {
    RunKeepsInv(kind, capacity, run, acts, i);
  }

  // ---- the writer that does not flush

  /** One slot; the writer's RESUME is refused, its flush loop is abandoned, and it writes again. */
  function Scenario(k: nat): Action {
    if k == 0 then ByAgent(CallUpload(1))
    else if k == 1 then ByAgent(SetPause(true))
    else if k == 2 then ByClient(Begin(Write([0])))
    else if k == 3 then ByClient(Try(true))
    else if k == 4 then ByClient(Flush)
    else if k == 5 then ByClient(SendResume(Retry))
    else if k == 6 then ByClient(Restore)
    else if k == 7 then ByClient(Abandon)
    else if k == 8 then ByClient(Begin(Write([1])))
    else if k == 9 then ByClient(Try(true))
    else ByClient(Wait(5))
  }

  function Stage(k: nat): State {
    var t := Start(Upload, 1);
    var idle := t.(s := t.s.(paused := true), curlPaused := true);
    var full := idle.(s := idle.s.(queue := [Chunk([0], 0)]), entered := [0]);
    if k == 0 then t
    else if k == 1 then t.(s := t.s.(paused := true), agent := Pausing)
    else if k == 2 then idle
    else if k == 3 then idle.(client := Trying(Write([0])))
    else if k == 4 then full.(client := Flushing(Write([0]), false, false))
    else if k == 5 then full.(s := full.s.(paused := false), client := Sending(Write([0]), false))
    else if k == 6 then full.(s := full.s.(paused := false), client := Restoring(Write([0]), false))
    else if k == 7 then full.(client := Flushing(Write([0]), true, false))
    else Left(full.(abandoned := true), k)
  }

  function Left(t: State, k: nat): State {
    if k == 8 then t
    else if k == 9 then t.(client := Trying(Write([1])))
    else if k == 10 then t.(client := Registering(Write([1])))
    else t.(s := t.s.(writeWaiter := Some(5)), client := Blocked(Write([1]), 5), waitedPaused := true)
  }

  lemma PauseStage(k: nat)
    requires k < 3
    ensures Step(Stage(k), Scenario(k), Stage(k + 1))
  {
  }

  lemma WriteStage(k: nat)
    requires k == 3
    ensures Step(Stage(k), Scenario(k), Stage(k + 1))
  {
  }

  lemma FlushStage(k: nat)
    requires 4 <= k < 6
    ensures Step(Stage(k), Scenario(k), Stage(k + 1))
  {
  }

  lemma RestoreStage(k: nat)
    requires 6 <= k < 9
    ensures Step(Stage(k), Scenario(k), Stage(k + 1))
  {
  }

  lemma StrandStage(k: nat)
    requires 9 <= k < 11
    ensures Step(Stage(k), Scenario(k), Stage(k + 1))
  {
  }

  /** Without that care the upload side strands: a live stream, libcurl paused, the ring full, the writer registered, no
      RESUME queued, and no step of the protocol itself left to take. */
  lemma CarelessWriterStrands()
    ensures exists run, acts :: IsRun(Upload, 1, run, acts) && Stranded(run[|acts|])
  {
    var run, acts := seq(12, k requires 0 <= k < 12 => Stage(k)), seq(11, k requires 0 <= k < 11 => Scenario(k));
    forall k | 0 <= k < 11
      ensures StepAt(run, acts, k)
    {
      if k < 3 {
        PauseStage(k);
      } else if k == 3 {
        WriteStage(k);
      } else if k < 6 {
        FlushStage(k);
      } else if k < 9 {
        RestoreStage(k);
      } else {
        StrandStage(k);
      }
    }
    assert IsRun(Upload, 1, run, acts) && Stranded(run[|acts|]);
  }

  /** Only an interruption, a close, or an event of libcurl's or the reactor's own can still happen. */
  predicate Outside(a: Action) {
    match a
    case ByAgent(act) => act.OtherResume? || act.CurlDone?
    case ByClient(act) => act.Interrupt?
    case ByCloser(_, act) => act.StartClose?
  }

  ghost predicate Stranded(t: State) {
    && t.s.Live() && t.s.Full() && t.s.writeWaiter.Some? && Stopped(t) && t.resumes == 0 && t.s.paused
    && forall a :: Enabled(t, a) ==> Outside(a)
  }
}

/** A stream and the reactor together: the RESUME and CANCEL of one stream go through the real queue, to the agent
    that owns the transfer. Each step is a step of the reactor, of the stream protocol, or of both. */
module StreamReactor {
  import opened Completion
  import opened Counting
  import opened Dispatch
  import opened Messages
  import A = StreamAnswers
  import M = Mpsc
  import P = StreamProtocol
  import R = Reactor
  import S = Stream

  /** One transfer, and one of its streams. */
  datatype Subject = Subject(sub: Submission, stream: Handle)

  datatype Purpose = Resuming | Cancelling

  /** `started` is the ticket of the transfer's EXECUTE, once its call has returned OK; only then do the stream's
      clients exist. `calls` are the threads that are in enqueue_control for this stream, `resumes` and `cancels` the
      tickets of its messages that the agent has not handled yet. */
  datatype State = State(
    r: R.Reactor,
    t: P.State,
    started: Option<nat>,
    calls: map<Pid, Purpose>,
    resumes: set<nat>,
    cancels: set<nat>)

  datatype Action =
    | Started(ticket: nat)
    | Producer(p: Pid, step: R.ProducerAction)
    | Call(p: Pid, purpose: Purpose)
    | CallStep(p: Pid, step: R.ProducerAction)
    | AgentStep(act: R.AgentAction)
    | StreamStep(turn: P.Action)

  function MessageOf(purpose: Purpose, id: nat): Message {
    match purpose
    case Resuming => Resume(id)
    case Cancelling => Cancel(id)
  }

  // ---- what a step of the reactor does to the stream

  /** Up to two steps of the stream protocol. */
  datatype Effect = Effect(first: Option<P.Action>, second: Option<P.Action>)

  const NOTHING := Effect(None, None)

  predicate CanTake(t: P.State, a: Option<P.Action>) {
    a.Some? ==> P.Enabled(t, a.value)
  }

  function Take(t: P.State, a: Option<P.Action>): P.State
    requires CanTake(t, a)
  {
    if a.None? then t else P.Apply(t, a.value)
  }

  predicate Possible(t: P.State, e: Effect) {
    CanTake(t, e.first) && CanTake(Take(t, e.first), e.second)
  }

  function After(t: P.State, e: Effect): P.State
    requires Possible(t, e)
  {
    Take(Take(t, e.first), e.second)
  }

  /** The thread's message has its ticket. */
  predicate Ticketed(r: R.Reactor, p: Pid) {
    p in r.pcs && match r.pcs[p]
                  case Inside(_) => p in r.q.pcs && r.q.pcs[p].HasTicket()
                  case Notify(_, _) => true
                  case Leave(_, outcome) => outcome.Some?
                  case Signal(_, outcome) => outcome.Some?
                  case _ => false
  }

  predicate Accepts(r: R.Reactor, p: Pid, step: R.ProducerAction) {
    step.QueueOp? && p in r.q.pcs && r.q.pcs[p].Admitted?
  }

  /** What enqueue_control makes of a refusal: a closed sender is for good, a full queue or a failed allocation is
      not. */
  function Refusal(r: R.Reactor, step: R.ProducerAction): P.Reply {
    if step.TryEnter? || (step.CheckClosed? && R.Closed(r.sender.word)) then P.Gone else P.Retry
  }

  function Answer(purpose: Purpose, p: Pid, reply: P.Reply): P.Action {
    match purpose
    case Resuming => P.ByClient(P.SendResume(reply))
    case Cancelling => P.ByCloser(p, P.SendCancel(reply))
  }

  /** The message counts as sent from the moment it has its ticket: the agent may handle it before the call returns. */
  function CallEffect(r: R.Reactor, r': R.Reactor, p: Pid, purpose: Purpose, step: R.ProducerAction): Effect {
    if Accepts(r, p, step) then Effect(Some(Answer(purpose, p, P.Accepted)), None)
    else if p !in r'.pcs && !Ticketed(r, p) then Effect(Some(Answer(purpose, p, Refusal(r, step))), None)
    else NOTHING
  }

  predicate Finishes(x: Subject, a: Dispatch.Agent, a': Dispatch.Agent) {
    x.stream !in a.ledger.finished && x.stream in a'.ledger.finished
  }

  /** The agent completes the stream when it settles the transfer. A message of this stream is spent when it is
      handled; a RESUME that finds the transfer registered resumes libcurl, whichever stream of the transfer sent
      it. */
  function AgentEffect(x: Subject, c: State, act: R.AgentAction, r': R.Reactor): Effect {
    var first := if Finishes(x, c.r.agent, r'.agent) then Some(P.ByAgent(P.CompleteStream)) else None;
    var ended := first.Some? || c.t.agent.Ended?;
    var n := R.Handled(c.r.q, c.r.hand);
    if !R.Handles(act) then Effect(first, None)
    else if n in c.resumes then Effect(first, Some(P.ByAgent(if ended then P.DropControl(true)
                                                             else P.HandleResume(true, CURLE_OK))))
    else if n in c.cancels then Effect(first, Some(P.ByAgent(P.DropControl(false))))
    else if c.r.hand == Some(Resume(x.sub.id)) && IsRegistered(c.r.agent, x.sub) && !ended && act.HandleMessage?
    then Effect(first, Some(P.ByAgent(P.OtherResume)))
    else Effect(first, None)
  }

  /** The agent is inside finish_detached_transfer for this transfer, which ends with the settling step; inside a
      callback it does nothing else. */
  predicate AgentFree(x: Subject, t: P.State, a: Dispatch.Agent, a': Dispatch.Agent) {
    if Finishes(x, a, a') then t.agent.Completing? else t.agent.Running? || t.agent.Ended?
  }

  predicate MayCall(c: State, p: Pid, purpose: Purpose) {
    match purpose
    case Resuming => c.t.client.Sending? && Resuming !in c.calls.Values
    case Cancelling => p in c.t.closers && c.t.closers[p].SendingCancel?
  }

  /** Steps of the stream alone: callbacks of a registered transfer, the start of its completion, and whatever its
      clients do outside enqueue_control. Pausing one direction states the whole mask, so the callback of the
      transfer's other stream may resume this one with no message at all. */
  predicate MayStep(x: Subject, c: State, act: P.Action) {
    match act
    case ByAgent(a) =>
      if a.CallDownload? || a.CallUpload? || a.OtherResume? then IsRegistered(c.r.agent, x.sub)
      else a.SetPause? || a.CurlDone? || a.Normalize?
    case ByClient(a) => c.started.Some? && !a.SendResume? && Resuming !in c.calls.Values
    case ByCloser(p, a) => c.started.Some? && !a.SendCancel? && p !in c.calls
  }

  ghost predicate Enabled(x: Subject, c: State, a: Action) {
    M.WellFormed(c.r.q.mem) &&
    match a
    case Started(ticket) => c.started.None? && ticket in c.r.accepted && c.r.accepted[ticket] == Execute(x.sub)
    case Producer(p, step) => p !in c.calls && R.ProducerEnabled(c.r, p, step)
    case Call(p, purpose) =>
      c.started.Some? && MayCall(c, p, purpose) && R.ProducerEnabled(c.r, p, R.Begin(MessageOf(purpose, x.sub.id)))
    case CallStep(p, step) =>
      p in c.calls && R.ProducerEnabled(c.r, p, step)
      && Possible(c.t, CallEffect(c.r, R.ProducerApply(c.r, p, step), p, c.calls[p], step))
    case AgentStep(act) =>
      R.AgentEnabled(c.r, act)
      && (var r' := R.AgentApply(c.r, act);
          AgentFree(x, c.t, c.r.agent, r'.agent) && Possible(c.t, AgentEffect(x, c, act, r')))
    case StreamStep(turn) => P.Enabled(c.t, turn) && MayStep(x, c, turn)
  }

  function CallResult(c: State, p: Pid, step: R.ProducerAction, r': R.Reactor): State
    requires p in c.calls && Possible(c.t, CallEffect(c.r, r', p, c.calls[p], step))
  {
    var ticket := if Accepts(c.r, p, step) then {|c.r.q.order|} else {};
    State(r', After(c.t, CallEffect(c.r, r', p, c.calls[p], step)), c.started,
          if p in r'.pcs then c.calls else c.calls - {p},
          if c.calls[p].Resuming? then c.resumes + ticket else c.resumes,
          if c.calls[p].Cancelling? then c.cancels + ticket else c.cancels)
  }

  ghost function AfterCallStep(x: Subject, c: State, p: Pid, step: R.ProducerAction): State
    requires Enabled(x, c, CallStep(p, step))
  {
    CallResult(c, p, step, R.ProducerApply(c.r, p, step))
  }

  ghost function AfterAgentStep(x: Subject, c: State, act: R.AgentAction): State
    requires Enabled(x, c, AgentStep(act))
  {
    var r' := R.AgentApply(c.r, act);
    var spent := if R.Handles(act) then {R.Handled(c.r.q, c.r.hand)} else {};
    State(r', After(c.t, AgentEffect(x, c, act, r')), c.started, c.calls, c.resumes - spent, c.cancels - spent)
  }

  ghost function Apply(x: Subject, c: State, a: Action): State
    requires Enabled(x, c, a)
  {
    match a
    case Started(ticket) => c.(started := Some(ticket))
    case Producer(p, step) => c.(r := R.ProducerApply(c.r, p, step))
    case Call(p, purpose) =>
      c.(r := R.ProducerApply(c.r, p, R.Begin(MessageOf(purpose, x.sub.id))), calls := c.calls[p := purpose])
    case CallStep(p, step) => AfterCallStep(x, c, p, step)
    case AgentStep(act) => AfterAgentStep(x, c, act)
    case StreamStep(turn) => c.(t := P.Apply(c.t, turn))
  }

  function Start(capacity: nat, kind: S.Kind, chunks: nat): State {
    State(R.Start(capacity), P.Start(kind, chunks), None, map[], {}, {})
  }

  // ---- the invariant

  /** libcurl has not touched the stream, and nothing is under way to resume it. */
  predicate Pristine(t: P.State) {
    !t.curlPaused && !t.agent.Pausing? && P.Tokens(t) == 0
  }

  /** The stream has ended exactly when the transfer has been settled; before it is registered nothing has happened to
      it. */
  ghost predicate Fated(x: Subject, a: Dispatch.Agent, t: P.State) {
    && (t.agent.Ended? <==> x.stream in a.ledger.finished)
    && (!t.agent.Ended? && !IsRegistered(a, x.sub) ==> Pristine(t))
  }

  /** Queued and unhandled, behind the transfer's own EXECUTE. */
  predicate Queued(order: seq<Message>, handled: int, started: Option<nat>, tickets: set<nat>, m: Message) {
    forall u :: u in tickets ==> started.Some? && started.value < u && handled <= u < |order| && order[u] == m
  }

  predicate Begun(x: Subject, order: seq<Message>, started: Option<nat>, calls: map<Pid, Purpose>, t: P.State) {
    && (started.Some? ==> R.IsTicketOf(order, started.value, Execute(x.sub)))
    && (started.None? ==> calls == map[] && t.client.Free? && t.closers == map[])
  }

  /** A thread in enqueue_control whose message has no ticket yet is where the stream protocol waits for its answer. */
  predicate Waiting(t: P.State, p: Pid, purpose: Purpose) {
    match purpose
    case Resuming => t.client.Sending?
    case Cancelling => p in t.closers && t.closers[p].SendingCancel?
  }

  ghost predicate Calling(x: Subject, r: R.Reactor, calls: map<Pid, Purpose>, t: P.State) {
    && (forall p :: p in calls ==>
          && p in r.pcs && r.pcs[p].msg == MessageOf(calls[p], x.sub.id)
          && (!Ticketed(r, p) ==> Waiting(t, p, calls[p])))
    && (forall p, q :: p in calls && q in calls && calls[p].Resuming? && calls[q].Resuming? ==> p == q)
  }

  /** The stream's own counts are those of the queue, and an accepted CANCEL is either still queued or was obeyed. */
  predicate Counted(c: State) {
    |c.resumes| == c.t.resumes && |c.cancels| == c.t.cancels && Obeyed(c.t)
  }

  predicate Obeyed(t: P.State) {
    t.cancelsAccepted > t.cancels ==> t.agent.Ended?
  }

  ghost predicate Link(x: Subject, c: State) {
    && Fated(x, c.r.agent, c.t)
    && Begun(x, c.r.q.order, c.started, c.calls, c.t)
    && Queued(c.r.q.order, R.Handled(c.r.q, c.r.hand), c.started, c.resumes, Resume(x.sub.id))
    && Queued(c.r.q.order, R.Handled(c.r.q, c.r.hand), c.started, c.cancels, Cancel(x.sub.id))
    && Calling(x, c.r, c.calls, c.t)
    && Counted(c)
  }

  predicate IsSubject(x: Subject) {
    x.stream in StreamsOf(x.sub)
  }

  ghost predicate Inv(x: Subject, c: State) {
    R.Inv(c.r) && P.Inv(c.t) && Link(x, c)
  }

  lemma StartInv(x: Subject, capacity: nat, kind: S.Kind, chunks: nat)
    requires M.CapacityAccepted(capacity) && chunks > 0
    ensures Inv(x, Start(capacity, kind, chunks))
  {
    R.StartInv(capacity);
    P.StartInv(kind, chunks);
  }

  // ---- what the reactor's steps do to the rest of the link

  lemma OrderEffect(r: R.Reactor, p: Pid, step: R.ProducerAction, r': R.Reactor)
    requires M.WellFormed(r.q.mem) && R.ProducerEnabled(r, p, step) && r' == R.ProducerApply(r, p, step)
    ensures r'.q.order == if Accepts(r, p, step) then r.q.order + [r.q.pcs[p].obj] else r.q.order
  {
  }

  /** The thread goes on with its message, and has a ticket if it had one or is given one now. */
  predicate Continues(p: Pid, r: R.Reactor, r': R.Reactor, accepts: bool)
    requires p in r.pcs
  {
    p in r'.pcs ==> r'.pcs[p].msg == r.pcs[p].msg && (Ticketed(r', p) <==> Ticketed(r, p) || accepts)
  }

  lemma QueueContinues(r: R.Reactor, p: Pid, step: R.ProducerAction, r': R.Reactor)
    requires R.Ownership(r.q.pcs, r.pcs, r.owned) && M.WellFormed(r.q.mem)
    requires R.ProducerEnabled(r, p, step) && r' == R.ProducerApply(r, p, step) && (step.QueueOp? || step.FinishQueue?)
    ensures p in r.pcs && Continues(p, r, r', Accepts(r, p, step))
    ensures Accepts(r, p, step) ==> !Ticketed(r, p) && p in r'.pcs && r.q.pcs[p].obj == r.pcs[p].msg
  {
  }

  lemma SenderContinues(r: R.Reactor, p: Pid, step: R.ProducerAction, r': R.Reactor)
    requires M.WellFormed(r.q.mem) && R.ProducerEnabled(r, p, step) && r' == R.ProducerApply(r, p, step)
    requires p in r.pcs && !step.QueueOp? && !step.FinishQueue?
    ensures Continues(p, r, r', false)
  {
  }

  lemma OwnTicketed(r: R.Reactor, p: Pid, step: R.ProducerAction, r': R.Reactor)
    requires R.Ownership(r.q.pcs, r.pcs, r.owned) && M.WellFormed(r.q.mem)
    requires R.ProducerEnabled(r, p, step) && r' == R.ProducerApply(r, p, step) && p in r.pcs
    ensures Continues(p, r, r', Accepts(r, p, step))
    ensures Accepts(r, p, step) ==> !Ticketed(r, p) && p in r'.pcs && r.q.pcs[p].obj == r.pcs[p].msg
  {
    if step.QueueOp? || step.FinishQueue? {
      QueueContinues(r, p, step, r');
    } else {
      SenderContinues(r, p, step, r');
    }
  }

  // ---- what the agent's steps do

  lemma SettleGrows(l: Ledger, sub: Submission, code: int, h: Handle)
    requires h in l.finished
    ensures h in Settle(l, sub, code).finished
  {
  }

  /** Completion events are never taken back. */
  predicate Onward(a: Dispatch.Agent, a': Dispatch.Agent, stream: Handle) {
    stream in a.ledger.finished ==> stream in a'.ledger.finished
  }

  lemma FinishOnward(a: Dispatch.Agent, id: nat, code: int, c: Cancelled, stream: Handle)
    ensures Onward(a, Finish(a, id, code, c), stream)
  {
    if id in a.registry && stream in a.ledger.finished {
      SettleGrows(a.ledger, a.registry[id].sub, FinalCode(a.registry[id].sub, code, c), stream);
    }
  }

  lemma ExecuteOnward(a: Dispatch.Agent, incoming: Submission, s: Setup, c: Cancelled, stream: Handle)
    ensures Onward(a, ExecuteTransfer(a, incoming, s, c), stream)
  {
    var code := ExecuteSettles(a, incoming, s, c);
    if stream in a.ledger.finished {
      SettleGrows(a.ledger, incoming, code, stream);
    }
  }

  lemma CompleteOnward(a: Dispatch.Agent, easy: Handle, code: int, c: Cancelled, stream: Handle)
    requires AgentInv(a)
    ensures Onward(a, CompleteTransfer(a, easy, code, c), stream)
  {
    if easy in a.private {
      CompletionFindsOwner(a, easy, code, c);
      FinishOnward(a, a.private[easy].id, code, c, stream);
    }
  }

  lemma MessageOnward(a: Dispatch.Agent, m: Message, s: Setup, pauseCode: int, c: Cancelled, stream: Handle)
    ensures Onward(a, AfterMessage(a, m, s, pauseCode, c), stream)
  {
    match m
    case Execute(incoming) => ExecuteOnward(a, incoming, s, c, stream);
    case Cancel(id) => FinishOnward(a, id, CURLE_ABORTED_BY_CALLBACK, c, stream);
    case Resume(id) => FinishOnward(a, id, pauseCode, c, stream);
    case Stop =>
  }

  lemma DrainOnward(a: Dispatch.Agent, m: Message, code: int, stream: Handle)
    ensures Onward(a, DrainOne(a, m, code), stream)
  {
    if m.Execute? && stream in a.ledger.finished {
      SettleGrows(a.ledger, m.payload, code, stream);
    }
  }

  lemma AgentOnward(r: R.Reactor, act: R.AgentAction, r': R.Reactor, stream: Handle)
    requires M.WellFormed(r.q.mem) && AgentInv(r.agent) && R.AgentEnabled(r, act) && r' == R.AgentApply(r, act)
    ensures Onward(r.agent, r'.agent, stream)
  {
    match act
    case HandleMessage(setup, pauseCode, c) => MessageOnward(r.agent, r.hand.value, setup, pauseCode, c, stream);
    case CurlDone(easy, code, c) => CompleteOnward(r.agent, easy, code, c, stream);
    case FinishOne(id, c) => FinishOnward(r.agent, id, r.code, c, stream);
    case DrainMessage => DrainOnward(r.agent, r.hand.value, r.code, stream);
    case _ =>
  }

  /** A handled EXECUTE has been settled or is registered; a registered one has not been settled. */
  lemma HandledFate(x: Subject, r: R.Reactor, i: nat)
    requires R.Inv(r) && IsSubject(x) && i < R.Handled(r.q, r.hand) && R.IsTicketOf(r.q.order, i, Execute(x.sub))
    ensures x.stream in r.agent.ledger.finished || IsRegistered(r.agent, x.sub)
  {
    assert Accounted(r.agent, r.q.order[i].payload);
  }

  lemma RegisteredUnsettled(x: Subject, r: R.Reactor)
    requires R.Inv(r) && IsSubject(x) && IsRegistered(r.agent, x.sub)
    ensures x.stream !in r.agent.ledger.finished && r.agent.registry[x.sub.id].active
  {
    assert Untouched(r.agent.ledger, r.agent.registry[x.sub.id].sub);
  }

  lemma RegisteredWasHandled(x: Subject, r: R.Reactor) returns (i: nat)
    requires R.Inv(r) && IsRegistered(r.agent, x.sub)
    ensures i < R.Handled(r.q, r.hand) && R.IsTicketOf(r.q.order, i, Execute(x.sub))
  {
    assert Submitted(r.q.order, R.Handled(r.q, r.hand), x.sub);
    i :| 0 <= i < R.Handled(r.q, r.hand) && r.q.order[i] == Execute(x.sub);
  }

  /** A transfer leaves the registry only by being settled. */
  lemma LeavesSettled(x: Subject, r: R.Reactor, act: R.AgentAction, r': R.Reactor)
    requires R.Inv(r) && R.Inv(r') && IsSubject(x) && R.AgentEnabled(r, act) && r' == R.AgentApply(r, act)
    requires IsRegistered(r.agent, x.sub) && !IsRegistered(r'.agent, x.sub)
    ensures Finishes(x, r.agent, r'.agent)
  {
    RegisteredUnsettled(x, r);
    var i := RegisteredWasHandled(x, r);
    R.AgentHandles(r, act, r');
    HandledFate(x, r', i);
  }

  // ---- what the stream's own steps do to the link

  lemma AgentTurn(t: P.State, a: P.AgentAction, t': P.State)
    requires P.AgentEnabled(t, a) && t' == P.AgentApply(t, a)
    requires a.CallDownload? || a.CallUpload? || a.OtherResume? || a.SetPause? || a.CurlDone? || a.Normalize?
    ensures !t.agent.Ended? && !t'.agent.Ended?
    ensures t'.resumes == t.resumes && t'.cancels == t.cancels && t'.cancelsAccepted == t.cancelsAccepted
    ensures t'.client == t.client && t'.closers == t.closers
    ensures Pristine(t) && !a.CallDownload? && !a.CallUpload? ==> Pristine(t')
  {
  }

  /** Nothing a client does by itself touches libcurl, the agent, the messages or the closers. */
  predicate Outside(t: P.State, t': P.State) {
    && t'.agent == t.agent && t'.resumes == t.resumes && t'.cancels == t.cancels && t'.closers == t.closers
    && t'.cancelsAccepted == t.cancelsAccepted
    && t'.curlPaused == t.curlPaused && (t.s.paused || P.Holds(t.client) || (!t'.s.paused && !P.Holds(t'.client)))
  }

  lemma AttemptTurn(t: P.State, memory: bool)
    requires t.client.Trying?
    ensures Outside(t, P.Attempt(t, memory))
  {
    match t.client.call
    case Read => P.ReadEffect(t);
    case Write(data) => P.WriteEffect(t, data, memory);
    case Finish =>
  }

  lemma MoveTurn(t: P.State, a: P.ClientAction, t': P.State)
    requires P.ClientEnabled(t, a) && t' == P.ClientApply(t, a)
    requires a.Begin? || a.Wake? || a.Interrupt? || a.Abandon? || a.Restore? || a.GiveUp?
    ensures Outside(t, t')
  {
  }

  lemma FlushTurn(t: P.State, call: P.Call, rewait: bool)
    ensures Outside(t, P.AfterTake(t, call, rewait))
  {
  }

  lemma ClientTurn(t: P.State, a: P.ClientAction, t': P.State)
    requires P.ClientEnabled(t, a) && t' == P.ClientApply(t, a) && !a.SendResume?
    ensures Outside(t, t')
  {
    match a
    case Try(memory) => AttemptTurn(t, memory);
    case Wait(w) => P.WaitEffect(t, w);
    case Flush => FlushTurn(t, t.client.call, t.client.rewait);
    case _ => MoveTurn(t, a, t');
  }

  lemma CloserTurn(t: P.State, p: Pid, d: P.CloserAction, t': P.State)
    requires P.CloserEnabled(t, p, d) && t' == P.CloserApply(t, p, d) && !d.SendCancel?
    ensures t'.agent == t.agent && t'.resumes == t.resumes && t'.cancels == t.cancels && t'.client == t.client
    ensures t'.cancelsAccepted == t.cancelsAccepted
    ensures forall q :: q != p ==>
            (q in t'.closers <==> q in t.closers) && (q in t.closers ==> t'.closers[q] == t.closers[q])
    ensures Pristine(t) ==> Pristine(t')
  {
  }

  lemma StreamTurn(x: Subject, c: State, turn: P.Action, c': State)
    requires Link(x, c) && Enabled(x, c, StreamStep(turn)) && c' == Apply(x, c, StreamStep(turn))
    ensures Link(x, c')
  {
    match turn
    case ByAgent(a) => AgentTurn(c.t, a, c'.t);
    case ByClient(a) => ClientTurn(c.t, a, c'.t);
    case ByCloser(p, d) => CloserTurn(c.t, p, d, c'.t);
  }

  // ---- what the calls do to the link

  lemma QueuedGrows(order: seq<Message>, order': seq<Message>, handled: int, started: Option<nat>, tickets: set<nat>,
                    m: Message)
    requires Queued(order, handled, started, tickets, m) && order <= order'
    ensures Queued(order', handled, started, tickets, m)
  {
  }

  lemma QueuedMore(order: seq<Message>, handled: int, started: Option<nat>, tickets: set<nat>, m: Message)
    requires Queued(order, handled, started, tickets, m) && handled <= |order| && started.Some?
    requires started.value < |order|
    ensures Queued(order + [m], handled, started, tickets + {|order|}, m)
    ensures |tickets + {|order|}| == |tickets| + 1
  {
    assert |order| !in tickets;
  }

  lemma CallsStill(x: Subject, r: R.Reactor, calls: map<Pid, Purpose>, t: P.State, p: Pid, step: R.ProducerAction,
                   r': R.Reactor)
    requires M.WellFormed(r.q.mem) && R.ProducerEnabled(r, p, step) && r' == R.ProducerApply(r, p, step)
    requires Calling(x, r, calls, t) && p !in calls
    ensures Calling(x, r', calls, t)
  {
    R.OthersUnmoved(r, p, step, r');
  }

  /** All of the link but the calls themselves and what is spent or gained. */
  ghost predicate Rest(x: Subject, c: State) {
    && Fated(x, c.r.agent, c.t)
    && Begun(x, c.r.q.order, c.started, c.calls, c.t)
    && Queued(c.r.q.order, R.Handled(c.r.q, c.r.hand), c.started, c.resumes, Resume(x.sub.id))
    && Queued(c.r.q.order, R.Handled(c.r.q, c.r.hand), c.started, c.cancels, Cancel(x.sub.id))
    && Counted(c)
  }

  /** The reactor's side of any producer's step. */
  lemma ProducerRest(x: Subject, c: State, p: Pid, step: R.ProducerAction, r': R.Reactor)
    requires M.WellFormed(c.r.q.mem) && R.ProducerEnabled(c.r, p, step) && r' == R.ProducerApply(c.r, p, step)
    requires Rest(x, c)
    ensures Rest(x, c.(r := r'))
  {
    R.ProducerAgent(c.r, p, step, r');
    OrderEffect(c.r, p, step, r');
    QueuedGrows(c.r.q.order, r'.q.order, R.Handled(c.r.q, c.r.hand), c.started, c.resumes, Resume(x.sub.id));
    QueuedGrows(c.r.q.order, r'.q.order, R.Handled(c.r.q, c.r.hand), c.started, c.cancels, Cancel(x.sub.id));
  }

  /** A step of a thread that is not in a call of this stream. */
  lemma ProducerTurn(x: Subject, c: State, p: Pid, step: R.ProducerAction, r': R.Reactor)
    requires M.WellFormed(c.r.q.mem) && R.ProducerEnabled(c.r, p, step) && r' == R.ProducerApply(c.r, p, step)
    requires Link(x, c) && p !in c.calls
    ensures Link(x, c.(r := r'))
  {
    ProducerRest(x, c, p, step, r');
    CallsStill(x, c.r, c.calls, c.t, p, step, r');
  }

  lemma CallTurn(x: Subject, c: State, p: Pid, purpose: Purpose, r': R.Reactor)
    requires M.WellFormed(c.r.q.mem) && p !in c.r.pcs && MayCall(c, p, purpose) && c.started.Some? && Link(x, c)
    requires r'.pcs == c.r.pcs[p := R.Check(MessageOf(purpose, x.sub.id))] && r'.q == c.r.q
    requires r'.agent == c.r.agent && r'.hand == c.r.hand
    ensures Link(x, c.(r := r', calls := c.calls[p := purpose]))
  {
    assert purpose.Resuming? ==> forall q :: q in c.calls ==> c.calls[q] in c.calls.Values;
  }

  lemma ResumeAnswered(t: P.State, reply: P.Reply, t': P.State)
    requires t.client.Sending? && t' == P.ClientApply(t, P.SendResume(reply))
    ensures t'.agent == t.agent && t'.closers == t.closers && t'.cancels == t.cancels && !Pristine(t)
    ensures t'.resumes == t.resumes + One(reply.Accepted?) && t'.cancelsAccepted == t.cancelsAccepted
  {
  }

  lemma CancelAnswered(t: P.State, p: Pid, reply: P.Reply, t': P.State)
    requires P.CloserEnabled(t, p, P.SendCancel(reply)) && t' == P.CloserApply(t, p, P.SendCancel(reply))
    ensures t'.agent == t.agent && t'.client == t.client && t'.resumes == t.resumes
    ensures t'.cancels == t.cancels + One(reply.Accepted?)
    ensures t'.cancelsAccepted == t.cancelsAccepted + One(reply.Accepted?)
    ensures Pristine(t) ==> Pristine(t')
    ensures forall q :: q != p && q in t.closers ==> q in t'.closers && t'.closers[q] == t.closers[q]
  {
  }

  /** The queue's answer reaches the stream. */
  lemma AnswerTurn(t: P.State, purpose: Purpose, p: Pid, reply: P.Reply, t': P.State)
    requires Waiting(t, p, purpose) && P.Enabled(t, Answer(purpose, p, reply))
    requires t' == P.Apply(t, Answer(purpose, p, reply))
    ensures t'.agent == t.agent
    ensures t'.resumes == t.resumes + One(purpose.Resuming? && reply.Accepted?)
    ensures t'.cancels == t.cancels + One(purpose.Cancelling? && reply.Accepted?)
    ensures Obeyed(t) ==> Obeyed(t')
    ensures purpose.Resuming? ==> !Pristine(t) && t'.closers == t.closers
    ensures purpose.Cancelling? ==> t'.client == t.client && (Pristine(t) ==> Pristine(t'))
    ensures forall q :: q != p && q in t.closers ==> q in t'.closers && t'.closers[q] == t.closers[q]
  {
    if purpose.Resuming? {
      ResumeAnswered(t, reply, t');
    } else {
      CancelAnswered(t, p, reply, t');
    }
  }

  /** The other calls wait where they did. */
  lemma OthersWait(x: Subject, r: R.Reactor, calls: map<Pid, Purpose>, t: P.State, p: Pid, reply: P.Reply, t': P.State)
    requires Calling(x, r, calls, t) && p in calls && Waiting(t, p, calls[p])
    requires P.Enabled(t, Answer(calls[p], p, reply)) && t' == P.Apply(t, Answer(calls[p], p, reply))
    ensures Calling(x, r, calls - {p}, t')
  {
    AnswerTurn(t, calls[p], p, reply, t');
  }

  /** The rest of the link, once the answer is in. */
  lemma AnswerRest(x: Subject, c: State, p: Pid, reply: P.Reply, t': P.State)
    requires Rest(x, c) && p in c.calls && Waiting(c.t, p, c.calls[p])
    requires P.Enabled(c.t, Answer(c.calls[p], p, reply)) && t' == P.Apply(c.t, Answer(c.calls[p], p, reply))
    ensures Fated(x, c.r.agent, t') && Begun(x, c.r.q.order, c.started, c.calls, t') && c.started.Some?
    ensures !reply.Accepted? ==> Rest(x, c.(t := t', calls := c.calls - {p}))
  {
    AnswerTurn(c.t, c.calls[p], p, reply, t');
  }

  /** The message gets its ticket. */
  lemma AcceptTurn(x: Subject, c: State, p: Pid, step: R.ProducerAction, r': R.Reactor, t': P.State, c': State)
    requires M.WellFormed(c.r.q.mem) && R.ProducerEnabled(c.r, p, step) && r' == R.ProducerApply(c.r, p, step)
    requires Link(x, c) && p in c.calls && Accepts(c.r, p, step) && R.Ownership(c.r.q.pcs, c.r.pcs, c.r.owned)
    requires R.Handled(c.r.q, c.r.hand) <= |c.r.q.order|
    requires P.Enabled(c.t, Answer(c.calls[p], p, P.Accepted)) && t' == P.Apply(c.t, Answer(c.calls[p], p, P.Accepted))
    requires c' == c.(r := r', t := t', resumes := c'.resumes, cancels := c'.cancels)
    requires c'.resumes == if c.calls[p].Resuming? then c.resumes + {|c.r.q.order|} else c.resumes
    requires c'.cancels == if c.calls[p].Cancelling? then c.cancels + {|c.r.q.order|} else c.cancels
    ensures Link(x, c')
  {
    var purpose, order, handled := c.calls[p], c.r.q.order, R.Handled(c.r.q, c.r.hand);
    R.ProducerAgent(c.r, p, step, r');
    OrderEffect(c.r, p, step, r');
    OwnTicketed(c.r, p, step, r');
    AnswerTurn(c.t, purpose, p, P.Accepted, t');
    AnswerRest(x, c, p, P.Accepted, t');
    AcceptCalls(x, c, p, step, r', t');
    AcceptQueues(x, purpose, order, handled, c.started, c.resumes, c.cancels, c'.resumes, c'.cancels);
  }

  lemma AcceptQueues(x: Subject, purpose: Purpose, order: seq<Message>, handled: int, started: Option<nat>,
                     resumes: set<nat>, cancels: set<nat>, resumes': set<nat>, cancels': set<nat>)
    requires Queued(order, handled, started, resumes, Resume(x.sub.id))
    requires Queued(order, handled, started, cancels, Cancel(x.sub.id))
    requires handled <= |order| && started.Some? && started.value < |order|
    requires resumes' == if purpose.Resuming? then resumes + {|order|} else resumes
    requires cancels' == if purpose.Cancelling? then cancels + {|order|} else cancels
    ensures var order' := order + [MessageOf(purpose, x.sub.id)];
            && Queued(order', handled, started, resumes', Resume(x.sub.id))
            && Queued(order', handled, started, cancels', Cancel(x.sub.id))
    ensures |resumes'| == |resumes| + One(purpose.Resuming?) && |cancels'| == |cancels| + One(purpose.Cancelling?)
  {
    var order' := order + [MessageOf(purpose, x.sub.id)];
    if purpose.Resuming? {
      QueuedMore(order, handled, started, resumes, Resume(x.sub.id));
      QueuedGrows(order, order', handled, started, cancels, Cancel(x.sub.id));
    } else {
      QueuedMore(order, handled, started, cancels, Cancel(x.sub.id));
      QueuedGrows(order, order', handled, started, resumes, Resume(x.sub.id));
    }
  }

  lemma AcceptCalls(x: Subject, c: State, p: Pid, step: R.ProducerAction, r': R.Reactor, t': P.State)
    requires M.WellFormed(c.r.q.mem) && R.ProducerEnabled(c.r, p, step) && r' == R.ProducerApply(c.r, p, step)
    requires Calling(x, c.r, c.calls, c.t) && p in c.calls && Accepts(c.r, p, step)
    requires R.Ownership(c.r.q.pcs, c.r.pcs, c.r.owned)
    requires P.Enabled(c.t, Answer(c.calls[p], p, P.Accepted)) && t' == P.Apply(c.t, Answer(c.calls[p], p, P.Accepted))
    ensures Calling(x, r', c.calls, t') && Waiting(c.t, p, c.calls[p])
  {
    OwnTicketed(c.r, p, step, r');
    OthersWait(x, c.r, c.calls, c.t, p, P.Accepted, t');
    CallsStill(x, c.r, c.calls - {p}, t', p, step, r');
  }

  /** The call returns without having been accepted. */
  lemma RefuseTurn(x: Subject, c: State, p: Pid, step: R.ProducerAction, r': R.Reactor, reply: P.Reply, t': P.State)
    requires M.WellFormed(c.r.q.mem) && R.ProducerEnabled(c.r, p, step) && r' == R.ProducerApply(c.r, p, step)
    requires Link(x, c) && p in c.calls && !Ticketed(c.r, p) && !reply.Accepted?
    requires P.Enabled(c.t, Answer(c.calls[p], p, reply)) && t' == P.Apply(c.t, Answer(c.calls[p], p, reply))
    ensures Link(x, c.(r := r', t := t', calls := c.calls - {p}))
  {
    AnswerRest(x, c, p, reply, t');
    ProducerRest(x, c.(t := t', calls := c.calls - {p}), p, step, r');
    OthersWait(x, c.r, c.calls, c.t, p, reply, t');
    CallsStill(x, c.r, c.calls - {p}, t', p, step, r');
  }

  lemma CallGoesOn(x: Subject, r: R.Reactor, r': R.Reactor, calls: map<Pid, Purpose>, t: P.State, p: Pid)
    requires Calling(x, r, calls, t) && p in calls && Calling(x, r', calls - {p}, t)
    requires p in r'.pcs && Continues(p, r, r', false)
    ensures Calling(x, r', calls, t)
  {
  }

  lemma ProceedCalls(x: Subject, c: State, p: Pid, step: R.ProducerAction, r': R.Reactor, calls': map<Pid, Purpose>)
    requires M.WellFormed(c.r.q.mem) && R.ProducerEnabled(c.r, p, step) && r' == R.ProducerApply(c.r, p, step)
    requires Calling(x, c.r, c.calls, c.t) && p in c.calls && !Accepts(c.r, p, step)
    requires R.Ownership(c.r.q.pcs, c.r.pcs, c.r.owned)
    requires calls' == if p in r'.pcs then c.calls else c.calls - {p}
    ensures Calling(x, r', calls', c.t)
  {
    var others := c.calls - {p};
    OwnTicketed(c.r, p, step, r');
    assert Calling(x, c.r, others, c.t);
    CallsStill(x, c.r, others, c.t, p, step, r');
    if p in r'.pcs {
      CallGoesOn(x, c.r, r', c.calls, c.t, p);
    }
  }

  /** Any other step of the call. */
  lemma ProceedTurn(x: Subject, c: State, p: Pid, step: R.ProducerAction, r': R.Reactor, calls': map<Pid, Purpose>)
    requires M.WellFormed(c.r.q.mem) && R.ProducerEnabled(c.r, p, step) && r' == R.ProducerApply(c.r, p, step)
    requires Link(x, c) && p in c.calls && !Accepts(c.r, p, step) && R.Ownership(c.r.q.pcs, c.r.pcs, c.r.owned)
    requires calls' == if p in r'.pcs then c.calls else c.calls - {p}
    ensures Link(x, c.(r := r', calls := calls'))
  {
    ProceedCalls(x, c, p, step, r', calls');
    ProducerRest(x, c, p, step, r');
  }

  // ---- what the agent's steps do to the link

  /** The stream after the settling step, if this is one. */
  lemma SettleTurn(x: Subject, a: Dispatch.Agent, t: P.State, a': Dispatch.Agent, t1: P.State)
    requires Fated(x, a, t) && Onward(a, a', x.stream) && AgentFree(x, t, a, a')
    requires IsRegistered(a, x.sub) && !IsRegistered(a', x.sub) ==> Finishes(x, a, a')
    requires t1 == if Finishes(x, a, a') then P.AgentApply(t, P.CompleteStream) else t
    ensures t1.resumes == t.resumes && t1.cancels == t.cancels && t1.client == t.client && t1.closers == t.closers
    ensures Obeyed(t) ==> Obeyed(t1)
    ensures t1.agent.Ended? <==> t.agent.Ended? || Finishes(x, a, a')
    ensures Fated(x, a', t1)
  {
  }

  lemma Spent(order: seq<Message>, handled: int, started: Option<nat>, tickets: set<nat>, m: Message)
    requires Queued(order, handled, started, tickets, m) && 0 <= handled
    ensures Queued(order, handled + 1, started, tickets - {handled}, m)
    ensures |tickets - {handled}| == |tickets| - One(handled in tickets)
  {
  }

  /** What handling a control message can mean for the stream. */
  lemma ControlTurn(t: P.State, a: P.AgentAction, t': P.State)
    requires P.AgentEnabled(t, a) && t' == P.AgentApply(t, a)
    requires a.DropControl? || a.OtherResume? || (a.HandleResume? && a.ok)
    ensures t'.resumes == t.resumes - One(a.HandleResume? || (a.DropControl? && a.resume))
    ensures t'.cancels == t.cancels - One(a.DropControl? && !a.resume)
    ensures t'.client == t.client && t'.closers == t.closers && (t'.agent.Ended? <==> t.agent.Ended?)
    ensures (Obeyed(t) ==> Obeyed(t')) && (Pristine(t) ==> Pristine(t'))
  {
  }

  /** A message that concerns the stream has its effect. */
  lemma MessageTurn(x: Subject, c: State, act: R.AgentAction, r': R.Reactor, t1: P.State, t': P.State)
    requires R.Handles(act) && 0 <= R.Handled(c.r.q, c.r.hand) && Counted(c)
    requires Fated(x, r'.agent, t1) && t1.resumes == c.t.resumes && t1.cancels == c.t.cancels
    requires t1.client == c.t.client && t1.closers == c.t.closers && Obeyed(t1)
    requires t1.agent.Ended? <==> c.t.agent.Ended? || Finishes(x, c.r.agent, r'.agent)
    requires IsRegistered(c.r.agent, x.sub) ==> IsRegistered(r'.agent, x.sub) || t1.agent.Ended?
    requires var second := AgentEffect(x, c, act, r').second; CanTake(t1, second) && t' == Take(t1, second)
    requires c.resumes !! c.cancels
    ensures var n := R.Handled(c.r.q, c.r.hand);
            t'.resumes == t1.resumes - One(n in c.resumes) && t'.cancels == t1.cancels - One(n in c.cancels)
    ensures t'.client == t1.client && t'.closers == t1.closers && Fated(x, r'.agent, t') && Obeyed(t')
  {
    var second := AgentEffect(x, c, act, r').second;
    if second.Some? {
      ControlTurn(t1, second.value.a, t');
    }
  }

  lemma Separate(order: seq<Message>, handled: int, started: Option<nat>, resumes: set<nat>, cancels: set<nat>, id: nat)
    requires Queued(order, handled, started, resumes, Resume(id))
    requires Queued(order, handled, started, cancels, Cancel(id))
    ensures resumes !! cancels
  {
  }

  /** What the reactor's invariant says about one step of the agent. */
  lemma AgentFacts(x: Subject, r: R.Reactor, act: R.AgentAction, r': R.Reactor)
    requires R.Inv(r) && R.Inv(r') && IsSubject(x) && R.AgentEnabled(r, act) && r' == R.AgentApply(r, act)
    ensures 0 <= R.Handled(r.q, r.hand) && R.Handled(r'.q, r'.hand) == R.Handled(r.q, r.hand) + One(R.Handles(act))
    ensures r'.q.order == r.q.order && r'.pcs == r.pcs && r'.q.pcs == r.q.pcs
    ensures Onward(r.agent, r'.agent, x.stream)
    ensures IsRegistered(r.agent, x.sub) && !IsRegistered(r'.agent, x.sub) ==> Finishes(x, r.agent, r'.agent)
  {
    R.AgentHandles(r, act, r');
    AgentOnward(r, act, r', x.stream);
    if IsRegistered(r.agent, x.sub) && !IsRegistered(r'.agent, x.sub) {
      LeavesSettled(x, r, act, r');
    }
  }

  /** The agent's effect on the stream, which its two parts make up. */
  lemma EffectTurn(x: Subject, c: State, act: R.AgentAction, r': R.Reactor, t': P.State)
    requires Link(x, c) && Onward(c.r.agent, r'.agent, x.stream) && 0 <= R.Handled(c.r.q, c.r.hand)
    requires IsRegistered(c.r.agent, x.sub) && !IsRegistered(r'.agent, x.sub) ==> Finishes(x, c.r.agent, r'.agent)
    requires AgentFree(x, c.t, c.r.agent, r'.agent)
    requires Possible(c.t, AgentEffect(x, c, act, r')) && t' == After(c.t, AgentEffect(x, c, act, r'))
    ensures var n := R.Handled(c.r.q, c.r.hand);
            && t'.resumes == c.t.resumes - One(R.Handles(act) && n in c.resumes)
            && t'.cancels == c.t.cancels - One(R.Handles(act) && n in c.cancels)
    ensures t'.client == c.t.client && t'.closers == c.t.closers && Fated(x, r'.agent, t') && Obeyed(t')
  {
    var t1 := Take(c.t, AgentEffect(x, c, act, r').first);
    SettleTurn(x, c.r.agent, c.t, r'.agent, t1);
    Separate(c.r.q.order, R.Handled(c.r.q, c.r.hand), c.started, c.resumes, c.cancels, x.sub.id);
    if R.Handles(act) {
      MessageTurn(x, c, act, r', t1, t');
    }
  }

  lemma CallingSame(x: Subject, r: R.Reactor, r': R.Reactor, calls: map<Pid, Purpose>, t: P.State, t': P.State)
    requires Calling(x, r, calls, t) && r'.pcs == r.pcs && r'.q.pcs == r.q.pcs
    requires t'.client == t.client && t'.closers == t.closers
    ensures Calling(x, r', calls, t')
  {
  }

  lemma SpendTurn(x: Subject, c: State, act: R.AgentAction, r': R.Reactor, t': P.State, c': State)
    requires Link(x, c) && r'.q.order == c.r.q.order && r'.pcs == c.r.pcs && r'.q.pcs == c.r.q.pcs
    requires var n := R.Handled(c.r.q, c.r.hand);
             && 0 <= n && R.Handled(r'.q, r'.hand) == n + One(R.Handles(act))
             && t'.resumes == c.t.resumes - One(R.Handles(act) && n in c.resumes)
             && t'.cancels == c.t.cancels - One(R.Handles(act) && n in c.cancels)
    requires t'.client == c.t.client && t'.closers == c.t.closers && Fated(x, r'.agent, t') && Obeyed(t')
    requires var spent := if R.Handles(act) then {R.Handled(c.r.q, c.r.hand)} else {};
             c' == State(r', t', c.started, c.calls, c.resumes - spent, c.cancels - spent)
    ensures Link(x, c')
  {
    CallingSame(x, c.r, r', c.calls, c.t, t');
    Spent(c.r.q.order, R.Handled(c.r.q, c.r.hand), c.started, c.resumes, Resume(x.sub.id));
    Spent(c.r.q.order, R.Handled(c.r.q, c.r.hand), c.started, c.cancels, Cancel(x.sub.id));
  }

  // ---- every step

  lemma TakeKeeps(t: P.State, a: Option<P.Action>)
    requires P.Inv(t) && CanTake(t, a)
    ensures P.Inv(Take(t, a))
  {
    if a.Some? {
      P.StepKeepsInv(t, a.value, P.Apply(t, a.value));
    }
  }

  lemma EffectKeeps(t: P.State, e: Effect)
    requires P.Inv(t) && Possible(t, e)
    ensures P.Inv(After(t, e))
  {
    TakeKeeps(t, e.first);
    TakeKeeps(Take(t, e.first), e.second);
  }

  lemma StartedKeepsInv(x: Subject, c: State, ticket: nat)
    requires Inv(x, c) && Enabled(x, c, Started(ticket))
    ensures Inv(x, c.(started := Some(ticket)))
  {
    assert R.IsTicketOf(c.r.q.order, ticket, c.r.accepted[ticket]);
  }

  lemma ProducerKeepsInv(x: Subject, c: State, p: Pid, step: R.ProducerAction)
    requires Inv(x, c) && Enabled(x, c, Producer(p, step))
    ensures Inv(x, Apply(x, c, Producer(p, step)))
  {
    R.ProducerKeepsInv(c.r, p, step);
    ProducerTurn(x, c, p, step, R.ProducerApply(c.r, p, step));
  }

  lemma CallKeepsInv(x: Subject, c: State, p: Pid, purpose: Purpose)
    requires Inv(x, c) && Enabled(x, c, Call(p, purpose))
    ensures Inv(x, Apply(x, c, Call(p, purpose)))
  {
    var step := R.Begin(MessageOf(purpose, x.sub.id));
    R.ProducerKeepsInv(c.r, p, step);
    CallTurn(x, c, p, purpose, R.ProducerApply(c.r, p, step));
  }

  lemma HandledInOrder(r: R.Reactor)
    requires R.Served(r)
    ensures R.Handled(r.q, r.hand) <= |r.q.order|
  {
  }

  lemma CallStepKeepsInv(x: Subject, c: State, p: Pid, step: R.ProducerAction)
    requires Inv(x, c) && Enabled(x, c, CallStep(p, step))
    ensures Inv(x, AfterCallStep(x, c, p, step))
  {
    var r' := R.ProducerApply(c.r, p, step);
    R.ProducerKeepsInv(c.r, p, step);
    EffectKeeps(c.t, CallEffect(c.r, r', p, c.calls[p], step));
    HandledInOrder(c.r);
    CallStepLink(x, c, p, step, r', AfterCallStep(x, c, p, step));
  }

  lemma CallStepLink(x: Subject, c: State, p: Pid, step: R.ProducerAction, r': R.Reactor, c': State)
    requires M.WellFormed(c.r.q.mem) && R.ProducerEnabled(c.r, p, step) && r' == R.ProducerApply(c.r, p, step)
    requires R.Ownership(c.r.q.pcs, c.r.pcs, c.r.owned) && R.Handled(c.r.q, c.r.hand) <= |c.r.q.order|
    requires Link(x, c) && p in c.calls && Possible(c.t, CallEffect(c.r, r', p, c.calls[p], step))
    requires c' == CallResult(c, p, step, r')
    ensures Link(x, c')
  {
    if Accepts(c.r, p, step) {
      AcceptLink(x, c, p, step, r', c');
    } else if p !in r'.pcs && !Ticketed(c.r, p) {
      RefuseLink(x, c, p, step, r', c');
    } else {
      ProceedLink(x, c, p, step, r', c');
    }
  }

  lemma AcceptLink(x: Subject, c: State, p: Pid, step: R.ProducerAction, r': R.Reactor, c': State)
    requires M.WellFormed(c.r.q.mem) && R.ProducerEnabled(c.r, p, step) && r' == R.ProducerApply(c.r, p, step)
    requires R.Ownership(c.r.q.pcs, c.r.pcs, c.r.owned) && R.Handled(c.r.q, c.r.hand) <= |c.r.q.order|
    requires Link(x, c) && p in c.calls && Possible(c.t, CallEffect(c.r, r', p, c.calls[p], step))
    requires c' == CallResult(c, p, step, r') && Accepts(c.r, p, step)
    ensures Link(x, c')
  {
    OwnTicketed(c.r, p, step, r');
    AcceptTurn(x, c, p, step, r', c'.t, c');
  }

  lemma RefuseLink(x: Subject, c: State, p: Pid, step: R.ProducerAction, r': R.Reactor, c': State)
    requires M.WellFormed(c.r.q.mem) && R.ProducerEnabled(c.r, p, step) && r' == R.ProducerApply(c.r, p, step)
    requires R.Ownership(c.r.q.pcs, c.r.pcs, c.r.owned) && R.Handled(c.r.q, c.r.hand) <= |c.r.q.order|
    requires Link(x, c) && p in c.calls && Possible(c.t, CallEffect(c.r, r', p, c.calls[p], step))
    requires c' == CallResult(c, p, step, r') && !Accepts(c.r, p, step) && p !in r'.pcs && !Ticketed(c.r, p)
    ensures Link(x, c')
  {
    RefusedResult(c, p, step, r', c');
    RefuseTurn(x, c, p, step, r', Refusal(c.r, step), c'.t);
  }

  lemma RefusedResult(c: State, p: Pid, step: R.ProducerAction, r': R.Reactor, c': State)
    requires p in c.calls && Possible(c.t, CallEffect(c.r, r', p, c.calls[p], step)) && c' == CallResult(c, p, step, r')
    requires !Accepts(c.r, p, step) && p !in r'.pcs && !Ticketed(c.r, p)
    ensures var answer := Answer(c.calls[p], p, Refusal(c.r, step));
            P.Enabled(c.t, answer) && c' == c.(r := r', t := P.Apply(c.t, answer), calls := c.calls - {p})
  {
  }

  lemma ProceedLink(x: Subject, c: State, p: Pid, step: R.ProducerAction, r': R.Reactor, c': State)
    requires M.WellFormed(c.r.q.mem) && R.ProducerEnabled(c.r, p, step) && r' == R.ProducerApply(c.r, p, step)
    requires R.Ownership(c.r.q.pcs, c.r.pcs, c.r.owned) && R.Handled(c.r.q, c.r.hand) <= |c.r.q.order|
    requires Link(x, c) && p in c.calls && Possible(c.t, CallEffect(c.r, r', p, c.calls[p], step))
    requires c' == CallResult(c, p, step, r') && !Accepts(c.r, p, step) && (p in r'.pcs || Ticketed(c.r, p))
    ensures Link(x, c')
  {
    ProceedTurn(x, c, p, step, r', c'.calls);
  }

  lemma AgentKeepsInv(x: Subject, c: State, act: R.AgentAction)
    requires IsSubject(x) && Inv(x, c) && Enabled(x, c, AgentStep(act))
    ensures Inv(x, AfterAgentStep(x, c, act))
  {
    var r', c' := R.AgentApply(c.r, act), AfterAgentStep(x, c, act);
    R.AgentKeepsInv(c.r, act);
    EffectKeeps(c.t, AgentEffect(x, c, act, r'));
    AgentFacts(x, c.r, act, r');
    EffectTurn(x, c, act, r', c'.t);
    SpendTurn(x, c, act, r', c'.t, c');
  }

  lemma StreamKeepsInv(x: Subject, c: State, turn: P.Action)
    requires Inv(x, c) && Enabled(x, c, StreamStep(turn))
    ensures Inv(x, Apply(x, c, StreamStep(turn)))
  {
    P.StepKeepsInv(c.t, turn, P.Apply(c.t, turn));
    StreamTurn(x, c, turn, Apply(x, c, StreamStep(turn)));
  }

  lemma StepKeepsInv(x: Subject, c: State, a: Action)
    requires IsSubject(x) && Inv(x, c) && Enabled(x, c, a)
    ensures Inv(x, Apply(x, c, a))
  {
    match a
    case Started(ticket) => StartedKeepsInv(x, c, ticket);
    case Producer(p, step) => ProducerKeepsInv(x, c, p, step);
    case Call(p, purpose) => CallKeepsInv(x, c, p, purpose);
    case CallStep(p, step) => CallStepKeepsInv(x, c, p, step);
    case AgentStep(act) => AgentKeepsInv(x, c, act);
    case StreamStep(turn) => StreamKeepsInv(x, c, turn);
  }

  // ---- runs

  ghost predicate Step(x: Subject, c: State, a: Action, c': State) {
    Enabled(x, c, a) && c' == Apply(x, c, a)
  }

  ghost predicate StepAt(x: Subject, run: seq<State>, acts: seq<Action>, i: nat)
    requires i < |acts| && |run| == |acts| + 1
  {
    Step(x, run[i], acts[i], run[i + 1])
  }

  /** Any interleaving of the agent, libcurl, the stream's clients and any number of other producers. */
  ghost predicate IsRun(x: Subject, run: seq<State>, acts: seq<Action>) {
    && IsSubject(x) && |run| == |acts| + 1
    && (exists capacity, kind, chunks ::
        M.CapacityAccepted(capacity) && chunks > 0 && run[0] == Start(capacity, kind, chunks))
    && forall i :: 0 <= i < |acts| ==> StepAt(x, run, acts, i)
  }

  lemma StepOfRun(x: Subject, run: seq<State>, acts: seq<Action>, k: nat, i: nat)
    requires IsRun(x, run, acts) && i == k + 1 < |run|
    ensures Step(x, run[k], acts[k], run[i])
  {
    assert StepAt(x, run, acts, k);
  }

  lemma {:induction false} RunKeepsInv(x: Subject, run: seq<State>, acts: seq<Action>, i: nat)
    requires IsRun(x, run, acts) && i < |run|
    ensures Inv(x, run[i])
  {
    if i == 0 {
      var capacity, kind, chunks :| M.CapacityAccepted(capacity) && chunks > 0
        && run[0] == Start(capacity, kind, chunks);
      StartInv(x, capacity, kind, chunks);
    } else {
      var k := i - 1;
      RunKeepsInv(x, run, acts, k);
      StepOfRun(x, run, acts, k, i);
      StepKeepsInv(x, run[k], acts[k]);
    }
  }

  // ---- nothing is held up by the coupling

  lemma CallPossible(x: Subject, r: R.Reactor, calls: map<Pid, Purpose>, t: P.State, p: Pid, step: R.ProducerAction,
                     r': R.Reactor)
    requires R.Ownership(r.q.pcs, r.pcs, r.owned) && M.WellFormed(r.q.mem)
    requires R.ProducerEnabled(r, p, step) && r' == R.ProducerApply(r, p, step)
    requires Calling(x, r, calls, t) && p in calls
    ensures Possible(t, CallEffect(r, r', p, calls[p], step))
  {
    OwnTicketed(r, p, step, r');
  }

  lemma RingIsFormed(r: R.Reactor)
    requires R.Inv(r)
    ensures M.WellFormed(r.q.mem)
  {
  }

  /** Whatever the queue does with a call of the stream, the stream protocol is ready for the answer. */
  lemma CallNeverBlocked(x: Subject, c: State, p: Pid, step: R.ProducerAction)
    requires Inv(x, c) && p in c.calls && R.ProducerEnabled(c.r, p, step)
    ensures Enabled(x, c, CallStep(p, step))
  {
    RingIsFormed(c.r);
    CallPossible(x, c.r, c.calls, c.t, p, step, R.ProducerApply(c.r, p, step));
  }

  /** The message in hand is the first unhandled one. */
  lemma HandMessage(r: R.Reactor, act: R.AgentAction)
    requires R.Served(r) && R.Handles(act) && R.AgentEnabled(r, act)
    ensures 0 <= R.Handled(r.q, r.hand) < |r.q.order| && r.hand.Some?
    ensures r.hand.value == r.q.order[R.Handled(r.q, r.hand)]
    ensures act.DrainMessage? ==> r.agent.registry == map[]
  {
  }

  /** A transfer whose EXECUTE has been handled either has been settled, or is registered and the step settles it or
      leaves it registered. */
  lemma StepFate(x: Subject, c: State, act: R.AgentAction, r': R.Reactor)
    requires IsSubject(x) && Inv(x, c) && M.WellFormed(c.r.q.mem) && R.AgentEnabled(c.r, act)
    requires r' == R.AgentApply(c.r, act)
    requires c.started.Some? && c.started.value < R.Handled(c.r.q, c.r.hand)
    ensures c.t.agent.Ended? || Finishes(x, c.r.agent, r'.agent)
            || (IsRegistered(c.r.agent, x.sub) && c.r.agent.registry[x.sub.id].active && IsRegistered(r'.agent, x.sub))
  {
    HandledFate(x, c.r, c.started.value);
    if IsRegistered(c.r.agent, x.sub) {
      RegisteredUnsettled(x, c.r);
      R.AgentKeepsInv(c.r, act);
      AgentFacts(x, c.r, act, r');
    }
  }

  /** Handling a CANCEL leaves no transfer under its ID; nor does handling a RESUME that curl_easy_pause refuses. */
  lemma Removes(a: Dispatch.Agent, id: nat, s: Setup, pauseCode: int, c: Cancelled)
    ensures id !in AfterMessage(a, Cancel(id), s, pauseCode, c).registry
    ensures pauseCode != CURLE_OK && id in a.registry && a.registry[id].active ==>
            id !in AfterMessage(a, Resume(id), s, pauseCode, c).registry
  {
  }

  lemma HandledAgent(r: R.Reactor, act: R.AgentAction, r': R.Reactor)
    requires M.WellFormed(r.q.mem) && act.HandleMessage? && R.AgentEnabled(r, act) && r' == R.AgentApply(r, act)
    ensures r'.agent == AfterMessage(r.agent, r.hand.value, act.setup, act.pauseCode, act.c)
  {
  }

  /** The stream's CANCEL comes behind its EXECUTE, so it finds the transfer registered and settles it, or settled. */
  lemma CancelFindsTransfer(x: Subject, c: State, act: R.AgentAction, r': R.Reactor)
    requires IsSubject(x) && Inv(x, c) && M.WellFormed(c.r.q.mem) && R.AgentEnabled(c.r, act)
    requires r' == R.AgentApply(c.r, act)
    requires R.Handles(act) && R.Handled(c.r.q, c.r.hand) in c.cancels
    ensures Finishes(x, c.r.agent, r'.agent) || c.t.agent.Ended?
  {
    HandMessage(c.r, act);
    StepFate(x, c, act, r');
    if act.HandleMessage? {
      HandledAgent(c.r, act, r');
      Removes(c.r.agent, x.sub.id, act.setup, act.pauseCode, act.c);
    }
  }

  lemma EffectPossible(x: Subject, c: State, act: R.AgentAction, r': R.Reactor)
    requires Link(x, c) && AgentFree(x, c.t, c.r.agent, r'.agent) && R.AgentEnabled(c.r, act)
    requires R.Handles(act) && R.Handled(c.r.q, c.r.hand) in c.cancels ==>
             Finishes(x, c.r.agent, r'.agent) || c.t.agent.Ended?
    ensures Possible(c.t, AgentEffect(x, c, act, r'))
  {
    if R.Handles(act) && R.Handled(c.r.q, c.r.hand) in c.resumes {
      assert c.t.resumes > 0;
    }
    if R.Handles(act) && R.Handled(c.r.q, c.r.hand) in c.cancels {
      assert c.t.cancels > 0;
    }
  }

  /** Outside the settling of the transfer, the agent never waits for the stream. */
  lemma AgentNeverBlocked(x: Subject, c: State, act: R.AgentAction)
    requires IsSubject(x) && Inv(x, c) && R.AgentEnabled(c.r, act) && M.WellFormed(c.r.q.mem)
    requires AgentFree(x, c.t, c.r.agent, R.AgentApply(c.r, act).agent)
    ensures Enabled(x, c, AgentStep(act))
  {
    var r' := R.AgentApply(c.r, act);
    if R.Handles(act) && R.Handled(c.r.q, c.r.hand) in c.cancels {
      CancelFindsTransfer(x, c, act, r');
    }
    EffectPossible(x, c, act, r');
  }

  lemma EffectEnds(x: Subject, c: State, act: R.AgentAction, r': R.Reactor)
    requires Possible(c.t, AgentEffect(x, c, act, r')) && R.Handles(act) && R.Handled(c.r.q, c.r.hand) in c.resumes
    ensures var t' := After(c.t, AgentEffect(x, c, act, r'));
            if c.t.agent.Ended? || Finishes(x, c.r.agent, r'.agent) then t'.agent.Ended? else !t'.curlPaused
  {
  }

  /** A RESUME of the stream that leaves the transfer running has reached libcurl: the transfer was registered and
      active, and curl_easy_pause succeeded. */
  lemma ResumeReachesCurl(x: Subject, c: State, act: R.AgentAction, c': State)
    requires IsSubject(x) && Inv(x, c) && Enabled(x, c, AgentStep(act)) && c' == AfterAgentStep(x, c, act)
    requires R.Handles(act)
    requires R.Handled(c.r.q, c.r.hand) in c.resumes && !c'.t.agent.Ended?
    ensures act.HandleMessage? && act.pauseCode == CURLE_OK && !c'.t.curlPaused
    ensures IsRegistered(c.r.agent, x.sub) && c.r.agent.registry[x.sub.id].active
  {
    var r' := R.AgentApply(c.r, act);
    HandMessage(c.r, act);
    EffectEnds(x, c, act, r');
    StepFate(x, c, act, r');
    if act.HandleMessage? {
      HandledAgent(c.r, act, r');
      Removes(c.r.agent, x.sub.id, act.setup, act.pauseCode, act.c);
    }
  }

  // ---- what the two promise together

  /** A RESUME of the transfer is in the queue, ahead of the agent, and the transfer is registered and active. */
  ghost predicate ResumeQueued(x: Subject, c: State) {
    && (exists u: nat :: R.Handled(c.r.q, c.r.hand) <= u < |c.r.q.order| && c.r.q.order[u] == Resume(x.sub.id))
    && IsRegistered(c.r.agent, x.sub) && c.r.agent.registry[x.sub.id].active
  }

  lemma TokenIsQueued(x: Subject, c: State)
    requires IsSubject(x) && Inv(x, c) && P.Stopped(c.t) && c.t.resumes > 0
    ensures ResumeQueued(x, c)
  {
    var u :| u in c.resumes;
    assert R.Handled(c.r.q, c.r.hand) <= u < |c.r.q.order| && c.r.q.order[u] == Resume(x.sub.id);
    RegisteredUnsettled(x, c.r);
  }

  /** What the stream protocol says about a stopped stream's tokens. */
  lemma StoppedTokens(t: P.State)
    requires P.Flow(t) && P.Stopped(t)
    ensures t.s.Live() && !t.s.paused && !P.Holds(t.client) ==> t.resumes > 0
    ensures t.s.readWaiter.Some? ==> t.resumes > 0
    ensures t.s.writeWaiter.Some? ==> t.resumes == t.waitedResumes
    ensures t.s.writeWaiter.Some? && (!t.abandoned || !t.waitedPaused) ==> t.resumes > 0
  {
  }

  /** No lost resume, through the real queue: while libcurl's side of a live stream is stopped or about to be, with
      the pause flag clear and no flusher between taking it and its answer, a RESUME of the transfer is in the
      reactor's queue ahead of the agent, and the transfer is registered and active. */
  lemma NoLostResume(x: Subject, run: seq<State>, acts: seq<Action>, i: nat)
    requires IsRun(x, run, acts) && i < |run|
    requires var t := run[i].t; t.s.Live() && P.Stopped(t) && !t.s.paused && !P.Holds(t.client)
    ensures ResumeQueued(x, run[i])
  {
    RunKeepsInv(x, run, acts, i);
    StoppedTokens(run[i].t);
    TokenIsQueued(x, run[i]);
  }

  /** In particular behind every registered reader of a stopped stream. */
  lemma ReaderHasQueuedResume(x: Subject, run: seq<State>, acts: seq<Action>, i: nat)
    requires IsRun(x, run, acts) && i < |run| && run[i].t.s.readWaiter.Some? && P.Stopped(run[i].t)
    ensures ResumeQueued(x, run[i])
  {
    RunKeepsInv(x, run, acts, i);
    StoppedTokens(run[i].t);
    TokenIsQueued(x, run[i]);
  }

  /** Behind a registered writer of a stopped stream, the stream's own RESUME is there if and only if one was when the
      writer registered; and it was if the pause flag was clear or the writer had abandoned no flush loop. */
  lemma WriterHasQueuedResume(x: Subject, run: seq<State>, acts: seq<Action>, i: nat)
    requires IsRun(x, run, acts) && i < |run| && run[i].t.s.writeWaiter.Some? && P.Stopped(run[i].t)
    ensures run[i].resumes != {} <==> run[i].t.waitedResumes > 0
    ensures run[i].resumes != {} ==> ResumeQueued(x, run[i])
    ensures !run[i].t.abandoned || !run[i].t.waitedPaused ==> run[i].t.waitedResumes > 0
  {
    RunKeepsInv(x, run, acts, i);
    StoppedTokens(run[i].t);
    if run[i].t.resumes > 0 {
      TokenIsQueued(x, run[i]);
    }
  }

  /** And behind every read that made room, write that brought bytes, and finish, once the call is over: a live stream
      that could go on but is stopped, with nobody flushing and no flush loop abandoned, has its RESUME in the
      queue. */
  lemma NobodyForgets(x: Subject, run: seq<State>, acts: seq<Action>, i: nat)
    requires IsRun(x, run, acts) && i < |run| && !run[i].t.abandoned
    requires run[i].t.s.Live() && P.Stopped(run[i].t) && A.CouldGoOn(run[i].t.s)
    requires !run[i].t.client.Flushing? && !P.Holds(run[i].t.client)
    ensures ResumeQueued(x, run[i])
  {
    RunKeepsInv(x, run, acts, i);
    A.SomebodyIsAtIt(run[i].t);
    TokenIsQueued(x, run[i]);
  }

  /** Cancelling works: once the stream's accepted CANCEL is no longer in the queue, the transfer is settled and the
      stream has its terminal code. */
  lemma CancelEndsStream(x: Subject, run: seq<State>, acts: seq<Action>, i: nat)
    requires IsRun(x, run, acts) && i < |run| && run[i].t.cancelsAccepted > 0
    ensures run[i].cancels != {} || (run[i].t.agent.Ended? && run[i].t.s.terminal.Some?
                                     && x.stream in run[i].r.agent.ledger.finished)
    ensures forall u :: u in run[i].cancels ==>
              R.Handled(run[i].r.q, run[i].r.hand) <= u < |run[i].r.q.order| && run[i].r.q.order[u] == Cancel(x.sub.id)
  {
    RunKeepsInv(x, run, acts, i);
  }

  /** Once shutdown is over, every stream of an accepted EXECUTE has its terminal code, and nobody is left waiting on
      it. */
  lemma ShutdownEndsStream(x: Subject, run: seq<State>, acts: seq<Action>, i: nat)
    requires IsRun(x, run, acts) && i < |run| && run[i].r.apc.Down? && run[i].started.Some?
    ensures run[i].t.agent.Ended? && run[i].t.s.terminal.Some?
    ensures run[i].t.s.readWaiter.None? && run[i].t.s.writeWaiter.None?
  {
    RunKeepsInv(x, run, acts, i);
    R.DownIsDone(run[i].r);
    assert DoneOnce(run[i].r.agent.ledger, run[i].r.q.order[run[i].started.value].payload);
  }
}

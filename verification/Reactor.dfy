/** The reactor control plane: any number of producers, the sender's admission word, the queue and the agent. */
module Reactor {
  import opened Completion
  import opened Counting
  import opened Dispatch
  import opened Messages
  import opened Mpsc
  import opened Words

  // ---- the sender's packed word

  const SENDER_CLOSED_BIT: nat := 0x8000_0000_0000_0000
  const SENDER_PRODUCER_MASK: nat := 0x7fff_ffff_ffff_ffff

  predicate Closed(word: nat) {
    word >= SENDER_CLOSED_BIT
  }

  function Producers(word: nat): nat {
    if word >= SENDER_CLOSED_BIT then word - SENDER_CLOSED_BIT else word
  }

  /** Program counter of a thread in enqueue_outer_message. */
  datatype Pc =
    | Check(msg: Message)            // about to read the closed bit
    | Load(msg: Message)             // message allocated, about to load the word
    | Cas(msg: Message, seen: nat)   // about to test the loaded word and try the exchange
    | Inside(msg: Message)           // in mpscq_enqueue
    | Notify(msg: Message, ticket: nat)           // published, about to call uv_async_send
    | Leave(msg: Message, outcome: Option<nat>)   // about to decrement the word
    | Signal(msg: Message, outcome: Option<nat>)  // last leaver of a closed sender, about to signal the closer

  predicate IsInside(pc: Pc) {
    pc.Inside? || pc.Notify? || pc.Leave?
  }

  /** The agent thread. The four closing states are message_sender_close. */
  datatype AgentPc =
    | Serving
    | SetBit
    | TakeMutex
    | LoadWord
    | Decide(seen: nat)
    | Asleep
    | Finishing
    | Draining
    | Down

  datatype Sender = Sender(word: nat, handleSet: bool, mutexHeld: bool)

  /** `owned` records the messages still belonging to their producer, `accepted` the ticket and message of every call
      that returned OK. */
  datatype Reactor = Reactor(
    sender: Sender,
    pcs: map<Pid, Pc>,
    owned: map<Pid, Message>,
    accepted: map<nat, Message>,
    q: Queue<Message>,
    hand: Option<Message>,
    agent: Agent,
    apc: AgentPc,
    code: int)

  datatype ProducerAction =
    | Begin(msg: Message)
    | CheckClosed(memory: bool)
    | LoadState
    | TryEnter(spurious: bool)
    | QueueOp
    | FinishQueue
    | NotifyAgent
    | LeaveSender
    | SignalCloser

  datatype AgentAction =
    | PollQueue
    | ReleaseItem
    | HandleMessage(setup: Setup, pauseCode: int, c: Cancelled)
    | CurlDone(easy: Handle, code: int, c: Cancelled)
    | FatalError(code: int)
    | SetClosedBit
    | LockMutex
    | ReadWord
    | DecideSleep
    | WakeUp
    | FinishOne(id: nat, c: Cancelled)
    | FinishAll
    | DrainMessage
    | ShutdownAgain

  datatype Action = Producer(p: Pid, step: ProducerAction) | AgentStep(act: AgentAction)

  // ---- producers

  /** The libcurl assumption: an easy handle, and with it its result and streams, is submitted once. */
  ghost predicate Fresh(s: Reactor, m: Message) {
    && ProperMessage(m)
    && (forall i :: 0 <= i < |s.q.order| ==> Apart(s.q.order[i], m))
    && (forall r :: r in s.owned ==> Apart(s.owned[r], m))
  }

  function OpOf(p: Pid, pc: EnqueuePc<Message>): Mpsc.Action<Message> {
    match pc
    case Entered(_) => AddCount(p)
    case Refusing(_) => SubCount(p)
    case Admitted(_) => AddHead(p)
    case Ticketed(_, _, _) => CheckSlot(p)
    case Checked(_, _, _) => Publish(p)
    case _ => Return(p)
  }

  predicate Refuses(word: nat) {
    Closed(word) || Producers(word) == SENDER_PRODUCER_MASK
  }

  predicate Enters(s: Reactor, p: Pid, spurious: bool)
    requires p in s.pcs && s.pcs[p].Cas?
  {
    !Refuses(s.pcs[p].seen) && !spurious && s.sender.word == s.pcs[p].seen
  }

  ghost predicate ProducerEnabled(s: Reactor, p: Pid, a: ProducerAction) {
    match a
    case Begin(m) => p !in s.pcs && p !in s.owned && Fresh(s, m)
    case CheckClosed(_) => p in s.pcs && s.pcs[p].Check?
    case LoadState => p in s.pcs && s.pcs[p].Load?
    case TryEnter(spurious) => p in s.pcs && s.pcs[p].Cas?
      && (Enters(s, p, spurious) ==> Enabled(s.q, Enter(p, s.pcs[p].msg)))
    case QueueOp => p in s.pcs && s.pcs[p].Inside? && p in s.q.pcs && !s.q.pcs[p].Refused? && !s.q.pcs[p].Published?
    case FinishQueue => p in s.pcs && s.pcs[p].Inside? && p in s.q.pcs && (s.q.pcs[p].Refused? || s.q.pcs[p].Published?)
    case NotifyAgent => p in s.pcs && s.pcs[p].Notify?
    case LeaveSender => p in s.pcs && s.pcs[p].Leave?
    case SignalCloser => p in s.pcs && s.pcs[p].Signal? && !s.sender.mutexHeld
  }

  /** The call returns to its caller. */
  function Returned(s: Reactor, p: Pid, ticket: Option<nat>): Reactor
    requires p in s.pcs
  {
    s.(pcs := s.pcs - {p}, owned := s.owned - {p}, accepted := Answered(s.accepted, s.pcs[p].msg, ticket))
  }

  function Answered(accepted: map<nat, Message>, m: Message, ticket: Option<nat>): map<nat, Message> {
    if ticket.Some? then accepted[ticket.value := m] else accepted
  }

  function ProducerApply(s: Reactor, p: Pid, a: ProducerAction): Reactor
    requires WellFormed(s.q.mem) && ProducerEnabled(s, p, a)
  {
    match a
    case Begin(m) =>
      s.(pcs := s.pcs[p := Check(m)], owned := s.owned[p := m])
    case CheckClosed(memory) =>
      if Closed(s.sender.word) || !memory then Returned(s, p, None) else s.(pcs := s.pcs[p := Load(s.pcs[p].msg)])
    case LoadState =>
      s.(pcs := s.pcs[p := Cas(s.pcs[p].msg, s.sender.word)])
    case TryEnter(spurious) =>
      if Refuses(s.pcs[p].seen) then Returned(s, p, None)
      else if Enters(s, p, spurious) then
        s.(sender := s.sender.(word := AddWord(s.sender.word, 1)),
           pcs := s.pcs[p := Inside(s.pcs[p].msg)],
           q := Mpsc.Apply(s.q, Enter(p, s.pcs[p].msg)))
      else s.(pcs := s.pcs[p := Cas(s.pcs[p].msg, s.sender.word)])
    case QueueOp =>
      s.(q := Mpsc.Apply(s.q, OpOf(p, s.q.pcs[p])),
         owned := if s.q.pcs[p].Admitted? then s.owned - {p} else s.owned)
    case FinishQueue =>
      if s.q.pcs[p].Published? then
        s.(q := Mpsc.Apply(s.q, Return(p)), pcs := s.pcs[p := Notify(s.pcs[p].msg, s.q.pcs[p].ticket)])
      else
        s.(q := Mpsc.Apply(s.q, Return(p)), pcs := s.pcs[p := Leave(s.pcs[p].msg, None)], owned := s.owned - {p})
    case NotifyAgent =>
      s.(pcs := s.pcs[p := Leave(s.pcs[p].msg, Some(s.pcs[p].ticket))])
    case LeaveSender =>
      var left := s.(sender := s.sender.(word := SubWord(s.sender.word, 1)));
      if Closed(s.sender.word) && Producers(s.sender.word) == 1
      then left.(pcs := s.pcs[p := Signal(s.pcs[p].msg, s.pcs[p].outcome)]) else Returned(left, p, s.pcs[p].outcome)
    case SignalCloser =>
      Returned(s, p, s.pcs[p].outcome).(apc := if s.apc.Asleep? then TakeMutex else s.apc)
  }

  // ---- the agent

  predicate AtQueue(apc: AgentPc) {
    apc.Serving? || apc.Draining? || apc.Down?
  }

  predicate Quiet(s: Reactor) {
    s.hand.None? && s.q.consumer.Polling?
  }

  predicate AgentEnabled(s: Reactor, a: AgentAction) {
    match a
    case PollQueue => AtQueue(s.apc) && Quiet(s)
    case ReleaseItem => s.q.consumer.Took?
    case HandleMessage(_, _, _) => s.hand.Some? && (s.apc.Serving? || s.apc.Down?)
    case CurlDone(easy, _, _) => s.apc.Serving? && Quiet(s) && easy in s.agent.added
    case FatalError(_) => s.apc.Serving? && Quiet(s)
    case SetClosedBit => s.apc.SetBit?
    case LockMutex => s.apc.TakeMutex? && !s.sender.mutexHeld
    case ReadWord => s.apc.LoadWord?
    case DecideSleep => s.apc.Decide?
    case WakeUp => s.apc.Asleep?
    case FinishOne(id, _) => s.apc.Finishing? && id in s.agent.registry
    case FinishAll => s.apc.Finishing? && s.agent.registry == map[]
    case DrainMessage => s.apc.Draining? && s.hand.Some?
    case ShutdownAgain => s.apc.Down? && Quiet(s)
  }

  function Dispatched(s: Reactor, m: Message, setup: Setup, pauseCode: int, c: Cancelled): Reactor {
    var s' := s.(hand := None, agent := AfterMessage(s.agent, m, setup, pauseCode, c));
    if m.Stop? then s'.(apc := SetBit, code := CURLE_ABORTED_BY_CALLBACK) else s'
  }

  function AgentApply(s: Reactor, a: AgentAction): Reactor
    requires WellFormed(s.q.mem) && AgentEnabled(s, a)
  {
    match a
    case PollQueue =>
      var s' := s.(q := Mpsc.Apply(s.q, Poll));
      if s.apc.Draining? && s'.q.consumer.Polling?
      then s'.(agent := s.agent.(up := false), apc := Down) else s'
    case ReleaseItem =>
      s.(q := Mpsc.Apply(s.q, Release), hand := Some(s.q.consumer.item))
    case HandleMessage(setup, pauseCode, c) =>
      Dispatched(s, s.hand.value, setup, pauseCode, c)
    case CurlDone(easy, code, c) =>
      s.(agent := CompleteTransfer(s.agent, easy, code, c))
    case FatalError(code) =>
      s.(apc := SetBit, code := code)
    case SetClosedBit =>
      s.(apc := TakeMutex,
         sender := s.sender.(word := if Closed(s.sender.word) then s.sender.word
                             else s.sender.word + SENDER_CLOSED_BIT))
    case LockMutex =>
      s.(apc := LoadWord, sender := s.sender.(mutexHeld := true))
    case ReadWord =>
      s.(apc := Decide(s.sender.word))
    case DecideSleep =>
      if Producers(s.apc.seen) != 0 then
        s.(apc := Asleep, sender := s.sender.(mutexHeld := false))
      else
        s.(apc := if s.agent.up then Finishing else Down,
           sender := s.sender.(mutexHeld := false, handleSet := false))
    case WakeUp =>
      s.(apc := TakeMutex)
    case FinishOne(id, c) =>
      s.(agent := Finish(s.agent, id, s.code, c))
    case FinishAll =>
      s.(apc := Draining)
    case DrainMessage =>
      s.(hand := None, agent := DrainOne(s.agent, s.hand.value, s.code))
    case ShutdownAgain =>
      s.(apc := SetBit, code := CURLE_ABORTED_BY_CALLBACK)
  }

  ghost predicate CanStep(s: Reactor, a: Action) {
    && WellFormed(s.q.mem)
    && match a
       case Producer(p, step) => ProducerEnabled(s, p, step)
       case AgentStep(act) => AgentEnabled(s, act)
  }

  ghost function Apply(s: Reactor, a: Action): Reactor
    requires CanStep(s, a)
  {
    match a
    case Producer(p, step) => ProducerApply(s, p, step)
    case AgentStep(act) => AgentApply(s, act)
  }

  function Start(capacity: nat): Reactor {
    Reactor(Sender(0, true, false), map[], map[], map[], Initial(capacity), None, INITIAL_AGENT, Serving, CURLE_OK)
  }

  // ---- invariants

  /** The message_sender part: the word counts the threads inside, closing is a barrier, the closer is never
      stranded. */
  ghost predicate Barrier(sender: Sender, pcs: map<Pid, Pc>, apc: AgentPc) {
    && sender.word < WORD
    && Producers(sender.word) == Count(pcs, IsInside) < SENDER_CLOSED_BIT
    && (apc.Serving? ==> !Closed(sender.word))
    && (apc != Serving && apc != SetBit ==> Closed(sender.word))
    && (sender.mutexHeld <==> apc.LoadWord? || apc.Decide?)
    && (!sender.handleSet ==> Sealed(sender))
    && (apc.Finishing? || apc.Draining? || apc.Down? ==> !sender.handleSet)
    && (apc.Asleep? || (apc.Decide? && Producers(apc.seen) != 0) ==> Producers(sender.word) != 0 || SignalPending(pcs))
    && (apc.Decide? && Producers(apc.seen) == 0 ==> Producers(sender.word) == 0)
    && (forall p :: p in pcs && pcs[p].Signal? ==> Closed(sender.word))
  }

  /** Closed with nobody inside. */
  predicate Sealed(sender: Sender) {
    Closed(sender.word) && Producers(sender.word) == 0
  }

  ghost predicate SignalPending(pcs: map<Pid, Pc>) {
    exists p :: p in pcs && pcs[p].Signal?
  }

  /** Threads inside the queue are inside the sender, and carry the message they own. */
  ghost predicate Ownership(q: map<Pid, EnqueuePc<Message>>, pcs: map<Pid, Pc>, owned: map<Pid, Message>) {
    && (forall p :: p in q <==> p in pcs && pcs[p].Inside?)
    && (forall p :: p in owned ==> p in pcs)
    && (forall p :: p in pcs && (pcs[p].Check? || pcs[p].Load? || pcs[p].Cas?) ==> p in owned && owned[p] == pcs[p].msg)
    && (forall p :: p in q ==> if q[p].HasTicket() then p !in owned else p in owned && owned[p] == q[p].obj)
    && (forall p :: p in q ==> q[p].obj == pcs[p].msg)
  }

  /** No two messages, accepted or still owned by a producer, share an object. */
  ghost predicate AllDistinct(order: seq<Message>, owned: map<Pid, Message>) {
    && Distinct(order)
    && (forall p :: p in owned ==> ProperMessage(owned[p]))
    && (forall p, i :: p in owned && 0 <= i < |order| ==> Apart(order[i], owned[p]))
    && (forall p, r :: p in owned && r in owned && p != r ==> Apart(owned[p], owned[r]))
  }

  function Handled(q: Queue<Message>, hand: Option<Message>): int {
    q.Released() - One(hand.Some?)
  }

  /** The agent has handled a prefix of the accepted messages, and all of them once it is down. */
  ghost predicate Served(s: Reactor) {
    && 0 <= Handled(s.q, s.hand)
    && Progress(s.q.order, Handled(s.q, s.hand), s.agent)
    && (s.hand.Some? ==>
        s.q.consumer.Polling? && 0 < s.q.taken <= |s.q.order| && s.hand.value == s.q.order[s.q.taken - 1])
    && (!Quiet(s) ==> s.apc.Serving? || s.apc.Draining?)
    && (s.apc.Draining? ==> s.agent.registry == map[])
    && (s.apc.Serving? || s.apc.Finishing? || s.apc.Draining? ==> s.agent.up)
    && (s.apc.Down? ==> !s.agent.up)
    && (!s.agent.up ==> !s.sender.handleSet && Quiet(s) && s.q.taken == |s.q.order|)
  }

  /** A ticket on its way back to a caller, or returned with OK, is that of the caller's own message. */
  ghost predicate Recorded(order: seq<Message>, pcs: map<Pid, Pc>, accepted: map<nat, Message>) {
    && (forall t :: t in accepted ==> IsTicketOf(order, t, accepted[t]))
    && (forall p :: p in pcs ==> TicketsOf(pcs[p], order))
  }

  predicate IsTicketOf(order: seq<Message>, ticket: nat, m: Message) {
    ticket < |order| && order[ticket] == m
  }

  predicate TicketsOf(pc: Pc, order: seq<Message>) {
    && (pc.Notify? ==> IsTicketOf(order, pc.ticket, pc.msg))
    && ((pc.Leave? || pc.Signal?) && pc.outcome.Some? ==> IsTicketOf(order, pc.outcome.value, pc.msg))
  }

  ghost predicate Inv(s: Reactor) {
    && Mpsc.Inv(s.q)
    && Barrier(s.sender, s.pcs, s.apc)
    && s.q.mem.max <= SIZE_MAX / 8
    && Ownership(s.q.pcs, s.pcs, s.owned)
    && AllDistinct(s.q.order, s.owned)
    && Served(s)
    && Recorded(s.q.order, s.pcs, s.accepted)
  }

  lemma ClosedBitIsPower()
    ensures SENDER_CLOSED_BIT == Pow2(63)
  {
    WordIsPow2();
    assert Pow2(64) == 2 * Pow2(63);
  }

  /** The packed word's arithmetic is the C code's masking with the closed bit and the producer mask. */
  lemma WordBits(word: nat)
    requires word < WORD
    ensures Producers(word) == And(word, SENDER_PRODUCER_MASK)
    ensures Closed(word) <==> word / SENDER_CLOSED_BIT % 2 == 1
  {
    ClosedBitIsPower();
    Pow2IsPow2(63);
    MaskIsModulo(word, SENDER_CLOSED_BIT);
  }

  // ---- the barrier, step by step

  lemma BarrierMove(sender: Sender, pcs: map<Pid, Pc>, apc: AgentPc, p: Pid, pc: Pc)
    requires Barrier(sender, pcs, apc) && !pc.Signal?
    requires IsInside(pc) == (p in pcs && IsInside(pcs[p])) && (p in pcs ==> !pcs[p].Signal?)
    ensures Barrier(sender, pcs[p := pc], apc)
  {
    CountUpdate(pcs, p, pc, IsInside);
    SignalsKept(pcs, pcs[p := pc], p);
  }

  lemma BarrierReturn(sender: Sender, pcs: map<Pid, Pc>, apc: AgentPc, p: Pid)
    requires Barrier(sender, pcs, apc) && p in pcs && !IsInside(pcs[p]) && !pcs[p].Signal?
    ensures Barrier(sender, pcs - {p}, apc)
  {
    CountRemove(pcs, p, IsInside);
    SignalsKept(pcs, pcs - {p}, p);
  }

  lemma SignalsKept(pcs: map<Pid, Pc>, pcs': map<Pid, Pc>, p: Pid)
    requires p in pcs ==> !pcs[p].Signal?
    requires forall r :: r != p && r in pcs ==> r in pcs' && pcs'[r] == pcs[r]
    ensures SignalPending(pcs) ==> SignalPending(pcs')
  {
    if SignalPending(pcs) {
      var r :| r in pcs && pcs[r].Signal?;
      assert r in pcs' && pcs'[r].Signal?;
    }
  }

  lemma BarrierEnter(sender: Sender, pcs: map<Pid, Pc>, apc: AgentPc, p: Pid)
    requires Barrier(sender, pcs, apc) && p in pcs && pcs[p].Cas? && !Refuses(sender.word)
    ensures Barrier(sender.(word := AddWord(sender.word, 1)), pcs[p := Inside(pcs[p].msg)], apc)
  {
    CountUpdate(pcs, p, Inside(pcs[p].msg), IsInside);
  }

  lemma BarrierLeave(sender: Sender, pcs: map<Pid, Pc>, apc: AgentPc, p: Pid)
    requires Barrier(sender, pcs, apc) && p in pcs && pcs[p].Leave?
    ensures var word := SubWord(sender.word, 1);
            if Closed(sender.word) && Producers(sender.word) == 1
            then Barrier(sender.(word := word), pcs[p := Signal(pcs[p].msg, pcs[p].outcome)], apc)
            else Barrier(sender.(word := word), pcs - {p}, apc)
  {
    CountBound(pcs, IsInside, p);
    CountUpdate(pcs, p, Signal(pcs[p].msg, pcs[p].outcome), IsInside);
    CountRemove(pcs, p, IsInside);
    SignalsKept(pcs, pcs - {p}, p);
    assert pcs[p := Signal(pcs[p].msg, pcs[p].outcome)][p].Signal?;
  }

  /** The wake-up: it finds the closer asleep, or the closer has not slept since it last looked. */
  lemma BarrierSignal(sender: Sender, pcs: map<Pid, Pc>, apc: AgentPc, p: Pid)
    requires Barrier(sender, pcs, apc) && p in pcs && pcs[p].Signal? && !sender.mutexHeld
    ensures Barrier(sender, pcs - {p}, if apc.Asleep? then TakeMutex else apc)
  {
    CountRemove(pcs, p, IsInside);
  }

  // ---- producer steps

  /** Producer steps leave the agent's side alone; at most they append one accepted message. */
  lemma ServedKept(s: Reactor, s': Reactor)
    requires Served(s)
    requires s'.agent == s.agent && s'.hand == s.hand && s'.q.taken == s.q.taken && s'.q.consumer == s.q.consumer
    requires s'.sender.handleSet == s.sender.handleSet
    requires s'.apc == s.apc || (s.apc.Asleep? && s'.apc.TakeMutex?)
    requires s'.q.order == s.q.order || (s.agent.up && |s'.q.order| == |s.q.order| + 1 && s.q.order <= s'.q.order)
    ensures Served(s')
  {
    var n := Handled(s.q, s.hand);
    assert Handled(s'.q, s'.hand) == n;
    ProgressKept(s.q.order, s'.q.order, n, s.agent);
  }

  lemma ProgressKept(order: seq<Message>, order': seq<Message>, n: nat, a: Agent)
    requires Progress(order, n, a)
    requires order' == order || (|order'| == |order| + 1 && order <= order')
    ensures Progress(order', n, a)
  {
    if order' != order {
      var m := order'[|order|];
      assert order' == order + [m];
      OrderGrows(order, m, n, a);
    }
  }

  lemma RecordedMove(order: seq<Message>, pcs: map<Pid, Pc>, accepted: map<nat, Message>, p: Pid, pc: Pc)
    requires Recorded(order, pcs, accepted) && TicketsOf(pc, order)
    ensures Recorded(order, pcs[p := pc], accepted)
  {
  }

  lemma RecordedGrows(order: seq<Message>, order': seq<Message>, pcs: map<Pid, Pc>, accepted: map<nat, Message>)
    requires Recorded(order, pcs, accepted) && order <= order'
    ensures Recorded(order', pcs, accepted)
  {
  }

  lemma RecordedReturn(order: seq<Message>, pcs: map<Pid, Pc>, accepted: map<nat, Message>, p: Pid,
                       outcome: Option<nat>)
    requires Recorded(order, pcs, accepted) && p in pcs
    requires outcome.Some? ==> IsTicketOf(order, outcome.value, pcs[p].msg)
    ensures Recorded(order, pcs - {p}, Answered(accepted, pcs[p].msg, outcome))
  {
  }

  lemma OwnershipMove(q: map<Pid, EnqueuePc<Message>>, pcs: map<Pid, Pc>, owned: map<Pid, Message>, p: Pid, pc: Pc)
    requires Ownership(q, pcs, owned) && p in pcs && !pcs[p].Inside? && !pc.Inside?
    requires pc.Check? || pc.Load? || pc.Cas? ==> p in owned && owned[p] == pc.msg
    ensures Ownership(q, pcs[p := pc], owned)
  {
  }

  lemma OwnershipReturn(q: map<Pid, EnqueuePc<Message>>, pcs: map<Pid, Pc>, owned: map<Pid, Message>, p: Pid)
    requires Ownership(q, pcs, owned) && p in pcs && !pcs[p].Inside?
    ensures Ownership(q, pcs - {p}, owned - {p})
  {
  }

  lemma DistinctDrop(order: seq<Message>, owned: map<Pid, Message>, p: Pid)
    requires AllDistinct(order, owned)
    ensures AllDistinct(order, owned - {p})
  {
  }

  lemma DistinctBegin(s: Reactor, p: Pid, m: Message)
    requires AllDistinct(s.q.order, s.owned) && p !in s.owned && Fresh(s, m)
    ensures AllDistinct(s.q.order, s.owned[p := m])
  {
    forall r | r in s.owned
      ensures Apart(s.owned[r], m) && Apart(m, s.owned[r])
    {
      ApartSymmetric(s.owned[r], m);
    }
  }

  lemma ApartSymmetric(m: Message, n: Message)
    ensures Apart(m, n) <==> Apart(n, m)
  {
    if m.Execute? && n.Execute? {
      DisjointSymmetric(m.payload, n.payload);
    }
  }

  lemma DistinctAccept(order: seq<Message>, owned: map<Pid, Message>, p: Pid)
    requires AllDistinct(order, owned) && p in owned
    ensures AllDistinct(order + [owned[p]], owned - {p})
  {
  }

  /** A step of a thread outside the queue and the sender. */
  lemma OutsideOnly(s: Reactor, s': Reactor)
    requires Inv(s) && s' == s.(pcs := s'.pcs, owned := s'.owned, accepted := s'.accepted)
    requires Barrier(s.sender, s'.pcs, s.apc)
    requires Ownership(s.q.pcs, s'.pcs, s'.owned) && AllDistinct(s.q.order, s'.owned)
    requires Recorded(s.q.order, s'.pcs, s'.accepted)
    ensures Inv(s')
  {
    ServedKept(s, s');
  }

  lemma OwnershipBegin(q: map<Pid, EnqueuePc<Message>>, pcs: map<Pid, Pc>, owned: map<Pid, Message>, p: Pid, m: Message)
    requires Ownership(q, pcs, owned) && p !in pcs && p !in owned
    ensures Ownership(q, pcs[p := Check(m)], owned[p := m])
  {
  }

  lemma BeginKeepsInv(s: Reactor, p: Pid, m: Message, s': Reactor)
    requires Inv(s) && ProducerEnabled(s, p, Begin(m)) && s' == ProducerApply(s, p, Begin(m))
    ensures Inv(s')
  {
    BarrierMove(s.sender, s.pcs, s.apc, p, Check(m));
    OwnershipBegin(s.q.pcs, s.pcs, s.owned, p, m);
    RecordedMove(s.q.order, s.pcs, s.accepted, p, Check(m));
    DistinctBegin(s, p, m);
    OutsideOnly(s, s');
  }

  lemma ReturnedKeepsInv(s: Reactor, p: Pid)
    requires Inv(s) && p in s.pcs && !IsInside(s.pcs[p]) && !s.pcs[p].Signal?
    ensures Inv(Returned(s, p, None))
  {
    BarrierReturn(s.sender, s.pcs, s.apc, p);
    OwnershipReturn(s.q.pcs, s.pcs, s.owned, p);
    RecordedReturn(s.q.order, s.pcs, s.accepted, p, None);
    DistinctDrop(s.q.order, s.owned, p);
    OutsideOnly(s, Returned(s, p, None));
  }

  lemma MoveOutsideKeepsInv(s: Reactor, p: Pid, pc: Pc, s': Reactor)
    requires Inv(s) && p in s.pcs && (s.pcs[p].Check? || s.pcs[p].Load? || s.pcs[p].Cas?)
    requires (pc.Load? || pc.Cas?) && pc.msg == s.pcs[p].msg
    requires s' == s.(pcs := s.pcs[p := pc])
    ensures Inv(s')
  {
    BarrierMove(s.sender, s.pcs, s.apc, p, pc);
    OwnershipMove(s.q.pcs, s.pcs, s.owned, p, pc);
    RecordedMove(s.q.order, s.pcs, s.accepted, p, pc);
    OutsideOnly(s, s');
  }

  lemma OwnershipEnter(q: map<Pid, EnqueuePc<Message>>, pcs: map<Pid, Pc>, owned: map<Pid, Message>, p: Pid)
    requires Ownership(q, pcs, owned) && p in pcs && pcs[p].Cas?
    ensures Ownership(q[p := Entered(pcs[p].msg)], pcs[p := Inside(pcs[p].msg)], owned)
  {
  }

  /** Going in or out, the word and the queue's threads move, the memory and the order do not. */
  lemma InsideOnly(s: Reactor, s': Reactor)
    requires Inv(s) && s' == s.(sender := s'.sender, pcs := s'.pcs, q := s'.q, owned := s'.owned)
    requires s'.sender.handleSet == s.sender.handleSet && Barrier(s'.sender, s'.pcs, s.apc)
    requires Mpsc.Inv(s'.q) && s'.q == s.q.(pcs := s'.q.pcs)
    requires Ownership(s'.q.pcs, s'.pcs, s'.owned) && AllDistinct(s.q.order, s'.owned)
    requires Recorded(s.q.order, s'.pcs, s.accepted)
    ensures Inv(s')
  {
    ServedKept(s, s');
  }

  lemma EnterKeepsInv(s: Reactor, p: Pid, s': Reactor)
    requires Inv(s) && p in s.pcs && s.pcs[p].Cas? && Enters(s, p, false) && Enabled(s.q, Enter(p, s.pcs[p].msg))
    requires s' == ProducerApply(s, p, TryEnter(false))
    ensures Inv(s')
  {
    Mpsc.EnterKeepsInv(s.q, p, s.pcs[p].msg, s'.q);
    BarrierEnter(s.sender, s.pcs, s.apc, p);
    OwnershipEnter(s.q.pcs, s.pcs, s.owned, p);
    RecordedMove(s.q.order, s.pcs, s.accepted, p, Inside(s.pcs[p].msg));
    InsideOnly(s, s');
  }

  /** The queue's bound on concurrent producers never blocks an admission: the word admits fewer than 2^63. */
  lemma AdmissionNeverBlocked(s: Reactor, p: Pid)
    requires Inv(s) && p in s.pcs && s.pcs[p].Cas? && Enters(s, p, false)
    ensures Enabled(s.q, Enter(p, s.pcs[p].msg))
  {
    assert s.q.pcs.Keys <= Having(s.pcs, IsInside);
    SubsetSize(s.q.pcs.Keys, Having(s.pcs, IsInside));
  }

  lemma OwnershipOp(q: map<Pid, EnqueuePc<Message>>, pcs: map<Pid, Pc>, owned: map<Pid, Message>, p: Pid,
                    pc: EnqueuePc<Message>)
    requires Ownership(q, pcs, owned) && p in q && pc.obj == q[p].obj
    ensures pc.HasTicket() ==> Ownership(q[p := pc], pcs, owned - {p})
    ensures !pc.HasTicket() && !q[p].HasTicket() ==> Ownership(q[p := pc], pcs, owned)
  {
  }

  lemma QueueOpOwnership(s: Reactor, p: Pid, s': Reactor)
    requires Ownership(s.q.pcs, s.pcs, s.owned) && WellFormed(s.q.mem)
    requires ProducerEnabled(s, p, QueueOp) && s' == ProducerApply(s, p, QueueOp)
    ensures Ownership(s'.q.pcs, s'.pcs, s'.owned)
  {
    var pc := s'.q.pcs[p];
    OwnershipOp(s.q.pcs, s.pcs, s.owned, p, pc);
    assert s'.q.pcs == s.q.pcs[p := pc] && pc.obj == s.q.pcs[p].obj;
    if s.q.pcs[p].HasTicket() {
      assert s.owned - {p} == s.owned;
    }
  }

  /** Only the ticket operation of the queue changes what is accepted. */
  lemma QueueOpAccepts(s: Reactor, p: Pid, s': Reactor)
    requires Ownership(s.q.pcs, s.pcs, s.owned) && WellFormed(s.q.mem)
    requires ProducerEnabled(s, p, QueueOp) && s' == ProducerApply(s, p, QueueOp)
    ensures s'.q.order == if s.q.pcs[p].Admitted? then s.q.order + [s.owned[p]] else s.q.order
    ensures s'.q.taken == s.q.taken && s'.q.consumer == s.q.consumer && s'.q.mem.max == s.q.mem.max
    ensures Enabled(s.q, OpOf(p, s.q.pcs[p])) && s'.q == Mpsc.Apply(s.q, OpOf(p, s.q.pcs[p]))
  {
  }

  lemma InsideKeepsUp(s: Reactor, p: Pid)
    requires Inv(s) && p in s.pcs && IsInside(s.pcs[p])
    ensures s.agent.up && s.sender.handleSet
  {
    CountBound(s.pcs, IsInside, p);
  }

  lemma QueueOpDistinct(s: Reactor, p: Pid, s': Reactor)
    requires Ownership(s.q.pcs, s.pcs, s.owned) && WellFormed(s.q.mem) && AllDistinct(s.q.order, s.owned)
    requires ProducerEnabled(s, p, QueueOp) && s' == ProducerApply(s, p, QueueOp)
    ensures AllDistinct(s'.q.order, s'.owned)
  {
    QueueOpAccepts(s, p, s');
    if s.q.pcs[p].Admitted? {
      DistinctAccept(s.q.order, s.owned, p);
    }
  }

  lemma QueueOpServed(s: Reactor, p: Pid, s': Reactor)
    requires Inv(s) && ProducerEnabled(s, p, QueueOp) && s' == ProducerApply(s, p, QueueOp)
    ensures Served(s')
    ensures Recorded(s'.q.order, s'.pcs, s'.accepted)
  {
    QueueOpAccepts(s, p, s');
    InsideKeepsUp(s, p);
    RecordedGrows(s.q.order, s'.q.order, s.pcs, s.accepted);
    ServedKept(s, s');
  }

  lemma QueueOpKeepsInv(s: Reactor, p: Pid, s': Reactor)
    requires Inv(s) && ProducerEnabled(s, p, QueueOp) && s' == ProducerApply(s, p, QueueOp)
    ensures Inv(s')
  {
    QueueOpAccepts(s, p, s');
    Mpsc.StepKeepsInv(s.q, OpOf(p, s.q.pcs[p]));
    QueueOpOwnership(s, p, s');
    QueueOpDistinct(s, p, s');
    QueueOpServed(s, p, s');
  }

  lemma FinishQueueOwnership(s: Reactor, p: Pid, s': Reactor)
    requires Ownership(s.q.pcs, s.pcs, s.owned) && WellFormed(s.q.mem)
    requires ProducerEnabled(s, p, FinishQueue) && s' == ProducerApply(s, p, FinishQueue)
    ensures Ownership(s'.q.pcs, s'.pcs, s'.owned)
    ensures Enabled(s.q, Return(p)) && s'.q == Mpsc.Apply(s.q, Return(p))
    ensures s'.owned == s.owned - {p} || s'.owned == s.owned
    ensures s'.pcs == s.pcs[p := s'.pcs[p]] && (s'.pcs[p].Notify? || s'.pcs[p].Leave?)
  {
  }

  lemma FinishQueueKeepsInv(s: Reactor, p: Pid, s': Reactor)
    requires Inv(s) && ProducerEnabled(s, p, FinishQueue) && s' == ProducerApply(s, p, FinishQueue)
    ensures Inv(s')
  {
    FinishQueueOwnership(s, p, s');
    Mpsc.ReturnKeepsInv(s.q, p, s'.q);
    BarrierMove(s.sender, s.pcs, s.apc, p, s'.pcs[p]);
    RecordedMove(s.q.order, s.pcs, s.accepted, p, s'.pcs[p]);
    DistinctDrop(s.q.order, s.owned, p);
    assert s'.q == s.q.(pcs := s'.q.pcs) && s' == s.(pcs := s'.pcs, q := s'.q, owned := s'.owned);
    InsideOnly(s, s');
  }

  lemma NotifyKeepsInv(s: Reactor, p: Pid, s': Reactor)
    requires Inv(s) && ProducerEnabled(s, p, NotifyAgent) && s' == ProducerApply(s, p, NotifyAgent)
    ensures Inv(s')
  {
    BarrierMove(s.sender, s.pcs, s.apc, p, s'.pcs[p]);
    OwnershipMove(s.q.pcs, s.pcs, s.owned, p, s'.pcs[p]);
    RecordedMove(s.q.order, s.pcs, s.accepted, p, s'.pcs[p]);
    ServedKept(s, s');
  }

  lemma LeaveKeepsInv(s: Reactor, p: Pid, s': Reactor)
    requires Inv(s) && ProducerEnabled(s, p, LeaveSender) && s' == ProducerApply(s, p, LeaveSender)
    ensures Inv(s')
  {
    BarrierLeave(s.sender, s.pcs, s.apc, p);
    var last := Signal(s.pcs[p].msg, s.pcs[p].outcome);
    OwnershipMove(s.q.pcs, s.pcs, s.owned, p, last);
    OwnershipReturn(s.q.pcs, s.pcs, s.owned, p);
    RecordedMove(s.q.order, s.pcs, s.accepted, p, last);
    RecordedReturn(s.q.order, s.pcs, s.accepted, p, s.pcs[p].outcome);
    DistinctDrop(s.q.order, s.owned, p);
    ServedKept(s, s');
  }

  lemma SignalKeepsInv(s: Reactor, p: Pid, s': Reactor)
    requires Inv(s) && ProducerEnabled(s, p, SignalCloser) && s' == ProducerApply(s, p, SignalCloser)
    ensures Inv(s')
  {
    BarrierSignal(s.sender, s.pcs, s.apc, p);
    OwnershipReturn(s.q.pcs, s.pcs, s.owned, p);
    RecordedReturn(s.q.order, s.pcs, s.accepted, p, s.pcs[p].outcome);
    DistinctDrop(s.q.order, s.owned, p);
    ServedKept(s, s');
  }

  lemma TryEnterKeepsInv(s: Reactor, p: Pid, spurious: bool, s': Reactor)
    requires Inv(s) && ProducerEnabled(s, p, TryEnter(spurious)) && s' == ProducerApply(s, p, TryEnter(spurious))
    ensures Inv(s')
  {
    if Refuses(s.pcs[p].seen) {
      ReturnedKeepsInv(s, p);
    } else if Enters(s, p, spurious) {
      EnterKeepsInv(s, p, s');
    } else {
      MoveOutsideKeepsInv(s, p, s'.pcs[p], s');
    }
  }

  lemma CheckKeepsInv(s: Reactor, p: Pid, memory: bool, s': Reactor)
    requires Inv(s) && ProducerEnabled(s, p, CheckClosed(memory)) && s' == ProducerApply(s, p, CheckClosed(memory))
    ensures Inv(s')
  {
    if Closed(s.sender.word) || !memory {
      ReturnedKeepsInv(s, p);
    } else {
      MoveOutsideKeepsInv(s, p, s'.pcs[p], s');
    }
  }

  lemma ProducerKeepsInv(s: Reactor, p: Pid, a: ProducerAction)
    requires Inv(s) && ProducerEnabled(s, p, a)
    ensures Inv(ProducerApply(s, p, a))
  {
    var s' := ProducerApply(s, p, a);
    match a
    case Begin(m) => BeginKeepsInv(s, p, m, s');
    case CheckClosed(memory) => CheckKeepsInv(s, p, memory, s');
    case LoadState => MoveOutsideKeepsInv(s, p, s'.pcs[p], s');
    case TryEnter(spurious) => TryEnterKeepsInv(s, p, spurious, s');
    case QueueOp => QueueOpKeepsInv(s, p, s');
    case FinishQueue => FinishQueueKeepsInv(s, p, s');
    case NotifyAgent => NotifyKeepsInv(s, p, s');
    case LeaveSender => LeaveKeepsInv(s, p, s');
    case SignalCloser => SignalKeepsInv(s, p, s');
  }

  // ---- agent steps

  /** Besides the queue's consumer side only the end of the drain changes anything. */
  lemma PolledOnly(s: Reactor, s': Reactor)
    requires Inv(s) && s' == s.(q := s'.q, agent := s'.agent, apc := s'.apc)
    requires Mpsc.Inv(s'.q) && s'.q.pcs == s.q.pcs && s'.q.order == s.q.order && s'.q.mem.max == s.q.mem.max
    requires s'.apc == s.apc || (s.apc.Draining? && s'.apc.Down?)
    requires Served(s')
    ensures Inv(s')
  {
  }

  lemma PollKeepsInv(s: Reactor, s': Reactor)
    requires Inv(s) && AgentEnabled(s, PollQueue) && s' == AgentApply(s, PollQueue)
    ensures Inv(s')
  {
    var q' := Mpsc.Apply(s.q, Poll);
    Mpsc.PollKeepsInv(s.q, q');
    Mpsc.PollTakesOldest(s.q);
    if !s.apc.Serving? {
      EmptyMeansDrained(s);
    }
    PollServed(s, q', s');
    PolledOnly(s, s');
  }

  /** An empty answer during the drain means every accepted message has been taken: nobody is mid-publication. */
  lemma EmptyMeansDrained(s: Reactor)
    requires Inv(s) && AgentEnabled(s, PollQueue) && !s.apc.Serving?
    ensures Mpsc.Apply(s.q, Poll).consumer.Polling? <==> s.q.taken == |s.q.order|
  {
    NobodyInside(s);
    Mpsc.EmptyAnswerIsEmpty(s.q);
  }

  lemma PollServed(s: Reactor, q': Queue<Message>, s': Reactor)
    requires Served(s) && Quiet(s) && AtQueue(s.apc) && 0 <= s.q.taken <= |s.q.order|
    requires s.apc.Draining? || s.apc.Down? ==> !s.sender.handleSet
    requires q'.order == s.q.order && q'.taken == s.q.taken + One(q'.consumer.Took?)
    requires !s.apc.Serving? ==> (q'.consumer.Polling? <==> s.q.taken == |s.q.order|)
    requires var polled := s.(q := q');
             s' == if s.apc.Draining? && q'.consumer.Polling?
                   then polled.(agent := s.agent.(up := false), apc := Down) else polled
    ensures Served(s')
  {
  }

  lemma NobodyInside(s: Reactor)
    requires Inv(s) && !s.sender.handleSet
    ensures forall p :: p in s.pcs ==> !IsInside(s.pcs[p])
    ensures s.q.pcs == map[]
  {
    CountZero(s.pcs, IsInside);
    assert s.q.pcs.Keys == {};
  }

  lemma ReleaseServed(s: Reactor, item: Message, q': Queue<Message>, s': Reactor)
    requires Served(s) && s.q.consumer == Took(item) && 0 < s.q.taken <= |s.q.order| && item == s.q.order[s.q.taken - 1]
    requires q'.order == s.q.order && q'.taken == s.q.taken && q'.consumer.Polling?
    requires s' == s.(q := q', hand := Some(item))
    ensures Served(s')
  {
  }

  lemma ReleaseKeepsInv(s: Reactor, s': Reactor)
    requires Inv(s) && AgentEnabled(s, ReleaseItem) && s' == AgentApply(s, ReleaseItem)
    ensures Inv(s')
  {
    Mpsc.StepKeepsInv(s.q, Release);
    ReleaseServed(s, s.q.consumer.item, s'.q, s');
  }

  /** The message in hand has been dealt with. */
  lemma HandledServed(s: Reactor, n: nat, a: Agent, s': Reactor)
    requires Served(s) && s.hand.Some? && n == s.q.taken - 1
    requires s'.hand.None? && s'.q == s.q && s'.sender == s.sender && s'.agent == a
    requires a.up == s.agent.up && Progress(s.q.order, n + 1, a)
    requires s'.apc == s.apc || (s.apc.Serving? && s'.apc.SetBit?)
    requires s.apc.Draining? ==> a.registry == map[]
    ensures Served(s')
  {
  }

  lemma DispatchServed(s: Reactor, setup: Setup, pauseCode: int, c: Cancelled, s': Reactor)
    requires Served(s) && Distinct(s.q.order) && s.hand.Some? && (s.apc.Serving? || s.apc.Down?)
    requires s' == Dispatched(s, s.hand.value, setup, pauseCode, c)
    ensures Served(s')
  {
    var n, a := s.q.taken - 1, s'.agent;
    HandleKeepsProgress(s.q.order, n, s.agent, setup, pauseCode, c, a);
    HandledServed(s, n, a, s');
  }

  lemma DrainServed(s: Reactor, s': Reactor)
    requires Served(s) && Distinct(s.q.order) && WellFormed(s.q.mem)
    requires AgentEnabled(s, DrainMessage) && s' == AgentApply(s, DrainMessage)
    ensures Served(s')
  {
    DrainKeepsProgress(s.q.order, s.q.taken - 1, s.agent, s.code);
    HandledServed(s, s.q.taken - 1, s'.agent, s');
  }

  lemma CurlDoneServed(s: Reactor, easy: Handle, code: int, c: Cancelled, s': Reactor)
    requires Inv(s) && AgentEnabled(s, CurlDone(easy, code, c)) && s' == AgentApply(s, CurlDone(easy, code, c))
    ensures Served(s')
  {
    CompletionKeepsProgress(s.q.order, Handled(s.q, s.hand), s.agent, easy, code, c);
    CompletionFindsOwner(s.agent, easy, code, c);
  }

  lemma FinishOneServed(s: Reactor, id: nat, c: Cancelled, s': Reactor)
    requires Inv(s) && AgentEnabled(s, FinishOne(id, c)) && s' == AgentApply(s, FinishOne(id, c))
    ensures Served(s')
  {
    FinishKeepsProgress(s.q.order, Handled(s.q, s.hand), s.agent, id, s.code, c);
  }

  /** Steps of the closing protocol touch only the sender and the agent's program counter. */
  lemma ClosingServed(s: Reactor, sender: Sender, apc: AgentPc, s': Reactor)
    requires Served(s) && s' == s.(sender := sender, apc := apc)
    requires !s.apc.Serving? && !s.apc.Draining? && !apc.Serving? && !apc.Draining?
    requires (!s.sender.handleSet ==> !sender.handleSet) && (apc.Finishing? ==> s.agent.up)
    requires (apc.Down? ==> !s.agent.up)
    ensures Served(s')
  {
  }

  lemma ClosingBarrier(sender: Sender, pcs: map<Pid, Pc>, apc: AgentPc)
    requires Barrier(sender, pcs, apc)
    ensures apc.SetBit? ==>
              Barrier(sender.(word := if Closed(sender.word) then sender.word else sender.word + SENDER_CLOSED_BIT),
                      pcs, TakeMutex)
    ensures apc.TakeMutex? && !sender.mutexHeld ==> Barrier(sender.(mutexHeld := true), pcs, LoadWord)
    ensures apc.LoadWord? ==> Barrier(sender, pcs, Decide(sender.word))
    ensures apc.Asleep? ==> Barrier(sender, pcs, TakeMutex)
  {
  }

  lemma DecisionBarrier(sender: Sender, pcs: map<Pid, Pc>, apc: AgentPc, next: AgentPc)
    requires Barrier(sender, pcs, apc) && apc.Decide? && (next.Finishing? || next.Down?)
    ensures Producers(apc.seen) != 0 ==> Barrier(sender.(mutexHeld := false), pcs, Asleep)
    ensures Producers(apc.seen) == 0 ==> Barrier(sender.(mutexHeld := false, handleSet := false), pcs, next)
  {
  }

  lemma ClosingKeepsInv(s: Reactor, a: AgentAction, s': Reactor)
    requires Inv(s) && AgentEnabled(s, a) && s' == AgentApply(s, a)
    requires a.SetClosedBit? || a.LockMutex? || a.ReadWord? || a.DecideSleep? || a.WakeUp?
    ensures Inv(s')
  {
    ClosingBarrier(s.sender, s.pcs, s.apc);
    if a.DecideSleep? {
      DecisionBarrier(s.sender, s.pcs, s.apc, if s.agent.up then Finishing else Down);
    }
    ClosingServed(s, s'.sender, s'.apc, s');
  }

  lemma AgentOnly(s: Reactor, s': Reactor)
    requires Inv(s) && s' == s.(agent := s'.agent, hand := s'.hand, apc := s'.apc, code := s'.code)
    requires s'.apc == s.apc || (s.apc.Serving? && s'.apc.SetBit?)
    requires Served(s')
    ensures Inv(s')
  {
  }

  lemma HandleKeepsInv(s: Reactor, setup: Setup, pauseCode: int, c: Cancelled, s': Reactor)
    requires Inv(s)
    requires AgentEnabled(s, HandleMessage(setup, pauseCode, c))
    requires s' == AgentApply(s, HandleMessage(setup, pauseCode, c))
    ensures Inv(s')
  {
    DispatchServed(s, setup, pauseCode, c, s');
    assert s' == s.(agent := s'.agent, hand := None, apc := s'.apc, code := s'.code);
    AgentOnly(s, s');
  }

  lemma DrainKeepsInv(s: Reactor, s': Reactor)
    requires Inv(s) && AgentEnabled(s, DrainMessage) && s' == AgentApply(s, DrainMessage)
    ensures Inv(s')
  {
    DrainServed(s, s');
  }

  lemma CurlDoneKeepsInv(s: Reactor, easy: Handle, code: int, c: Cancelled, s': Reactor)
    requires Inv(s) && AgentEnabled(s, CurlDone(easy, code, c)) && s' == AgentApply(s, CurlDone(easy, code, c))
    ensures Inv(s')
  {
    CurlDoneServed(s, easy, code, c, s');
  }

  lemma FinishOneKeepsInv(s: Reactor, id: nat, c: Cancelled, s': Reactor)
    requires Inv(s) && AgentEnabled(s, FinishOne(id, c)) && s' == AgentApply(s, FinishOne(id, c))
    ensures Inv(s')
  {
    FinishOneServed(s, id, c, s');
  }

  /** Entering shutdown, and ending its registry walk, change only the agent's program counter and code. */
  lemma TurnKeepsInv(s: Reactor, a: AgentAction, s': Reactor)
    requires Inv(s) && AgentEnabled(s, a) && s' == AgentApply(s, a)
    requires a.FatalError? || a.FinishAll? || a.ShutdownAgain?
    ensures Inv(s')
  {
  }

  lemma AgentKeepsInv(s: Reactor, a: AgentAction)
    requires Inv(s) && AgentEnabled(s, a)
    ensures Inv(AgentApply(s, a))
  {
    var s' := AgentApply(s, a);
    match a
    case PollQueue => PollKeepsInv(s, s');
    case ReleaseItem => ReleaseKeepsInv(s, s');
    case HandleMessage(setup, pauseCode, c) => HandleKeepsInv(s, setup, pauseCode, c, s');
    case CurlDone(easy, code, c) => CurlDoneKeepsInv(s, easy, code, c, s');
    case FinishOne(id, c) => FinishOneKeepsInv(s, id, c, s');
    case DrainMessage => DrainKeepsInv(s, s');
    case FatalError(_) => TurnKeepsInv(s, a, s');
    case FinishAll => TurnKeepsInv(s, a, s');
    case ShutdownAgain => TurnKeepsInv(s, a, s');
    case _ => ClosingKeepsInv(s, a, s');
  }

  // ---- runs

  lemma StartInv(capacity: nat)
    requires CapacityAccepted(capacity)
    ensures Inv(Start(capacity))
  {
    Mpsc.InitialInv<Message>(capacity);
    CountZero(Start(capacity).pcs, IsInside);
    InitialProgress();
  }

  ghost predicate StepAt(run: seq<Reactor>, acts: seq<Action>, i: nat)
    requires i < |acts| && |run| == |acts| + 1
  {
    Step(run[i], acts[i], run[i + 1])
  }

  ghost predicate Step(s: Reactor, a: Action, s': Reactor) {
    CanStep(s, a) && s' == Apply(s, a)
  }

  /** Any interleaving of any number of producers with the agent, from a freshly created reactor. */
  ghost predicate IsRun(capacity: nat, run: seq<Reactor>, acts: seq<Action>) {
    && CapacityAccepted(capacity)
    && |run| == |acts| + 1 && run[0] == Start(capacity)
    && forall i :: 0 <= i < |acts| ==> StepAt(run, acts, i)
  }

  lemma StepKeepsInv(s: Reactor, a: Action, s': Reactor)
    requires Inv(s) && Step(s, a, s')
    ensures Inv(s')
  {
    match a
    case Producer(p, step) => ProducerKeepsInv(s, p, step);
    case AgentStep(act) => AgentKeepsInv(s, act);
  }

  lemma StepOfRun(capacity: nat, run: seq<Reactor>, acts: seq<Action>, k: nat, i: nat)
    requires IsRun(capacity, run, acts) && i == k + 1 < |run|
    ensures Step(run[k], acts[k], run[i])
  {
    assert StepAt(run, acts, k);
  }

  lemma {:induction false} RunKeepsInv(capacity: nat, run: seq<Reactor>, acts: seq<Action>, i: nat)
    requires IsRun(capacity, run, acts) && i < |run|
    ensures Inv(run[i])
  {
    if i == 0 {
      StartInv(capacity);
    } else {
      var k := i - 1;
      RunKeepsInv(capacity, run, acts, k);
      StepOfRun(capacity, run, acts, k, i);
      StepKeepsInv(run[k], acts[k], run[i]);
    }
  }

  // ---- what the reactor promises

  /** Safety at every moment: an accepted EXECUTE is untouched, or completed exactly once; never twice, never in
      part. */
  lemma NeverTwice(capacity: nat, run: seq<Reactor>, acts: seq<Action>, i: nat, t: nat)
    requires IsRun(capacity, run, acts) && i < |run|
    requires t < |run[i].q.order| && run[i].q.order[t].Execute?
    ensures var sub := run[i].q.order[t].payload;
            DoneOnce(run[i].agent.ledger, sub) || Untouched(run[i].agent.ledger, sub)
  {
    RunKeepsInv(capacity, run, acts, i);
    OnceOrNot(run[i], t);
  }

  lemma OnceOrNot(s: Reactor, t: nat)
    requires Served(s) && Distinct(s.q.order) && t < |s.q.order| && s.q.order[t].Execute?
    ensures DoneOnce(s.agent.ledger, s.q.order[t].payload) || Untouched(s.agent.ledger, s.q.order[t].payload)
  {
    var n := Handled(s.q, s.hand);
    if t < n {
      assert Accounted(s.agent, s.q.order[t].payload);
    } else {
      UnhandledUntouched(s.q.order, n, s.agent, t);
    }
  }

  /** The main result. Once shutdown is over, under every interleaving of producers, completions, cancels, failed
      resumes, duplicate IDs and set-up failures, each EXECUTE whose enqueue returned OK has had its result set, its
      easy handle destroyed, its streams completed and its waker fired, each exactly once. */
  lemma ExactlyOnce(capacity: nat, run: seq<Reactor>, acts: seq<Action>, i: nat)
    requires IsRun(capacity, run, acts) && i < |run| && run[i].apc.Down?
    ensures forall t :: t in run[i].accepted && run[i].accepted[t].Execute? ==>
              DoneOnce(run[i].agent.ledger, run[i].accepted[t].payload)
    ensures forall t :: 0 <= t < |run[i].q.order| && run[i].q.order[t].Execute? ==>
              DoneOnce(run[i].agent.ledger, run[i].q.order[t].payload)
  {
    RunKeepsInv(capacity, run, acts, i);
    DownIsDone(run[i]);
    assert forall t :: t in run[i].accepted ==> IsTicketOf(run[i].q.order, t, run[i].accepted[t]);
  }

  lemma DownIsDone(s: Reactor)
    requires Served(s) && s.apc.Down?
    ensures forall t :: 0 <= t < |s.q.order| && s.q.order[t].Execute? ==> DoneOnce(s.agent.ledger, s.q.order[t].payload)
  {
    AllDone(s.q.order, s.agent);
  }

  /** A message still owned by its caller, until the call is refused or accepted, has had nothing done to it. */
  lemma RefusedUntouched(capacity: nat, run: seq<Reactor>, acts: seq<Action>, i: nat, p: Pid)
    requires IsRun(capacity, run, acts) && i < |run| && p in run[i].owned && run[i].owned[p].Execute?
    ensures Untouched(run[i].agent.ledger, run[i].owned[p].payload)
  {
    RunKeepsInv(capacity, run, acts, i);
    assert forall t :: 0 <= t < |run[i].q.order| ==> Apart(run[i].q.order[t], run[i].owned[p]);
    ApartUntouched(run[i], run[i].owned[p].payload);
  }

  /** Nothing is ever done to objects that belong to no accepted EXECUTE. */
  lemma OutsidersUntouched(capacity: nat, run: seq<Reactor>, acts: seq<Action>, i: nat, sub: Submission)
    requires IsRun(capacity, run, acts) && i < |run|
    requires ApartFromFirst(sub, run[i].q.order, |run[i].q.order|)
    ensures Untouched(run[i].agent.ledger, sub)
  {
    RunKeepsInv(capacity, run, acts, i);
    ApartUntouched(run[i], sub);
  }

  lemma ApartUntouched(s: Reactor, sub: Submission)
    requires Served(s) && ApartFromFirst(sub, s.q.order, |s.q.order|)
    ensures Untouched(s.agent.ledger, sub)
  {
    assert ApartFromFirst(sub, s.q.order, Handled(s.q, s.hand));
  }

  /** The closer of message_sender_close is past its barrier. */
  predicate CloseReturned(s: Reactor) {
    s.apc.Finishing? || s.apc.Draining? || s.apc.Down?
  }

  lemma ProducerOrder(s: Reactor, p: Pid, a: ProducerAction, s': Reactor)
    requires WellFormed(s.q.mem) && ProducerEnabled(s, p, a) && s' == ProducerApply(s, p, a)
    ensures s'.sender.handleSet == s.sender.handleSet && s.q.order <= s'.q.order
    ensures p !in s.q.pcs ==> s'.q.order == s.q.order
  {
  }

  lemma AgentOrder(s: Reactor, a: AgentAction, s': Reactor)
    requires WellFormed(s.q.mem) && AgentEnabled(s, a) && s' == AgentApply(s, a)
    ensures s'.sender.handleSet ==> s.sender.handleSet
    ensures s'.q.order == s.q.order && s'.pcs == s.pcs && s'.q.pcs == s.q.pcs
  {
  }

  /** What a producer's step leaves alone. */
  lemma ProducerAgent(r: Reactor, p: Pid, step: ProducerAction, r': Reactor)
    requires WellFormed(r.q.mem) && ProducerEnabled(r, p, step) && r' == ProducerApply(r, p, step)
    ensures r'.code == r.code && (r'.apc.Serving? <==> r.apc.Serving?)
    ensures r'.agent == r.agent && r'.hand == r.hand && r'.q.taken == r.q.taken && r'.q.consumer == r.q.consumer
  {
  }

  predicate Handles(act: AgentAction) {
    act.HandleMessage? || act.DrainMessage?
  }

  lemma AgentHandles(r: Reactor, act: AgentAction, r': Reactor)
    requires WellFormed(r.q.mem) && (r.hand.Some? ==> r.q.consumer.Polling?)
    requires AgentEnabled(r, act) && r' == AgentApply(r, act)
    ensures r'.q.order == r.q.order && r'.pcs == r.pcs && r'.q.pcs == r.q.pcs && r'.owned == r.owned
    ensures Handled(r'.q, r'.hand) == Handled(r.q, r.hand) + One(Handles(act))
  {
  }

  lemma SealedStep(s: Reactor, a: Action, s': Reactor)
    requires Inv(s) && Step(s, a, s') && !s.sender.handleSet
    ensures !s'.sender.handleSet && s'.q.order == s.q.order
  {
    NobodyInside(s);
    match a
    case Producer(p, step) => ProducerOrder(s, p, step, s');
    case AgentStep(act) => AgentOrder(s, act, s');
  }

  lemma {:induction false} SealedStays(capacity: nat, run: seq<Reactor>, acts: seq<Action>, i: nat, j: nat)
    requires IsRun(capacity, run, acts) && i <= j < |run| && !run[i].sender.handleSet
    ensures !run[j].sender.handleSet && run[j].q.order == run[i].q.order
    decreases j
  {
    if i < j {
      var k := j - 1;
      SealedStays(capacity, run, acts, i, k);
      RunKeepsInv(capacity, run, acts, k);
      StepOfRun(capacity, run, acts, k, j);
      SealedStep(run[k], acts[k], run[j]);
    }
  }

  /** The close barrier: once message_sender_close has returned, no thread is between enter and leave, none ever is
      again, and the set of accepted messages is final. */
  lemma CloseBarrier(capacity: nat, run: seq<Reactor>, acts: seq<Action>, i: nat, j: nat)
    requires IsRun(capacity, run, acts) && i <= j < |run| && CloseReturned(run[i])
    ensures forall p :: p in run[j].pcs ==> !IsInside(run[j].pcs[p])
    ensures run[j].q.pcs == map[] && run[j].q.order == run[i].q.order
  {
    RunKeepsInv(capacity, run, acts, i);
    SealedStays(capacity, run, acts, i, j);
    RunKeepsInv(capacity, run, acts, j);
    NobodyInside(run[j]);
  }

  /** After the barrier a NULL dequeue means the queue is really empty, and the drain ends only then. */
  lemma NullMeansEmpty(capacity: nat, run: seq<Reactor>, acts: seq<Action>, i: nat)
    requires IsRun(capacity, run, acts) && i < |run| && AgentEnabled(run[i], PollQueue) && !run[i].apc.Serving?
    ensures WellFormed(run[i].q.mem)
    ensures Mpsc.Apply(run[i].q, Poll).consumer.Polling? <==> run[i].q.taken == |run[i].q.order|
  {
    RunKeepsInv(capacity, run, acts, i);
    EmptyMeansDrained(run[i]);
  }

  /** The closer is never stranded: while it sleeps, some thread is still inside, or a last leaver is on its way to
      signal; and the mutex that leaver needs is free. */
  lemma NeverStranded(capacity: nat, run: seq<Reactor>, acts: seq<Action>, i: nat)
    requires IsRun(capacity, run, acts) && i < |run| && run[i].apc.Asleep?
    ensures exists p :: p in run[i].pcs && (IsInside(run[i].pcs[p]) || run[i].pcs[p].Signal?)
    ensures !run[i].sender.mutexHeld
  {
    RunKeepsInv(capacity, run, acts, i);
    SomeoneWillSignal(run[i].sender, run[i].pcs);
  }

  lemma SomeoneWillSignal(sender: Sender, pcs: map<Pid, Pc>)
    requires Barrier(sender, pcs, Asleep)
    ensures exists p :: p in pcs && (IsInside(pcs[p]) || pcs[p].Signal?)
  {
    if Producers(sender.word) != 0 {
      var p := CountWitness(pcs, IsInside);
      assert p in pcs && IsInside(pcs[p]);
    } else {
      var p :| p in pcs && pcs[p].Signal?;
      assert p in pcs;
    }
  }

  /** The last thread to leave a closed sender goes on to signal. */
  lemma LastLeaverSignals(s: Reactor, p: Pid, s': Reactor)
    requires Inv(s) && Closed(s.sender.word) && ProducerEnabled(s, p, LeaveSender)
    requires s' == ProducerApply(s, p, LeaveSender) && Count(s'.pcs, IsInside) == 0
    ensures p in s'.pcs && s'.pcs[p].Signal?
  {
    CountRemove(s.pcs, p, IsInside);
  }

  /** The notification always finds the async handle: closing cannot have cleared it, nor the agent gone. */
  lemma NotifyFindsHandle(capacity: nat, run: seq<Reactor>, acts: seq<Action>, i: nat, p: Pid)
    requires IsRun(capacity, run, acts) && i < |run| && p in run[i].pcs && run[i].pcs[p].Notify?
    ensures run[i].sender.handleSet && run[i].agent.up
  {
    RunKeepsInv(capacity, run, acts, i);
    InsideKeepsUp(run[i], p);
  }

  // ---- order across calls

  predicate TicketsFrom(s: Reactor, p: Pid, bound: nat) {
    p in s.pcs ==>
      && (s.pcs[p].Inside? && p in s.q.pcs && s.q.pcs[p].HasTicket() ==> s.q.pcs[p].ticket >= bound)
      && (s.pcs[p].Notify? ==> s.pcs[p].ticket >= bound)
      && ((s.pcs[p].Leave? || s.pcs[p].Signal?) && s.pcs[p].outcome.Some? ==> s.pcs[p].outcome.value >= bound)
  }

  lemma StepGrows(s: Reactor, a: Action, s': Reactor)
    requires Step(s, a, s')
    ensures s.q.order <= s'.q.order
  {
    match a
    case Producer(p, step) => ProducerOrder(s, p, step, s');
    case AgentStep(act) => AgentOrder(s, act, s');
  }

  /** Steps inside the queue keep, or issue, tickets from the bound up. */
  lemma QueueTicketsFrom(s: Reactor, p: Pid, a: ProducerAction, s': Reactor, bound: nat)
    requires WellFormed(s.q.mem) && (a.QueueOp? || a.FinishQueue?) && ProducerEnabled(s, p, a)
    requires s' == ProducerApply(s, p, a)
    requires bound <= |s.q.order| && TicketsFrom(s, p, bound)
    ensures TicketsFrom(s', p, bound)
  {
  }

  lemma OwnTicketsFrom(s: Reactor, p: Pid, a: ProducerAction, s': Reactor, bound: nat)
    requires WellFormed(s.q.mem) && !a.QueueOp? && !a.FinishQueue? && ProducerEnabled(s, p, a)
    requires s' == ProducerApply(s, p, a)
    requires bound <= |s.q.order| && TicketsFrom(s, p, bound)
    ensures TicketsFrom(s', p, bound)
  {
  }

  /** A producer's step concerns no other thread. */
  ghost predicate OthersStill(p: Pid, r: Reactor, r': Reactor) {
    forall q :: q != p ==>
      && (q in r'.pcs <==> q in r.pcs) && (q in r.pcs ==> r'.pcs[q] == r.pcs[q])
      && (q in r'.q.pcs <==> q in r.q.pcs) && (q in r.q.pcs ==> r'.q.pcs[q] == r.q.pcs[q])
  }

  lemma QueueOthers(r: Reactor, p: Pid, step: ProducerAction, r': Reactor)
    requires WellFormed(r.q.mem) && ProducerEnabled(r, p, step) && r' == ProducerApply(r, p, step)
    requires step.QueueOp? || step.FinishQueue?
    ensures OthersStill(p, r, r')
  {
  }

  lemma EnterOthers(r: Reactor, p: Pid, step: ProducerAction, r': Reactor)
    requires WellFormed(r.q.mem) && ProducerEnabled(r, p, step) && r' == ProducerApply(r, p, step)
    requires step.LoadState? || step.TryEnter? || step.CheckClosed?
    ensures OthersStill(p, r, r')
  {
  }

  lemma LeaveOthers(r: Reactor, p: Pid, step: ProducerAction, r': Reactor)
    requires WellFormed(r.q.mem) && ProducerEnabled(r, p, step) && r' == ProducerApply(r, p, step)
    requires step.Begin? || step.NotifyAgent? || step.LeaveSender? || step.SignalCloser?
    ensures OthersStill(p, r, r')
  {
  }

  lemma OthersUnmoved(r: Reactor, p: Pid, step: ProducerAction, r': Reactor)
    requires WellFormed(r.q.mem) && ProducerEnabled(r, p, step) && r' == ProducerApply(r, p, step)
    ensures OthersStill(p, r, r')
  {
    if step.QueueOp? || step.FinishQueue? {
      QueueOthers(r, p, step, r');
    } else if step.LoadState? || step.TryEnter? || step.CheckClosed? {
      EnterOthers(r, p, step, r');
    } else {
      LeaveOthers(r, p, step, r');
    }
  }

  lemma ProducerTicketsFrom(s: Reactor, r: Pid, a: ProducerAction, s': Reactor, p: Pid, bound: nat)
    requires WellFormed(s.q.mem) && ProducerEnabled(s, r, a) && s' == ProducerApply(s, r, a)
    requires bound <= |s.q.order| && TicketsFrom(s, p, bound)
    ensures TicketsFrom(s', p, bound)
  {
    if p != r {
      OthersUnmoved(s, r, a, s');
    } else if a.QueueOp? || a.FinishQueue? {
      QueueTicketsFrom(s, p, a, s', bound);
    } else {
      OwnTicketsFrom(s, p, a, s', bound);
    }
  }

  lemma StepTicketsFrom(s: Reactor, a: Action, s': Reactor, p: Pid, bound: nat)
    requires Step(s, a, s') && bound <= |s.q.order| && TicketsFrom(s, p, bound)
    ensures TicketsFrom(s', p, bound)
  {
    match a
    case Producer(r, step) => ProducerTicketsFrom(s, r, step, s', p, bound);
    case AgentStep(act) => AgentOrder(s, act, s');
  }

  lemma {:induction false} RunGrows(capacity: nat, run: seq<Reactor>, acts: seq<Action>, i: nat, j: nat)
    requires IsRun(capacity, run, acts) && i <= j < |run|
    ensures run[i].q.order <= run[j].q.order
    decreases j
  {
    if i < j {
      var k := j - 1;
      RunGrows(capacity, run, acts, i, k);
      StepOfRun(capacity, run, acts, k, j);
      StepGrows(run[k], acts[k], run[j]);
    }
  }

  /** A call begun after state i gets a later ticket than every call that had returned by then. */
  lemma {:induction false} LaterCallLaterTicket(capacity: nat, run: seq<Reactor>, acts: seq<Action>, i: nat, j: nat,
                                                p: Pid)
    requires IsRun(capacity, run, acts) && i <= j < |run| && p !in run[i].pcs
    ensures TicketsFrom(run[j], p, |run[i].q.order|)
    decreases j
  {
    if i < j {
      var k := j - 1;
      LaterCallLaterTicket(capacity, run, acts, i, k, p);
      StepOfRun(capacity, run, acts, k, j);
      RunGrows(capacity, run, acts, i, k);
      StepTicketsFrom(run[k], acts[k], run[j], p, |run[i].q.order|);
    }
  }

  /** Cancellation never overtakes. The EXECUTE's call had returned OK in state i; p then began its CANCEL of the same
      ID, which was given ticket u. Once the agent has handled that ticket, the transfer has completed. */
  lemma CancelNeverOvertakes(capacity: nat, run: seq<Reactor>, acts: seq<Action>, i: nat, j: nat, k: nat, p: Pid,
                             t: nat)
    requires IsRun(capacity, run, acts) && i <= j <= k < |run|
    requires t in run[i].accepted && run[i].accepted[t].Execute?
    requires p !in run[i].pcs && p in run[j].pcs && run[j].pcs[p].Notify?
    requires run[j].pcs[p].msg == Cancel(run[i].accepted[t].payload.id)
    requires run[j].pcs[p].ticket < Handled(run[k].q, run[k].hand)
    ensures DoneOnce(run[k].agent.ledger, run[i].accepted[t].payload)
  {
    var u := run[j].pcs[p].ticket;
    AcceptedInOrder(capacity, run, acts, i, t);
    NotifiedInOrder(capacity, run, acts, j, p);
    LaterCallLaterTicket(capacity, run, acts, i, j, p);
    RunGrows(capacity, run, acts, i, k);
    RunGrows(capacity, run, acts, j, k);
    assert run[k].q.order[t] == run[i].accepted[t] && run[k].q.order[u] == run[j].pcs[p].msg && t < u;
    RunKeepsInv(capacity, run, acts, k);
    HandledCancel(run[k], t, u);
  }

  lemma AcceptedInOrder(capacity: nat, run: seq<Reactor>, acts: seq<Action>, i: nat, t: nat)
    requires IsRun(capacity, run, acts) && i < |run| && t in run[i].accepted
    ensures IsTicketOf(run[i].q.order, t, run[i].accepted[t])
  {
    RunKeepsInv(capacity, run, acts, i);
  }

  lemma NotifiedInOrder(capacity: nat, run: seq<Reactor>, acts: seq<Action>, j: nat, p: Pid)
    requires IsRun(capacity, run, acts) && j < |run| && p in run[j].pcs && run[j].pcs[p].Notify?
    ensures IsTicketOf(run[j].q.order, run[j].pcs[p].ticket, run[j].pcs[p].msg)
  {
    RunKeepsInv(capacity, run, acts, j);
    assert TicketsOf(run[j].pcs[p], run[j].q.order);
  }

  lemma HandledCancel(s: Reactor, t: nat, u: nat)
    requires Served(s) && t < u < Handled(s.q, s.hand) <= |s.q.order|
    requires s.q.order[t].Execute? && s.q.order[u] == Cancel(s.q.order[t].payload.id)
    ensures DoneOnce(s.agent.ledger, s.q.order[t].payload)
  {
  }

  /** A call is refused only for cause: the sender is closed, or saturated, or memory is short, or the queue refused
      it. */
  lemma RefusedForCause(s: Reactor, p: Pid, a: ProducerAction, s': Reactor)
    requires WellFormed(s.q.mem) && ProducerEnabled(s, p, a) && s' == ProducerApply(s, p, a) && p in s.pcs
    ensures p !in s'.pcs && a.CheckClosed? ==> Closed(s.sender.word) || !a.memory
    ensures p !in s'.pcs && a.TryEnter? ==>
              Closed(s.pcs[p].seen) || Producers(s.pcs[p].seen) == SENDER_PRODUCER_MASK
    ensures p !in s'.pcs ==> a.CheckClosed? || a.TryEnter? || a.LeaveSender? || a.SignalCloser?
    ensures a.FinishQueue? && p in s.q.pcs ==>
              (s'.pcs[p] == Leave(s.pcs[p].msg, None) <==> s.q.pcs[p].Refused?)
  {
  }
}

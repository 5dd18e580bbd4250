/** The two places where C keeps a waker, and the guard that each of them really has: a header block latches, a stream
    is locked. Each is run together with the ownership machine of Waker. */
module WakerCells {
  import opened Messages
  import H = Headers
  import P = StreamProtocol
  import S = Stream
  import W = Waker

  // ---- header blocks

  /** Any number of threads may wait for one header block; `gone` once it has been destroyed. */
  datatype HeaderCell = HeaderCell(h: H.Headers, s: W.State, gone: bool)

  datatype HeaderAction =
    | Offer(p: Pid, addr: W.Address)
    | Wait(p: Pid)
    | CancelWait(p: Pid)
    | Happen(e: H.Event, c: Pid)
    | Destroy(c: Pid)
    | Alone(a: W.Action)

  /** What a thread does without the block's mutex. */
  predicate IsAlone(a: W.Action) {
    a.Interrupt? || a.Awake? || a.Free? || a.Fire?
  }

  predicate HeaderEnabled(cell: HeaderCell, a: HeaderAction) {
    match a
    case Offer(p, addr) => W.Enabled(cell.s, W.Create(p, addr))
    case Wait(p) => W.Enabled(cell.s, W.Register(p, true)) && !cell.gone
    case CancelWait(p) => W.Enabled(cell.s, W.Unregister(p))
    case Happen(e, c) => (e.Line? || e.Body? || e.Complete?) && c !in cell.s.inFlight && !cell.gone
    case Destroy(c) => c !in cell.s.inFlight && !cell.gone
    case Alone(b) => IsAlone(b) && W.Enabled(cell.s, b)
  }

  /** C answered Ready or Registered: the pointer stays with the thread, or goes to C. */
  function Answered(s: W.State, p: Pid, registered: bool): W.State
    requires p in s.clients
  {
    var me := s.clients[p];
    if registered
    then s.(cell := Some(me.addr), live := W.Placed(s.live, me.addr, W.Stored(p)),
            clients := s.clients[p := W.Blocked(me.offer, me.addr)])
    else s.(clients := s.clients[p := W.Freeing(me.offer, me.addr)])
  }

  /** C answered that it gave the pointer back, or that it had none. */
  function Returned(s: W.State, p: Pid, returned: bool): W.State
    requires p in s.clients
  {
    var me := s.clients[p];
    if returned
    then s.(cell := None, live := W.Placed(s.live, me.addr, W.WithThread(p)),
            clients := s.clients[p := W.Freeing(me.offer, me.addr)])
    else s.(clients := s.clients - {p})
  }

  /** A waiter that a critical section takes out of its cell is fired by that thread afterwards. */
  function Cleared(s: W.State, before: Option<Waker>, after: Option<Waker>, c: Pid): W.State {
    if before.Some? && after.None? && W.Enabled(s, W.Detach(c)) then W.Apply(s, W.Detach(c)) else s
  }

  function HeaderApply(cell: HeaderCell, a: HeaderAction): HeaderCell
    requires HeaderEnabled(cell, a)
  {
    match a
    case Offer(p, addr) => cell.(s := W.Apply(cell.s, W.Create(p, addr)))
    case Wait(p) =>
      var step := H.Wait(cell.h, cell.s.clients[p].addr);
      cell.(h := step.h, s := Answered(cell.s, p, step.answer.Registered?))
    case CancelWait(p) =>
      var addr := cell.s.clients[p].addr;
      cell.(h := H.CancelWait(cell.h, addr), s := Returned(cell.s, p, cell.h.waiter == Some(addr)))
    case Happen(e, c) =>
      var h' := H.Apply(cell.h, e);
      cell.(h := h', s := Cleared(cell.s, cell.h.waiter, h'.waiter, c))
    case Destroy(c) =>
      HeaderCell(cell.h.(waiter := None), Cleared(cell.s, cell.h.waiter, None, c), true)
    case Alone(b) => cell.(s := W.Apply(cell.s, b))
  }

  /** The latch is the block's own ready flag: until it is destroyed, no critical section but cancelling takes a waiter
      without setting it. */
  ghost predicate HeaderInv(cell: HeaderCell) {
    && W.Inv(cell.s) && cell.s.cell == cell.h.waiter
    && cell.s.latching && (cell.s.latched ==> cell.h.ready || cell.gone)
  }

  lemma HeaderStepKeepsInv(cell: HeaderCell, a: HeaderAction)
    requires HeaderInv(cell) && HeaderEnabled(cell, a)
    ensures HeaderInv(HeaderApply(cell, a))
  {
    match a
    case Offer(p, addr) => W.StepKeepsInv(cell.s, W.Create(p, addr), W.Apply(cell.s, W.Create(p, addr)));
    case Wait(p) => HeaderWait(cell, p);
    case CancelWait(p) => HeaderCancels(cell, p);
    case Happen(e, c) => HeaderHappens(cell, e, c);
    case Destroy(c) => HeaderDestroyed(cell, c);
    case Alone(b) => W.StepKeepsInv(cell.s, b, W.Apply(cell.s, b));
  }

  lemma HeaderWait(cell: HeaderCell, p: Pid)
    requires HeaderInv(cell) && HeaderEnabled(cell, Wait(p))
    ensures HeaderInv(HeaderApply(cell, Wait(p)))
  {
    var registers := W.Register(p, !cell.h.ready);
    W.StepKeepsInv(cell.s, registers, W.Apply(cell.s, registers));
  }

  lemma HeaderCancels(cell: HeaderCell, p: Pid)
    requires HeaderInv(cell) && HeaderEnabled(cell, CancelWait(p))
    ensures HeaderInv(HeaderApply(cell, CancelWait(p)))
  {
    W.StepKeepsInv(cell.s, W.Unregister(p), W.Apply(cell.s, W.Unregister(p)));
  }

  lemma HeaderDestroyed(cell: HeaderCell, c: Pid)
    requires HeaderInv(cell) && HeaderEnabled(cell, Destroy(c))
    ensures HeaderInv(HeaderApply(cell, Destroy(c)))
  {
    if cell.s.cell.Some? {
      W.StepKeepsInv(cell.s, W.Detach(c), W.Apply(cell.s, W.Detach(c)));
    }
  }

  lemma HeaderHappens(cell: HeaderCell, e: H.Event, c: Pid)
    requires HeaderInv(cell) && HeaderEnabled(cell, Happen(e, c))
    ensures HeaderInv(HeaderApply(cell, Happen(e, c)))
  {
    TakingSetsReady(cell.h, e);
    H.ReadyStays(cell.h, e);
    if cell.s.cell.Some? {
      W.StepKeepsInv(cell.s, W.Detach(c), W.Apply(cell.s, W.Detach(c)));
    }
  }

  lemma TakingSetsReady(h: H.Headers, e: H.Event)
    requires e.Line? || e.Body? || e.Complete?
    ensures H.Apply(h, e).waiter == h.waiter || (H.Apply(h, e).waiter.None? && H.Apply(h, e).ready)
  {
  }

  ghost predicate HeaderStepAt(run: seq<HeaderCell>, acts: seq<HeaderAction>, i: nat)
    requires i < |acts| && |run| == |acts| + 1
  {
    HeaderEnabled(run[i], acts[i]) && run[i + 1] == HeaderApply(run[i], acts[i])
  }

  ghost predicate IsHeaderRun(run: seq<HeaderCell>, acts: seq<HeaderAction>) {
    && |run| == |acts| + 1 && run[0] == HeaderCell(H.FRESH, W.Initial(false, true), false)
    && forall i :: 0 <= i < |acts| ==> HeaderStepAt(run, acts, i)
  }

  lemma {:induction false} HeaderRunKeepsInv(run: seq<HeaderCell>, acts: seq<HeaderAction>, i: nat)
    requires IsHeaderRun(run, acts) && i < |run|
    ensures HeaderInv(run[i])
  {
    if i == 0 {
      W.StartInv(false, true);
    } else {
      var k := i - 1;
      HeaderRunKeepsInv(run, acts, k);
      assert HeaderStepAt(run, acts, k);
      HeaderStepKeepsInv(run[k], acts[k]);
    }
  }

  /** Each offer was consumed at most once, and exactly once if no thread, no cell and no C thread holds it any more. */
  ghost predicate Linear(s: W.State) {
    && !s.fault
    && (forall offer: nat :: s.fired[offer] + s.freed[offer] <= 1)
    && (s.clients == map[] && s.cell.None? && s.inFlight == map[] ==>
          forall offer: nat :: offer < s.next ==> s.fired[offer] + s.freed[offer] == 1)
  }

  /** Under every race of registering, cancelling, header lines, body start, completion and destruction, a header
      block's wakers are each consumed exactly once, and whoever is blocked has its waker stored or on its way. */
  lemma HeaderWakersLinear(run: seq<HeaderCell>, acts: seq<HeaderAction>, i: nat, p: Pid)
    requires IsHeaderRun(run, acts) && i < |run|
    ensures Linear(run[i].s)
    ensures var s := run[i].s;
            p in s.clients && s.clients[p].Blocked? ==>
              || s.fired[s.clients[p].offer] == 1
              || (run[i].h.waiter == Some(s.clients[p].addr) && !run[i].h.ready)
              || exists c :: c in s.inFlight && s.inFlight[c] == s.clients[p].addr
  {
    HeaderRunKeepsInv(run, acts, i);
    W.NothingLeft(run[i].s);
    if p in run[i].s.clients && run[i].s.clients[p].Blocked? {
      W.BlockedIsHeld(run[i].s, p);
      WaiterNotReady(run, acts, i);
    }
  }

  lemma {:induction false} WaiterNotReady(run: seq<HeaderCell>, acts: seq<HeaderAction>, i: nat)
    requires IsHeaderRun(run, acts) && i < |run|
    ensures run[i].h.waiter.Some? ==> !run[i].h.ready
  {
    if i > 0 {
      var k := i - 1;
      WaiterNotReady(run, acts, k);
      assert HeaderStepAt(run, acts, k);
    }
  }

  // ---- streams

  /** One direction of a stream, with the threads that wait for it: its protocol has one client at a time, the holder
      of the stream's lock. */
  datatype StreamCell = StreamCell(t: P.State, s: W.State)

  datatype StreamAction =
    | Await(p: Pid, w: Waker)
    | Wake(p: Pid)
    | Interrupt(p: Pid)
    | Other(a: P.Action, c: Pid)
    | DestroyStream(c: Pid)
    | Fire(c: Pid)

  function Waiting(t: P.State): Option<Waker> {
    if t.s.kind == S.Download then t.s.readWaiter else t.s.writeWaiter
  }

  predicate StreamEnabled(cell: StreamCell, a: StreamAction) {
    match a
    case Await(p, w) => P.Enabled(cell.t, P.ByClient(P.Wait(w))) && p !in cell.s.clients && w !in cell.s.live
    case Wake(p) => P.Enabled(cell.t, P.ByClient(P.Wake)) && W.Enabled(cell.s, W.Awake(p))
    case Interrupt(p) => P.Enabled(cell.t, P.ByClient(P.Interrupt)) && W.Enabled(cell.s, W.Interrupt(p))
    case Other(b, c) =>
      P.Enabled(cell.t, b) && c !in cell.s.inFlight
      && (b.ByClient? ==> !b.c.Wait? && !b.c.Wake? && !b.c.Interrupt?)
    case DestroyStream(c) => c !in cell.s.inFlight
    case Fire(c) => W.Enabled(cell.s, W.Fire(c))
  }

  /** awaitOneShot makes a pointer, offers it, and frees it unless it was registered. */
  function Offered(s: W.State, p: Pid, w: Waker, registered: bool): W.State
    requires p !in s.clients && w !in s.live
  {
    var made := s.(clients := s.clients[p := W.Offering(s.next, w)],
                   live := s.live[w := W.Token(s.next, W.WithThread(p))],
                   home := s.home[s.next := w], next := s.next + 1);
    var answered := Answered(made, p, registered);
    if registered then answered else W.Apply(answered, W.Free(p))
  }

  /** Interrupted, it asks for the pointer back, and frees it if it gets it. */
  function Withdrawn(s: W.State, p: Pid, returned: bool): W.State
    requires p in s.clients
  {
    var back := Returned(s, p, returned);
    if returned then W.Apply(back, W.Free(p)) else back
  }

  function StreamApply(cell: StreamCell, a: StreamAction): StreamCell
    requires StreamEnabled(cell, a)
  {
    match a
    case Await(p, w) =>
      var t' := P.Apply(cell.t, P.ByClient(P.Wait(w)));
      StreamCell(t', Offered(cell.s, p, w, t'.client.Blocked?))
    case Wake(p) => StreamCell(P.Apply(cell.t, P.ByClient(P.Wake)), W.Apply(cell.s, W.Awake(p)))
    case Interrupt(p) =>
      StreamCell(P.Apply(cell.t, P.ByClient(P.Interrupt)),
                 Withdrawn(cell.s, p, Waiting(cell.t) == Some(cell.t.client.w)))
    case Other(b, c) =>
      var t' := P.Apply(cell.t, b);
      StreamCell(t', Cleared(cell.s, Waiting(cell.t), Waiting(t'), c))
    case DestroyStream(c) =>
      var t' := cell.t.(s := S.Destroy(cell.t.s));
      StreamCell(t', Cleared(cell.s, Waiting(cell.t), Waiting(t'), c))
    case Fire(c) => cell.(s := W.Apply(cell.s, W.Fire(c)))
  }

  /** The lock: a thread of the ownership machine exists exactly while the protocol's client is blocked, and it is
      that one. */
  ghost predicate Sole(t: P.State, s: W.State) {
    if t.client.Blocked?
    then exists p :: s.clients.Keys == {p} && s.clients[p].Blocked? && s.clients[p].addr == t.client.w
    else s.clients == map[]
  }

  ghost predicate StreamInv(cell: StreamCell) {
    && P.Inv(cell.t) && W.Inv(cell.s)
    && cell.s.exclusive && !cell.s.latching && !cell.s.latched
    && cell.s.cell == Waiting(cell.t) && Sole(cell.t, cell.s)
  }

  /** Create, answer and, if C did not keep it, free: three steps of the ownership machine. */
  lemma OfferSteps(s: W.State, p: Pid, w: Waker, registered: bool, made: W.State, answered: W.State, s': W.State)
    requires s.exclusive && !s.latched && s.clients == map[] && w !in s.live && (registered ==> s.cell.None?)
    requires made == W.Apply(s, W.Create(p, w)) && answered == W.Apply(made, W.Register(p, registered))
    requires s' == if registered then answered else W.Apply(answered, W.Free(p))
    ensures Offered(s, p, w, registered) == s'
    ensures s'.cell == (if registered then Some(w) else s.cell)
    ensures s'.clients == (if registered then map[p := W.Blocked(s.next, w)] else map[])
    ensures s'.exclusive == s.exclusive && s'.latching == s.latching && s'.latched == s.latched
  {
  }

  lemma OfferKeeps(s: W.State, p: Pid, w: Waker, registered: bool)
    requires W.Inv(s) && s.exclusive && !s.latched && s.clients == map[] && w !in s.live
    requires (registered ==> s.cell.None?)
    ensures var s' := Offered(s, p, w, registered);
            && W.Inv(s') && s'.exclusive == s.exclusive && s'.latching == s.latching && s'.latched == s.latched
            && s'.cell == (if registered then Some(w) else s.cell)
            && s'.clients == (if registered then map[p := W.Blocked(s.next, w)] else map[])
  {
    var made := W.Apply(s, W.Create(p, w));
    W.StepKeepsInv(s, W.Create(p, w), made);
    var answered := W.Apply(made, W.Register(p, registered));
    W.StepKeepsInv(made, W.Register(p, registered), answered);
    if !registered {
      W.StepKeepsInv(answered, W.Free(p), W.Apply(answered, W.Free(p)));
    }
    OfferSteps(s, p, w, registered, made, answered, if registered then answered else W.Apply(answered, W.Free(p)));
  }

  lemma WithdrawSteps(s: W.State, p: Pid, asking: W.State, back: W.State, s': W.State)
    requires s.clients.Keys == {p} && s.clients[p].Blocked?
    requires asking == W.Apply(s, W.Interrupt(p)) && back == W.Apply(asking, W.Unregister(p))
    requires s' == if s.cell == Some(s.clients[p].addr) then W.Apply(back, W.Free(p)) else back
    ensures Withdrawn(s, p, s.cell == Some(s.clients[p].addr)) == s'
    ensures s'.cell == (if s.cell == Some(s.clients[p].addr) then None else s.cell) && s'.clients == map[]
    ensures s'.exclusive == s.exclusive && s'.latching == s.latching && s'.latched == s.latched
  {
    var me := s.clients[p];
    var leaving, freeing := W.Unregistering(me.offer, me.addr), W.Freeing(me.offer, me.addr);
    assert s.clients[p := leaving][p := freeing] == s.clients[p := freeing];
  }

  lemma WithdrawKeeps(s: W.State, p: Pid)
    requires W.Inv(s) && s.clients.Keys == {p} && s.clients[p].Blocked?
    ensures var s' := Withdrawn(s, p, s.cell == Some(s.clients[p].addr));
            && W.Inv(s') && s'.exclusive == s.exclusive && s'.latching == s.latching && s'.latched == s.latched
            && s'.cell == (if s.cell == Some(s.clients[p].addr) then None else s.cell) && s'.clients == map[]
  {
    var asking := W.Apply(s, W.Interrupt(p));
    W.StepKeepsInv(s, W.Interrupt(p), asking);
    var back := W.Apply(asking, W.Unregister(p));
    W.StepKeepsInv(asking, W.Unregister(p), back);
    if s.cell == Some(s.clients[p].addr) {
      W.StepKeepsInv(back, W.Free(p), W.Apply(back, W.Free(p)));
    }
    WithdrawSteps(s, p, asking, back, if s.cell == Some(s.clients[p].addr) then W.Apply(back, W.Free(p)) else back);
  }

  /** Registering stores the waker exactly when the client is then blocked. */
  lemma WaitStores(t: P.State, w: Waker, t': P.State)
    requires P.Inv(t) && t.client.Registering? && t' == P.Await(t, w)
    ensures Waiting(t).None?
    ensures if t'.client.Blocked? then t'.client.w == w && Waiting(t') == Some(w) else Waiting(t').None?
  {
    P.WaitEffect(t, w);
  }

  /** Whatever else happens, a waiter stays or is taken, and a blocked client stays blocked. */
  predicate Stays(t: P.State, t': P.State) {
    && (Waiting(t') == Waiting(t) || Waiting(t').None?)
    && (t'.client.Blocked? <==> t.client.Blocked?) && (t.client.Blocked? ==> t'.client.w == t.client.w)
  }

  lemma CallbackStays(t: P.State, a: P.AgentAction, t': P.State)
    requires P.AgentEnabled(t, a) && t' == P.AgentApply(t, a) && (a.CallDownload? || a.CallUpload?)
    ensures Stays(t, t')
  {
  }

  lemma TurnStays(t: P.State, a: P.AgentAction, t': P.State)
    requires P.AgentEnabled(t, a) && t' == P.AgentApply(t, a) && !a.CallDownload? && !a.CallUpload?
    ensures Stays(t, t')
  {
  }

  lemma AgentStays(t: P.State, a: P.AgentAction, t': P.State)
    requires P.AgentEnabled(t, a) && t' == P.AgentApply(t, a)
    ensures Stays(t, t')
  {
    if a.CallDownload? || a.CallUpload? {
      CallbackStays(t, a, t');
    } else {
      TurnStays(t, a, t');
    }
  }

  lemma CloserStays(t: P.State, p: Pid, d: P.CloserAction, t': P.State)
    requires P.CloserEnabled(t, p, d) && t' == P.CloserApply(t, p, d)
    ensures Stays(t, t')
  {
  }

  lemma AttemptStays(t: P.State, memory: bool, t': P.State)
    requires t.client.Trying? && t' == P.Attempt(t, memory)
    ensures Stays(t, t')
  {
    match t.client.call
    case Read => P.ReadEffect(t);
    case Write(data) => P.WriteEffect(t, data, memory);
    case Finish =>
  }

  lemma ReplyStays(t: P.State, call: P.Call, rewait: bool, reply: P.Reply)
    requires !t.client.Blocked?
    ensures Stays(t, P.AfterReply(t, call, rewait, reply))
  {
  }

  lemma TakeStays(t: P.State, call: P.Call, rewait: bool)
    requires !t.client.Blocked?
    ensures Stays(t, P.AfterTake(t, call, rewait))
  {
  }

  lemma MoveStays(t: P.State, a: P.ClientAction, t': P.State)
    requires P.ClientEnabled(t, a) && t' == P.ClientApply(t, a)
    requires a.Begin? || a.Abandon? || a.Restore? || a.GiveUp?
    ensures Stays(t, t')
  {
  }

  lemma OtherStays(t: P.State, b: P.Action, t': P.State)
    requires P.Enabled(t, b) && t' == P.Apply(t, b)
    requires b.ByClient? ==> !b.c.Wait? && !b.c.Wake? && !b.c.Interrupt?
    ensures Stays(t, t')
  {
    match b
    case ByAgent(a) => AgentStays(t, a, t');
    case ByCloser(p, d) => CloserStays(t, p, d, t');
    case ByClient(a) =>
      match a {
        case Try(memory) => AttemptStays(t, memory, t');
        case Flush => TakeStays(t, t.client.call, t.client.rewait);
        case SendResume(reply) => ReplyStays(t, t.client.call, t.client.rewait, reply);
        case _ => MoveStays(t, a, t');
      }
  }

  lemma AwaitKeepsInv(cell: StreamCell, p: Pid, w: Waker)
    requires StreamInv(cell) && StreamEnabled(cell, Await(p, w))
    ensures StreamInv(StreamApply(cell, Await(p, w)))
  {
    var act := P.ByClient(P.Wait(w));
    var t', s := P.Apply(cell.t, act), cell.s;
    P.StepKeepsInv(cell.t, act, t');
    WaitStores(cell.t, w, t');
    var registered := t'.client.Blocked?;
    OfferKeeps(s, p, w, registered);
  }

  lemma WakeKeepsInv(cell: StreamCell, p: Pid)
    requires StreamInv(cell) && StreamEnabled(cell, Wake(p))
    ensures StreamInv(StreamApply(cell, Wake(p)))
  {
    P.StepKeepsInv(cell.t, P.ByClient(P.Wake), P.Apply(cell.t, P.ByClient(P.Wake)));
    W.StepKeepsInv(cell.s, W.Awake(p), W.Apply(cell.s, W.Awake(p)));
    assert cell.s.clients.Keys == {p};
    assert cell.s.clients - {p} == map[];
  }

  lemma InterruptStores(t: P.State, t': P.State)
    requires P.Inv(t) && P.ClientEnabled(t, P.Interrupt) && t' == P.ClientApply(t, P.Interrupt)
    ensures Waiting(t') == (if Waiting(t) == Some(t.client.w) then None else Waiting(t)) && t'.client.Free?
  {
  }

  lemma InterruptKeepsInv(cell: StreamCell, p: Pid)
    requires StreamInv(cell) && StreamEnabled(cell, Interrupt(p))
    ensures StreamInv(StreamApply(cell, Interrupt(p)))
  {
    var s, t' := cell.s, P.Apply(cell.t, P.ByClient(P.Interrupt));
    P.StepKeepsInv(cell.t, P.ByClient(P.Interrupt), t');
    InterruptStores(cell.t, t');
    assert s.clients.Keys == {p} && s.clients[p].addr == cell.t.client.w;
    WithdrawKeeps(s, p);
  }

  lemma OtherKeepsInv(cell: StreamCell, b: P.Action, c: Pid)
    requires StreamInv(cell) && StreamEnabled(cell, Other(b, c))
    ensures StreamInv(StreamApply(cell, Other(b, c)))
  {
    var t' := P.Apply(cell.t, b);
    P.StepKeepsInv(cell.t, b, t');
    OtherStays(cell.t, b, t');
    if cell.s.cell.Some? {
      W.StepKeepsInv(cell.s, W.Detach(c), W.Apply(cell.s, W.Detach(c)));
    }
  }

  /** Destroying a stream empties and closes it, which every part of its protocol can bear. */
  lemma DestroyedKeepsInv(t: P.State)
    requires P.Inv(t)
    ensures P.Inv(t.(s := S.Destroy(t.s)))
  {
  }

  lemma DestroyKeepsInv(cell: StreamCell, c: Pid)
    requires StreamInv(cell) && StreamEnabled(cell, DestroyStream(c))
    ensures StreamInv(StreamApply(cell, DestroyStream(c)))
  {
    DestroyedKeepsInv(cell.t);
    if cell.s.cell.Some? {
      W.StepKeepsInv(cell.s, W.Detach(c), W.Apply(cell.s, W.Detach(c)));
    }
  }

  lemma StreamStepKeepsInv(cell: StreamCell, a: StreamAction)
    requires StreamInv(cell) && StreamEnabled(cell, a)
    ensures StreamInv(StreamApply(cell, a))
  {
    match a
    case Await(p, w) => AwaitKeepsInv(cell, p, w);
    case Wake(p) => WakeKeepsInv(cell, p);
    case Interrupt(p) => InterruptKeepsInv(cell, p);
    case Other(b, c) => OtherKeepsInv(cell, b, c);
    case DestroyStream(c) => DestroyKeepsInv(cell, c);
    case Fire(c) => W.StepKeepsInv(cell.s, W.Fire(c), W.Apply(cell.s, W.Fire(c)));
  }

  ghost predicate StreamStepAt(run: seq<StreamCell>, acts: seq<StreamAction>, i: nat)
    requires i < |acts| && |run| == |acts| + 1
  {
    StreamEnabled(run[i], acts[i]) && run[i + 1] == StreamApply(run[i], acts[i])
  }

  ghost predicate IsStreamRun(run: seq<StreamCell>, acts: seq<StreamAction>) {
    && |run| == |acts| + 1
    && (exists kind, capacity :: capacity > 0 && run[0] == StreamCell(P.Start(kind, capacity), W.Initial(true, false)))
    && forall i :: 0 <= i < |acts| ==> StreamStepAt(run, acts, i)
  }

  lemma {:induction false} StreamRunKeepsInv(run: seq<StreamCell>, acts: seq<StreamAction>, i: nat)
    requires IsStreamRun(run, acts) && i < |run|
    ensures StreamInv(run[i])
  {
    if i == 0 {
      var kind, capacity :| capacity > 0 && run[0] == StreamCell(P.Start(kind, capacity), W.Initial(true, false));
      P.StartInv(kind, capacity);
      W.StartInv(true, false);
    } else {
      var k := i - 1;
      StreamRunKeepsInv(run, acts, k);
      assert StreamStepAt(run, acts, k);
      StreamStepKeepsInv(run[k], acts[k]);
    }
  }

  /** The blocked thread's waker was fired, is stored, or is about to be fired. */
  ghost predicate Held(t: P.State, s: W.State, p: Pid)
    requires t.client.Blocked? && p in s.clients
  {
    || s.fired[s.clients[p].offer] == 1
    || Waiting(t) == Some(t.client.w)
    || exists c :: c in s.inFlight && s.inFlight[c] == t.client.w
  }

  /** Under every race of waiting, interruption, data, room, close, completion and destruction, a stream's wakers are
      each consumed exactly once, and a blocked reader or writer has its waker stored, on its way, or fired. */
  lemma StreamWakersLinear(run: seq<StreamCell>, acts: seq<StreamAction>, i: nat)
    requires IsStreamRun(run, acts) && i < |run|
    ensures Linear(run[i].s)
    ensures run[i].t.client.Blocked? ==> exists p :: p in run[i].s.clients && Held(run[i].t, run[i].s, p)
  {
    StreamRunKeepsInv(run, acts, i);
    W.NothingLeft(run[i].s);
    if run[i].t.client.Blocked? {
      var p :| run[i].s.clients.Keys == {p} && run[i].s.clients[p].Blocked?
        && run[i].s.clients[p].addr == run[i].t.client.w;
      W.BlockedIsHeld(run[i].s, p);
      assert p in run[i].s.clients && Held(run[i].t, run[i].s, p);
    }
  }
}

/** The reactor with libuv's async handle: the agent looks at its queue only when it has been notified, and no
    notification is lost. */
module Wakeups {
  import opened Messages
  import M = Mpsc
  import R = Reactor

  /** `signalled` is the handle's pending flag: any number of sends set it, and libuv clears it before it runs the
      agent's loop over the queue. `looping` while the agent is in that loop. */
  datatype State = State(r: R.Reactor, signalled: bool, looping: bool)

  /** EnterLoop is libuv running the callback; everything else is a step of the reactor. */
  datatype Action = EnterLoop | Step(a: R.Action)

  /** The loop over the queue runs only inside the callback, but for the drain of a shutdown. */
  predicate MayStep(s: State, a: R.Action) {
    a.AgentStep? && a.act.PollQueue? && !s.r.apc.Draining? ==> s.looping
  }

  ghost predicate Enabled(s: State, a: Action) {
    match a
    case EnterLoop => (s.r.apc.Serving? || s.r.apc.Down?) && R.Quiet(s.r) && s.signalled && !s.looping
    case Step(b) => R.CanStep(s.r, b) && MayStep(s, b)
  }

  /** An empty answer of the queue ends the loop. */
  predicate EndsLoop(s: State, a: R.Action, r': R.Reactor) {
    a.AgentStep? && a.act.PollQueue? && !s.r.apc.Draining? && r'.q.consumer.Polling?
  }

  ghost function Apply(s: State, a: Action): State
    requires Enabled(s, a)
  {
    match a
    case EnterLoop => s.(signalled := false, looping := true)
    case Step(b) =>
      var r' := R.Apply(s.r, b);
      State(r', s.signalled || (b.Producer? && b.step.NotifyAgent?), s.looping && !EndsLoop(s, b, r'))
  }

  /** The oldest message is in its slot. */
  predicate Waits(q: M.Queue<Message>) {
    q.taken < |q.order| && q.taken !in q.holder
  }

  /** This thread has published the ticket and not yet called uv_async_send. */
  predicate Owes(r: R.Reactor, p: Pid, ticket: nat) {
    || (p in r.q.pcs && r.q.pcs[p].Published? && r.q.pcs[p].ticket == ticket)
    || (p in r.pcs && r.pcs[p].Notify? && r.pcs[p].ticket == ticket)
  }

  ghost predicate Promised(r: R.Reactor) {
    exists p :: Owes(r, p, r.q.taken)
  }

  ghost predicate Notified(s: State) {
    s.r.apc.Serving? && !s.looping && Waits(s.r.q) ==> s.signalled || Promised(s.r)
  }

  ghost predicate Inv(s: State) {
    R.Inv(s.r) && Notified(s)
  }

  // ---- every step

  lemma OthersOwe(r: R.Reactor, p: Pid, step: R.ProducerAction, r': R.Reactor, q: Pid, ticket: nat)
    requires M.WellFormed(r.q.mem) && R.ProducerEnabled(r, p, step) && r' == R.ProducerApply(r, p, step)
    requires q != p && Owes(r, q, ticket)
    ensures Owes(r', q, ticket)
  {
    R.OthersUnmoved(r, p, step, r');
  }

  /** A thread that owes a notification still does, until it has sent it. */
  lemma OwnOwes(r: R.Reactor, p: Pid, step: R.ProducerAction, r': R.Reactor, ticket: nat)
    requires M.WellFormed(r.q.mem) && R.Ownership(r.q.pcs, r.pcs, r.owned)
    requires R.ProducerEnabled(r, p, step) && r' == R.ProducerApply(r, p, step)
    requires Owes(r, p, ticket) && !step.NotifyAgent?
    ensures Owes(r', p, ticket)
  {
  }

  /** The oldest message becomes visible only by its producer's publication. */
  lemma BecomesVisible(r: R.Reactor, p: Pid, step: R.ProducerAction, r': R.Reactor)
    requires M.WellFormed(r.q.mem) && M.Tickets(r.q)
    requires R.ProducerEnabled(r, p, step) && r' == R.ProducerApply(r, p, step)
    ensures r'.q.taken == r.q.taken && r'.apc.Serving? == r.apc.Serving?
    ensures Waits(r'.q) && !Waits(r.q) ==> Owes(r', p, r'.q.taken)
  {
    R.ProducerAgent(r, p, step, r');
    if step.QueueOp? {
      OperationShows(r.q, p, r'.q);
    } else {
      OutsideShows(r, p, step, r');
    }
  }

  /** Of the operations on the queue only a publication fills a slot. */
  lemma OperationShows(q: M.Queue<Message>, p: Pid, q': M.Queue<Message>)
    requires M.WellFormed(q.mem) && M.Tickets(q) && p in q.pcs && !q.pcs[p].Refused? && !q.pcs[p].Published?
    requires q' == M.Apply(q, R.OpOf(p, q.pcs[p]))
    ensures Waits(q') && !Waits(q) ==> p in q'.pcs && q'.pcs[p].Published? && q'.pcs[p].ticket == q'.taken
  {
  }

  /** Outside the operations nothing is published. */
  lemma OutsideShows(r: R.Reactor, p: Pid, step: R.ProducerAction, r': R.Reactor)
    requires M.WellFormed(r.q.mem) && R.ProducerEnabled(r, p, step) && r' == R.ProducerApply(r, p, step)
    requires !step.QueueOp?
    ensures Waits(r'.q) <==> Waits(r.q)
  {
  }

  lemma ProducerKeepsNotified(s: State, p: Pid, step: R.ProducerAction, s': State)
    requires R.Inv(s.r) && Notified(s) && R.ProducerEnabled(s.r, p, step) && M.WellFormed(s.r.q.mem)
    requires s'.r == R.ProducerApply(s.r, p, step) && s'.looping == s.looping
    requires s'.signalled == (s.signalled || step.NotifyAgent?)
    ensures Notified(s')
  {
    BecomesVisible(s.r, p, step, s'.r);
    if s'.r.apc.Serving? && !s'.looping && Waits(s'.r.q) && !s'.signalled {
      if Waits(s.r.q) {
        var q :| Owes(s.r, q, s.r.q.taken);
        StillOwes(s.r, p, step, s'.r, q);
      }
    }
  }

  lemma StillOwes(r: R.Reactor, p: Pid, step: R.ProducerAction, r': R.Reactor, q: Pid)
    requires R.Inv(r) && R.ProducerEnabled(r, p, step) && M.WellFormed(r.q.mem) && r' == R.ProducerApply(r, p, step)
    requires Owes(r, q, r.q.taken) && !step.NotifyAgent? && r'.q.taken == r.q.taken
    ensures Promised(r')
  {
    if q == p {
      OwnOwes(r, p, step, r', r.q.taken);
    } else {
      OthersOwe(r, p, step, r', q, r.q.taken);
    }
    assert Owes(r', q, r'.q.taken);
  }

  /** Only a look at the queue takes a message out of it, and no step brings the agent back to serving. */
  lemma AgentLeaves(r: R.Reactor, act: R.AgentAction, r': R.Reactor)
    requires M.WellFormed(r.q.mem) && R.AgentEnabled(r, act) && r' == R.AgentApply(r, act)
    ensures r'.apc.Serving? ==> r.apc.Serving?
    ensures r'.pcs == r.pcs && r'.q.pcs == r.q.pcs && r'.q.order == r.q.order && r'.q.holder == r.q.holder
    ensures !act.PollQueue? ==> r'.q.taken == r.q.taken
  {
  }

  lemma EmptyLook(r: R.Reactor, r': R.Reactor)
    requires R.Inv(r) && R.AgentEnabled(r, R.PollQueue) && M.WellFormed(r.q.mem) && r' == R.AgentApply(r, R.PollQueue)
    requires r'.q.consumer.Polling?
    ensures !Waits(r'.q)
  {
    M.PollTakesOldest(r.q);
  }

  lemma AgentKeepsNotified(s: State, act: R.AgentAction, s': State)
    requires R.Inv(s.r) && Notified(s) && Enabled(s, Step(R.AgentStep(act))) && s' == Apply(s, Step(R.AgentStep(act)))
    ensures Notified(s')
  {
    AgentLeaves(s.r, act, s'.r);
    if act.PollQueue? {
      if s.r.apc.Serving? && s'.r.q.consumer.Polling? {
        EmptyLook(s.r, s'.r);
      }
    } else if Promised(s.r) {
      var q :| Owes(s.r, q, s.r.q.taken);
      assert Owes(s'.r, q, s'.r.q.taken);
    }
  }

  lemma StepKeepsInv(s: State, a: Action, s': State)
    requires Inv(s) && Enabled(s, a) && s' == Apply(s, a)
    ensures Inv(s')
  {
    if a.Step? {
      R.StepKeepsInv(s.r, a.a, s'.r);
      match a.a
      case Producer(p, step) => ProducerKeepsNotified(s, p, step, s');
      case AgentStep(act) => AgentKeepsNotified(s, act, s');
    }
  }

  // ---- runs

  ghost predicate StepAt(run: seq<State>, acts: seq<Action>, i: nat)
    requires i < |acts| && |run| == |acts| + 1
  {
    Enabled(run[i], acts[i]) && run[i + 1] == Apply(run[i], acts[i])
  }

  ghost predicate IsRun(capacity: nat, run: seq<State>, acts: seq<Action>) {
    && M.CapacityAccepted(capacity)
    && |run| == |acts| + 1 && run[0] == State(R.Start(capacity), false, false)
    && forall i :: 0 <= i < |acts| ==> StepAt(run, acts, i)
  }

  lemma {:induction false} RunKeepsInv(capacity: nat, run: seq<State>, acts: seq<Action>, i: nat)
    requires IsRun(capacity, run, acts) && i < |run|
    ensures Inv(run[i])
  {
    if i == 0 {
      R.StartInv(capacity);
    } else {
      var k := i - 1;
      RunKeepsInv(capacity, run, acts, k);
      assert StepAt(run, acts, k);
      StepKeepsInv(run[k], acts[k], run[i]);
    }
  }

  /** No notification is lost: whenever the agent serves but is outside its loop and the oldest accepted message is in
      its slot, libuv's flag is set, or the message's own producer has yet to call uv_async_send. In particular the
      flag is set once every call has returned. */
  lemma NotifyNeverLost(capacity: nat, run: seq<State>, acts: seq<Action>, i: nat)
    requires IsRun(capacity, run, acts) && i < |run|
    requires run[i].r.apc.Serving? && !run[i].looping && Waits(run[i].r.q)
    ensures run[i].signalled || exists p :: Owes(run[i].r, p, run[i].r.q.taken)
    ensures run[i].r.pcs == map[] ==> run[i].signalled
  {
    RunKeepsInv(capacity, run, acts, i);
  }
}

/** How transfers end: what ends one, and which code each ending stores for its caller. */
module Endings {
  import opened Completion
  import opened Counting
  import opened Dispatch
  import opened Messages
  import M = Mpsc
  import R = Reactor

  // ---- one agent

  /** One of the transfer's streams was closed, or had its cancel sent, when it was asked. */
  predicate WasCancelled(sub: Submission, c: Cancelled) {
    (sub.download.Some? && c.download) || (sub.upload.Some? && c.upload)
  }

  /** The code a transfer reports: its own, unless one of its streams was cancelled. */
  function Reported(sub: Submission, code: int, c: Cancelled): int {
    if WasCancelled(sub, c) then CURLE_ABORTED_BY_CALLBACK else code
  }

  lemma FinalCodeExactly(sub: Submission, code: int, c: Cancelled)
    ensures FinalCode(sub, code, c) == Reported(sub, code, c)
  {
  }

  /** Settling stores one code and no other. */
  lemma SettleStores(l: Ledger, sub: Submission, code: int)
    requires sub.result.Some? && sub.result.value !in l.codes
    ensures Settle(l, sub, code).codes == l.codes[sub.result.value := code]
  {
  }

  lemma FinishStores(a: Agent, id: nat, code: int, c: Cancelled)
    requires AgentInv(a) && id in a.registry && Untouched(a.ledger, a.registry[id].sub)
    ensures var sub, a' := a.registry[id].sub, Finish(a, id, code, c);
            && a'.registry == a.registry - {id}
            && a'.ledger.codes == a.ledger.codes[sub.result.value := Reported(sub, code, c)]
  {
    var sub := a.registry[id].sub;
    FinalCodeExactly(sub, code, c);
    SettleStores(a.ledger, sub, FinalCode(sub, code, c));
  }

  /** What an EXECUTE that is not registered is told: its payload or its ID was unusable, memory was short, or libcurl
      refused the handle. */
  function RefusalCode(a: Agent, sub: Submission, s: Setup, c: Cancelled): int {
    if Acceptable(sub) && !s.memory then CURLE_OUT_OF_MEMORY
    else if Acceptable(sub) && a.up && sub.id !in a.registry && s.optionSet then Reported(sub, CURLE_FAILED_INIT, c)
    else CURLE_FAILED_INIT
  }

  lemma ExecuteStores(a: Agent, sub: Submission, s: Setup, c: Cancelled)
    requires sub.result.Some? && sub.result.value !in a.ledger.codes
    ensures var codes := ExecuteTransfer(a, sub, s, c).ledger.codes;
            codes == if Registers(a, sub, s) then a.ledger.codes
              else a.ledger.codes[sub.result.value := RefusalCode(a, sub, s, c)]
  {
    FinalCodeExactly(sub, CURLE_FAILED_INIT, c);
    SettleStores(a.ledger, sub, CURLE_FAILED_INIT);
    SettleStores(a.ledger, sub, CURLE_OUT_OF_MEMORY);
    SettleStores(a.ledger, sub, FinalCode(sub, CURLE_FAILED_INIT, c));
  }

  /** What a message does to one registered transfer: nothing, or it ends it. */
  datatype Ending = Ending(ends: bool, code: int)

  const STAYS := Ending(false, CURLE_OK)

  function ByMessage(m: Message, pauseCode: int, c: Cancelled, sub: Submission): Ending {
    match m
    case Cancel(id) => if id == sub.id then Ending(true, CURLE_ABORTED_BY_CALLBACK) else STAYS
    case Resume(id) => if id == sub.id && pauseCode != CURLE_OK then Ending(true, Reported(sub, pauseCode, c))
      else STAYS
    case _ => STAYS
  }

  /** The transfer is still registered, or it has ended with this code. */
  predicate Obeys(a': Agent, sub: Submission, e: Ending)
    requires sub.result.Some?
  {
    && (e.ends <==> !IsRegistered(a', sub))
    && (e.ends ==> sub.result.value in a'.ledger.codes && a'.ledger.codes[sub.result.value] == e.code)
  }

  lemma OtherFinished(a: Agent, id: nat, code: int, c: Cancelled, sub: Submission)
    requires AgentInv(a) && IsRegistered(a, sub) && id != sub.id
    ensures IsRegistered(Finish(a, id, code, c), sub)
  {
  }

  lemma MessageEnds(a: Agent, m: Message, s: Setup, pauseCode: int, c: Cancelled, sub: Submission)
    requires AgentInv(a) && IsRegistered(a, sub) && Untouched(a.ledger, sub)
    ensures sub.result.Some? && Obeys(AfterMessage(a, m, s, pauseCode, c), sub, ByMessage(m, pauseCode, c, sub))
  {
    match m
    case Execute(other) => ExecuteKeeps(a, other, s, c, sub);
    case Cancel(id) =>
      if id == sub.id {
        FinishStores(a, id, CURLE_ABORTED_BY_CALLBACK, c);
      } else {
        OtherFinished(a, id, CURLE_ABORTED_BY_CALLBACK, c, sub);
      }
    case Resume(id) =>
      if id == sub.id {
        FinishStores(a, id, pauseCode, c);
      } else {
        OtherFinished(a, id, pauseCode, c, sub);
      }
    case Stop =>
  }

  lemma ExecuteKeeps(a: Agent, other: Submission, s: Setup, c: Cancelled, sub: Submission)
    requires IsRegistered(a, sub)
    ensures IsRegistered(ExecuteTransfer(a, other, s, c), sub)
  {
  }

  // ---- the reactor

  /** What a step of the agent does to one registered transfer. */
  function ByStep(s: R.Reactor, act: R.AgentAction, sub: Submission): Ending {
    match act
    case HandleMessage(_, pauseCode, c) => if s.hand.Some? then ByMessage(s.hand.value, pauseCode, c, sub) else STAYS
    case CurlDone(easy, code, c) => if sub.easy == Some(easy) then Ending(true, Reported(sub, code, c)) else STAYS
    case FinishOne(id, c) => if id == sub.id then Ending(true, Reported(sub, s.code, c)) else STAYS
    case _ => STAYS
  }

  lemma CurlEnds(a: Agent, easy: Handle, code: int, c: Cancelled, sub: Submission)
    requires AgentInv(a) && easy in a.added && IsRegistered(a, sub) && Untouched(a.ledger, sub) && sub.result.Some?
    ensures Obeys(CompleteTransfer(a, easy, code, c), sub,
                  if sub.easy == Some(easy) then Ending(true, Reported(sub, code, c)) else STAYS)
  {
    CompletionFindsOwner(a, easy, code, c);
    var id := a.private[easy].id;
    if id == sub.id {
      FinishStores(a, id, code, c);
    } else {
      OtherFinished(a, id, code, c, sub);
    }
  }

  lemma RegisteredFacts(s: R.Reactor, sub: Submission)
    requires R.Served(s) && IsRegistered(s.agent, sub)
    ensures AgentInv(s.agent) && Untouched(s.agent.ledger, sub) && Acceptable(sub)
  {
    assert Untouched(s.agent.ledger, s.agent.registry[sub.id].sub);
  }

  /** What ends a registered transfer, and with which code: its CANCEL with CURLE_ABORTED_BY_CALLBACK, a RESUME that
      libcurl refuses and a completion with their own code, the walk of a shutdown with the shutdown's; the latter
      three with CURLE_ABORTED_BY_CALLBACK if one of its streams was cancelled. Nothing else ends one. */
  lemma EndsExactly(s: R.Reactor, act: R.AgentAction, s': R.Reactor, sub: Submission)
    requires R.Served(s) && M.WellFormed(s.q.mem) && R.AgentEnabled(s, act) && s' == R.AgentApply(s, act)
    requires IsRegistered(s.agent, sub)
    ensures sub.result.Some? && sub.result.value !in s.agent.ledger.codes && Obeys(s'.agent, sub, ByStep(s, act, sub))
  {
    RegisteredFacts(s, sub);
    if act.HandleMessage? {
      HandlingEnds(s, act, s', sub);
    } else if act.CurlDone? || act.FinishOne? {
      FinishingEnds(s, act, s', sub);
    } else {
      OthersKeep(s, act, s', sub);
    }
  }

  lemma FinishingEnds(s: R.Reactor, act: R.AgentAction, s': R.Reactor, sub: Submission)
    requires AgentInv(s.agent) && Untouched(s.agent.ledger, sub) && IsRegistered(s.agent, sub) && sub.result.Some?
    requires M.WellFormed(s.q.mem) && R.AgentEnabled(s, act) && s' == R.AgentApply(s, act)
    requires act.CurlDone? || act.FinishOne?
    ensures Obeys(s'.agent, sub, ByStep(s, act, sub))
  {
    if act.CurlDone? {
      CurlEnds(s.agent, act.easy, act.code, act.c, sub);
    } else {
      WalkEnds(s.agent, act.id, s.code, act.c, sub);
    }
  }

  lemma HandlingEnds(s: R.Reactor, act: R.AgentAction, s': R.Reactor, sub: Submission)
    requires AgentInv(s.agent) && Untouched(s.agent.ledger, sub) && IsRegistered(s.agent, sub)
    requires M.WellFormed(s.q.mem) && act.HandleMessage? && R.AgentEnabled(s, act) && s' == R.AgentApply(s, act)
    ensures sub.result.Some? && Obeys(s'.agent, sub, ByStep(s, act, sub))
  {
    MessageEnds(s.agent, s.hand.value, act.setup, act.pauseCode, act.c, sub);
  }

  /** The other steps do not concern the registry; in particular the drain of a shutdown finds it empty. */
  lemma OthersKeep(s: R.Reactor, act: R.AgentAction, s': R.Reactor, sub: Submission)
    requires M.WellFormed(s.q.mem) && R.AgentEnabled(s, act) && s' == R.AgentApply(s, act)
    requires !act.HandleMessage? && !act.CurlDone? && !act.FinishOne? && IsRegistered(s.agent, sub)
    ensures IsRegistered(s'.agent, sub)
  {
  }

  lemma WalkEnds(a: Agent, id: nat, code: int, c: Cancelled, sub: Submission)
    requires AgentInv(a) && id in a.registry && IsRegistered(a, sub) && Untouched(a.ledger, sub) && sub.result.Some?
    ensures Obeys(Finish(a, id, code, c), sub, if id == sub.id then Ending(true, Reported(sub, code, c)) else STAYS)
  {
    if id == sub.id {
      FinishStores(a, id, code, c);
    } else {
      OtherFinished(a, id, code, c, sub);
    }
  }

  /** What an EXECUTE stores that ends without having been registered: refused when it is handled, or still queued at
      shutdown. */
  lemma UnregisteredStores(s: R.Reactor, act: R.AgentAction, s': R.Reactor, sub: Submission)
    requires R.Served(s) && Distinct(s.q.order) && M.WellFormed(s.q.mem)
    requires R.AgentEnabled(s, act) && s' == R.AgentApply(s, act)
    requires (act.HandleMessage? || act.DrainMessage?) && s.hand == Some(Execute(sub)) && sub.result.Some?
    ensures var result, codes := sub.result.value, s'.agent.ledger.codes;
            if act.DrainMessage? then result in codes && codes[result] == s.code
            else if Registers(s.agent, sub, act.setup) then result !in codes
            else result in codes && codes[result] == RefusalCode(s.agent, sub, act.setup, act.c)
  {
    UnhandledUntouched(s.q.order, R.Handled(s.q, s.hand), s.agent, R.Handled(s.q, s.hand));
    if act.HandleMessage? {
      ExecuteStores(s.agent, sub, act.setup, act.c);
    } else {
      SettleStores(s.agent.ledger, sub, s.code);
    }
  }

  // ---- runs

  /** A stored code stays. */
  predicate CodesKept(a: Agent, a': Agent) {
    forall h :: h in a.ledger.codes ==> h in a'.ledger.codes && a'.ledger.codes[h] == a.ledger.codes[h]
  }

  lemma SettleKeepsCodes(l: Ledger, sub: Submission, code: int)
    ensures forall h :: h in l.codes ==> h in Settle(l, sub, code).codes && Settle(l, sub, code).codes[h] == l.codes[h]
  {
  }

  lemma FinishKeepsCodes(a: Agent, id: nat, code: int, c: Cancelled)
    ensures CodesKept(a, Finish(a, id, code, c))
  {
    if id in a.registry {
      SettleKeepsCodes(a.ledger, a.registry[id].sub, FinalCode(a.registry[id].sub, code, c));
    }
  }

  lemma ExecuteKeepsCodes(a: Agent, sub: Submission, s: Setup, c: Cancelled)
    ensures CodesKept(a, ExecuteTransfer(a, sub, s, c))
  {
    var code := ExecuteSettles(a, sub, s, c);
    SettleKeepsCodes(a.ledger, sub, code);
  }

  lemma MessageKeepsCodes(a: Agent, m: Message, s: Setup, pauseCode: int, c: Cancelled)
    ensures CodesKept(a, AfterMessage(a, m, s, pauseCode, c))
  {
    match m
    case Execute(sub) => ExecuteKeepsCodes(a, sub, s, c);
    case Cancel(id) => FinishKeepsCodes(a, id, CURLE_ABORTED_BY_CALLBACK, c);
    case Resume(id) => FinishKeepsCodes(a, id, pauseCode, c);
    case Stop =>
  }

  lemma AgentKeepsCodes(s: R.Reactor, act: R.AgentAction, s': R.Reactor)
    requires R.Served(s) && M.WellFormed(s.q.mem) && R.AgentEnabled(s, act) && s' == R.AgentApply(s, act)
    ensures CodesKept(s.agent, s'.agent)
  {
    match act
    case HandleMessage(setup, pauseCode, c) => MessageKeepsCodes(s.agent, s.hand.value, setup, pauseCode, c);
    case CurlDone(easy, code, c) =>
      CompletionFindsOwner(s.agent, easy, code, c);
      FinishKeepsCodes(s.agent, s.agent.private[easy].id, code, c);
    case FinishOne(id, c) => FinishKeepsCodes(s.agent, id, s.code, c);
    case DrainMessage =>
      if s.hand.value.Execute? {
        SettleKeepsCodes(s.agent.ledger, s.hand.value.payload, s.code);
      }
    case _ =>
  }

  lemma StepKeepsCodes(s: R.Reactor, a: R.Action, s': R.Reactor)
    requires R.Inv(s) && R.Step(s, a, s')
    ensures CodesKept(s.agent, s'.agent)
  {
    match a
    case Producer(p, step) => R.ProducerAgent(s, p, step, s');
    case AgentStep(act) => AgentKeepsCodes(s, act, s');
  }

  lemma {:induction false} CodesStay(capacity: nat, run: seq<R.Reactor>, acts: seq<R.Action>, i: nat, j: nat)
    requires R.IsRun(capacity, run, acts) && i <= j < |run|
    ensures CodesKept(run[i].agent, run[j].agent)
    decreases j
  {
    if i < j {
      var k := j - 1;
      CodesStay(capacity, run, acts, i, k);
      R.RunKeepsInv(capacity, run, acts, k);
      R.StepOfRun(capacity, run, acts, k, j);
      StepKeepsCodes(run[k], acts[k], run[j]);
    }
  }

  /** One step of the agent in a run, as the lemmas above want it. */
  lemma AgentStepOfRun(capacity: nat, run: seq<R.Reactor>, acts: seq<R.Action>, k: nat, n: nat, act: R.AgentAction)
    requires R.IsRun(capacity, run, acts) && n == k + 1 < |run| && acts[k] == R.AgentStep(act)
    ensures R.Served(run[k]) && Distinct(run[k].q.order) && M.WellFormed(run[k].q.mem)
    ensures R.AgentEnabled(run[k], act) && run[n] == R.AgentApply(run[k], act)
  {
    R.RunKeepsInv(capacity, run, acts, k);
    R.StepOfRun(capacity, run, acts, k, n);
  }

  /** Which code the caller finds: over every run, for a transfer that is registered in state k and is no longer after
      step k, every later state has the code of the step that ended it. */
  lemma EndedStores(capacity: nat, run: seq<R.Reactor>, acts: seq<R.Action>, k: nat, j: nat, act: R.AgentAction,
                    sub: Submission)
    requires R.IsRun(capacity, run, acts) && k < j < |run| && acts[k] == R.AgentStep(act)
    requires IsRegistered(run[k].agent, sub)
    ensures !IsRegistered(run[k + 1].agent, sub) <==> ByStep(run[k], act, sub).ends
    ensures ByStep(run[k], act, sub).ends ==>
              && sub.result.Some? && sub.result.value in run[j].agent.ledger.codes
              && run[j].agent.ledger.codes[sub.result.value] == ByStep(run[k], act, sub).code
  {
    var n := k + 1;
    AgentStepOfRun(capacity, run, acts, k, n, act);
    EndsExactly(run[k], act, run[n], sub);
    CodesStay(capacity, run, acts, n, j);
  }

  /** And for one that is never registered. */
  lemma RefusedStores(capacity: nat, run: seq<R.Reactor>, acts: seq<R.Action>, k: nat, j: nat, act: R.AgentAction,
                      sub: Submission)
    requires R.IsRun(capacity, run, acts) && k < j < |run| && acts[k] == R.AgentStep(act)
    requires run[k].hand == Some(Execute(sub)) && sub.result.Some?
    requires act.DrainMessage? || (act.HandleMessage? && !Registers(run[k].agent, sub, act.setup))
    ensures sub.result.value in run[j].agent.ledger.codes
    ensures run[j].agent.ledger.codes[sub.result.value] ==
            if act.DrainMessage? then run[k].code else RefusalCode(run[k].agent, sub, act.setup, act.c)
  {
    var n := k + 1;
    AgentStepOfRun(capacity, run, acts, k, n, act);
    UnregisteredStores(run[k], act, run[n], sub);
    CodesStay(capacity, run, acts, n, j);
  }

  /** A handled transfer without a code is registered; one with a code is not. */
  lemma HandledStores(s: R.Reactor, i: nat, sub: Submission)
    requires R.Served(s) && R.IsTicketOf(s.q.order, i, Execute(sub)) && sub.result.Some? && i < R.Handled(s.q, s.hand)
    ensures sub.result.value !in s.agent.ledger.codes <==> IsRegistered(s.agent, sub)
  {
    assert Accounted(s.agent, s.q.order[i].payload);
    if IsRegistered(s.agent, sub) {
      RegisteredFacts(s, sub);
    }
  }

  lemma QueuedStores(s: R.Reactor, i: nat, sub: Submission)
    requires R.Served(s) && Distinct(s.q.order) && R.IsTicketOf(s.q.order, i, Execute(sub)) && sub.result.Some?
    requires R.Handled(s.q, s.hand) <= i
    ensures sub.result.value !in s.agent.ledger.codes
  {
    UnhandledUntouched(s.q.order, R.Handled(s.q, s.hand), s.agent, i);
  }

  lemma HandIsNext(s: R.Reactor, act: R.AgentAction)
    requires R.Served(s) && R.Handles(act) && R.AgentEnabled(s, act)
    ensures 0 <= R.Handled(s.q, s.hand) < |s.q.order| && s.hand == Some(s.q.order[R.Handled(s.q, s.hand)])
  {
  }

  lemma HandledOnlySo(s: R.Reactor, act: R.AgentAction, s': R.Reactor, i: nat, sub: Submission)
    requires R.Served(s) && R.Served(s') && M.WellFormed(s.q.mem) && R.AgentEnabled(s, act)
    requires s' == R.AgentApply(s, act)
    requires R.IsTicketOf(s.q.order, i, Execute(sub)) && R.IsTicketOf(s'.q.order, i, Execute(sub)) && sub.result.Some?
    requires i < R.Handled(s.q, s.hand) && i < R.Handled(s'.q, s'.hand)
    requires sub.result.value !in s.agent.ledger.codes && sub.result.value in s'.agent.ledger.codes
    ensures IsRegistered(s.agent, sub) && ByStep(s, act, sub).ends
  {
    HandledStores(s, i, sub);
    HandledStores(s', i, sub);
    EndsExactly(s, act, s', sub);
  }

  /** A queued transfer gets its code when it is handled. */
  lemma QueuedOnlySo(s: R.Reactor, act: R.AgentAction, n': int, s': R.Reactor, i: nat, sub: Submission)
    requires R.Served(s) && R.Served(s') && Distinct(s'.q.order) && R.AgentEnabled(s, act)
    requires R.IsTicketOf(s.q.order, i, Execute(sub)) && R.IsTicketOf(s'.q.order, i, Execute(sub)) && sub.result.Some?
    requires n' == R.Handled(s'.q, s'.hand) == R.Handled(s.q, s.hand) + One(R.Handles(act))
    requires R.Handled(s.q, s.hand) <= i
    requires sub.result.value in s'.agent.ledger.codes
    ensures R.Handles(act) && s.hand == Some(Execute(sub))
  {
    if n' <= i {
      QueuedStores(s', i, sub);
    } else {
      HandIsNext(s, act);
    }
  }

  /** Every stored code was stored by such a step: the one that ended the transfer, or that refused or drained its
      EXECUTE. */
  lemma StoredOnlySo(s: R.Reactor, act: R.AgentAction, s': R.Reactor, i: nat, sub: Submission)
    requires R.Served(s) && R.Served(s') && Distinct(s.q.order) && M.WellFormed(s.q.mem)
    requires R.AgentEnabled(s, act) && s' == R.AgentApply(s, act)
    requires R.IsTicketOf(s.q.order, i, Execute(sub)) && sub.result.Some?
    requires sub.result.value !in s.agent.ledger.codes && sub.result.value in s'.agent.ledger.codes
    ensures (IsRegistered(s.agent, sub) && ByStep(s, act, sub).ends)
            || (R.Handles(act) && s.hand == Some(Execute(sub)))
  {
    R.AgentHandles(s, act, s');
    if i < R.Handled(s.q, s.hand) {
      HandledOnlySo(s, act, s', i, sub);
    } else {
      QueuedOnlySo(s, act, R.Handled(s'.q, s'.hand), s', i, sub);
    }
  }

  /** The code of a shutdown that no fatal error of the reactor started. */
  lemma {:induction false} StopCode(capacity: nat, run: seq<R.Reactor>, acts: seq<R.Action>, i: nat)
    requires R.IsRun(capacity, run, acts) && i < |run|
    requires forall k :: 0 <= k < i ==> !IsFatal(acts[k])
    ensures !run[i].apc.Serving? ==> run[i].code == CURLE_ABORTED_BY_CALLBACK
  {
    if i > 0 {
      var k := i - 1;
      StopCode(capacity, run, acts, k);
      R.StepOfRun(capacity, run, acts, k, i);
      StepCode(run[k], acts[k], run[i]);
    }
  }

  predicate IsFatal(a: R.Action) {
    a.AgentStep? && a.act.FatalError?
  }

  lemma StepCode(s: R.Reactor, a: R.Action, s': R.Reactor)
    requires R.Step(s, a, s') && !IsFatal(a) && (!s.apc.Serving? ==> s.code == CURLE_ABORTED_BY_CALLBACK)
    ensures !s'.apc.Serving? ==> s'.code == CURLE_ABORTED_BY_CALLBACK
  {
    match a
    case Producer(p, step) => R.ProducerAgent(s, p, step, s');
    case AgentStep(act) =>
  }

  /** Cancelled means aborted: a CANCEL that finds its transfer registered stores CURLE_ABORTED_BY_CALLBACK for good. */
  lemma CancelStoresAborted(capacity: nat, run: seq<R.Reactor>, acts: seq<R.Action>, k: nat, j: nat,
                            act: R.AgentAction, sub: Submission)
    requires R.IsRun(capacity, run, acts) && k < j < |run| && acts[k] == R.AgentStep(act) && act.HandleMessage?
    requires IsRegistered(run[k].agent, sub) && run[k].hand == Some(Cancel(sub.id))
    ensures sub.result.Some? && sub.result.value in run[j].agent.ledger.codes
    ensures run[j].agent.ledger.codes[sub.result.value] == CURLE_ABORTED_BY_CALLBACK
  {
    EndedStores(capacity, run, acts, k, j, act, sub);
  }

  /** So does a STOP for everything that it finds registered or queued. */
  lemma StopStoresAborted(capacity: nat, run: seq<R.Reactor>, acts: seq<R.Action>, k: nat, j: nat, act: R.AgentAction,
                          sub: Submission)
    requires R.IsRun(capacity, run, acts) && k < j < |run| && acts[k] == R.AgentStep(act)
    requires forall i :: 0 <= i < k ==> !IsFatal(acts[i])
    requires (act.FinishOne? && IsRegistered(run[k].agent, sub) && act.id == sub.id)
             || (act.DrainMessage? && run[k].hand == Some(Execute(sub)) && sub.result.Some?)
    ensures sub.result.Some? && sub.result.value in run[j].agent.ledger.codes
    ensures run[j].agent.ledger.codes[sub.result.value] == CURLE_ABORTED_BY_CALLBACK
  {
    var n := k + 1;
    StopCode(capacity, run, acts, k);
    AgentStepOfRun(capacity, run, acts, k, n, act);
    if act.FinishOne? {
      EndedStores(capacity, run, acts, k, j, act, sub);
    } else {
      RefusedStores(capacity, run, acts, k, j, act, sub);
    }
  }
}

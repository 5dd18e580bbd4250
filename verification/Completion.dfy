/** Exactly-once completion of a stream of control messages handled in order by one agent. */
module Completion {
  import opened Messages
  import opened Dispatch

  predicate Apart(m: Message, n: Message) {
    m.Execute? && n.Execute? ==> Disjoint(m.payload, n.payload)
  }

  predicate ProperMessage(m: Message) {
    m.Execute? ==> Proper(m.payload)
  }

  /** No two EXECUTE messages share an object. */
  predicate Distinct(order: seq<Message>) {
    && (forall i :: 0 <= i < |order| ==> ProperMessage(order[i]))
    && (forall i, j :: 0 <= i < j < |order| ==> Apart(order[i], order[j]))
  }

  predicate ApartFromFirst(sub: Submission, order: seq<Message>, n: nat)
    requires n <= |order|
  {
    forall i :: 0 <= i < n && order[i].Execute? ==> Disjoint(order[i].payload, sub)
  }

  ghost predicate Submitted(order: seq<Message>, n: nat, sub: Submission)
    requires n <= |order|
  {
    exists i :: 0 <= i < n && order[i] == Execute(sub)
  }

  /** Completed exactly once, or registered and without any outcome yet. */
  predicate Accounted(a: Agent, sub: Submission) {
    DoneOnce(a.ledger, sub) || (IsRegistered(a, sub) && Untouched(a.ledger, sub))
  }

  /** The agent has handled the first n messages. */
  ghost predicate Progress(order: seq<Message>, n: nat, a: Agent) {
    && n <= |order| && AgentInv(a)
    && (forall i :: 0 <= i < n && order[i].Execute? ==> Accounted(a, order[i].payload))
    && (forall id :: id in a.registry ==>
        Submitted(order, n, a.registry[id].sub) && Untouched(a.ledger, a.registry[id].sub))
    && NothingElse(order, n, a.ledger)
    && CancelsDone(order, n, a.ledger)
  }

  /** Objects of no handled EXECUTE have no outcome. */
  ghost predicate NothingElse(order: seq<Message>, n: nat, l: Ledger)
    requires n <= |order|
  {
    forall sub {:trigger Untouched(l, sub)} :: ApartFromFirst(sub, order, n) ==> Untouched(l, sub)
  }

  /** Once a CANCEL is handled, every EXECUTE accepted before it under the same ID has completed. */
  ghost predicate CancelsDone(order: seq<Message>, n: nat, l: Ledger)
    requires n <= |order|
  {
    forall i, j :: 0 <= i < j < n && order[j].Cancel? && order[i].Execute? && order[i].payload.id == order[j].id ==>
      DoneOnce(l, order[i].payload)
  }

  lemma SelfDisjoint(sub: Submission)
    requires sub.easy.Some?
    ensures !Disjoint(sub, sub)
  {
    assert sub.easy.value in Given(sub.easy);
  }

  lemma DisjointSymmetric(s: Submission, t: Submission)
    ensures Disjoint(s, t) <==> Disjoint(t, s)
  {
  }

  lemma InitialProgress()
    ensures Progress([], 0, INITIAL_AGENT)
  {
  }

  lemma OrderGrows(order: seq<Message>, m: Message, n: nat, a: Agent)
    requires Progress(order, n, a)
    ensures Progress(order + [m], n, a)
  {
    forall id | id in a.registry
      ensures Submitted(order + [m], n, a.registry[id].sub)
    {
      var i :| 0 <= i < n && order[i] == Execute(a.registry[id].sub);
      assert (order + [m])[i] == order[i];
    }
    forall sub | ApartFromFirst(sub, order + [m], n)
      ensures ApartFromFirst(sub, order, n)
    {
      assert forall i :: 0 <= i < n ==> (order + [m])[i] == order[i];
    }
  }

  /** The k-th message's submission was settled: no other handled submission noticed. */
  lemma SettledOne(order: seq<Message>, m: nat, n: nat, k: nat, l: Ledger, l': Ledger)
    requires Distinct(order) && k < n <= |order| && m <= n && order[k].Execute?
    requires OnlyTouches(l, l', order[k].payload)
    requires NothingElse(order, m, l)
    ensures NothingElse(order, n, l')
    ensures forall i :: 0 <= i < |order| && i != k && order[i].Execute? ==>
              && (DoneOnce(l, order[i].payload) ==> DoneOnce(l', order[i].payload))
              && (Untouched(l, order[i].payload) ==> Untouched(l', order[i].payload))
  {
    forall i | 0 <= i < |order| && i != k && order[i].Execute?
      ensures DoneOnce(l, order[i].payload) ==> DoneOnce(l', order[i].payload)
      ensures Untouched(l, order[i].payload) ==> Untouched(l', order[i].payload)
    {
      assert Apart(order[if i < k then i else k], order[if i < k then k else i]);
      DisjointSymmetric(order[k].payload, order[i].payload);
      OthersKept(l, l', order[k].payload, order[i].payload);
    }
    forall sub | ApartFromFirst(sub, order, n)
      ensures Untouched(l', sub)
    {
      assert ApartFromFirst(sub, order, m);
      assert Untouched(l, sub);
      OthersKept(l, l', order[k].payload, sub);
    }
  }

  lemma UnhandledUntouched(order: seq<Message>, n: nat, a: Agent, k: nat)
    requires Distinct(order) && Progress(order, n, a) && n <= k < |order| && order[k].Execute?
    ensures Untouched(a.ledger, order[k].payload)
    ensures Given(order[k].payload.easy) !! a.added
  {
    var sub := order[k].payload;
    assert forall i :: 0 <= i < n ==> Apart(order[i], order[k]);
    assert ApartFromFirst(sub, order, n);
    forall e | e in a.added
      ensures e !in Given(sub.easy)
    {
      var owner := a.registry[a.private[e].id].sub;
      assert Submitted(order, n, owner);
      assert Disjoint(owner, sub);
      assert e in Given(owner.easy);
    }
  }

  /** Completion, cancel, failed resume and the shutdown walk all finish one registered transfer. */
  lemma FinishKeepsProgress(order: seq<Message>, n: nat, a: Agent, id: nat, code: int, c: Cancelled)
    requires Distinct(order) && Progress(order, n, a) && id in a.registry
    ensures Progress(order, n, Finish(a, id, code, c))
    ensures DoneOnce(Finish(a, id, code, c).ledger, a.registry[id].sub)
  {
    var sub, a' := a.registry[id].sub, Finish(a, id, code, c);
    var k :| 0 <= k < n && order[k] == Execute(sub);
    assert ProperMessage(order[k]);
    FinishOutcome(a, id, code, c);
    FinishSettles(order, n, k, a, a');
  }

  lemma FinishSettles(order: seq<Message>, n: nat, k: nat, a: Agent, a': Agent)
    requires Distinct(order) && Progress(order, n, a) && k < n && order[k].Execute? && Acceptable(order[k].payload)
    requires AgentInv(a') && a'.registry == a.registry - {order[k].payload.id}
    requires IsRegistered(a, order[k].payload)
    requires OnlyTouches(a.ledger, a'.ledger, order[k].payload) && DoneOnce(a'.ledger, order[k].payload)
    ensures Progress(order, n, a')
  {
    SettledOne(order, n, n, k, a.ledger, a'.ledger);
    forall id | id in a'.registry
      ensures Submitted(order, n, a'.registry[id].sub) && Untouched(a'.ledger, a'.registry[id].sub)
    {
      var i :| 0 <= i < n && order[i] == Execute(a.registry[id].sub);
      assert order[i].payload.id == id;
    }
    forall i | 0 <= i < n && order[i].Execute?
      ensures Accounted(a', order[i].payload)
    {
      StillAccounted(order, n, k, i, a, a');
    }
    CancelsKept(order, n, k, a.ledger, a'.ledger);
  }

  lemma StillAccounted(order: seq<Message>, n: nat, k: nat, i: nat, a: Agent, a': Agent)
    requires Distinct(order) && k < n <= |order| && i < n && order[k].Execute? && order[i].Execute?
    requires Acceptable(order[k].payload) && IsRegistered(a, order[k].payload)
    requires a'.registry == a.registry - {order[k].payload.id}
    requires DoneOnce(a'.ledger, order[k].payload)
    requires i != k ==> (DoneOnce(a.ledger, order[i].payload) ==> DoneOnce(a'.ledger, order[i].payload))
    requires i != k ==> (Untouched(a.ledger, order[i].payload) ==> Untouched(a'.ledger, order[i].payload))
    requires Accounted(a, order[i].payload)
    ensures Accounted(a', order[i].payload)
  {
    if i != k && IsRegistered(a, order[i].payload) {
      OneOwner(order, n, k, i, a);
    }
  }

  lemma CancelsKept(order: seq<Message>, n: nat, k: nat, l: Ledger, l': Ledger)
    requires n <= |order| && CancelsDone(order, n, l)
    requires k < n && order[k].Execute? && DoneOnce(l', order[k].payload)
    requires forall i :: 0 <= i < n && i != k && order[i].Execute? && DoneOnce(l, order[i].payload) ==>
             DoneOnce(l', order[i].payload)
    ensures CancelsDone(order, n, l')
  {
  }

  /** One ID registers one submission: distinct registered submissions have distinct IDs. */
  lemma OneOwner(order: seq<Message>, n: nat, k: nat, i: nat, a: Agent)
    requires Distinct(order) && k < n <= |order| && i < n && i != k && order[k].Execute? && order[i].Execute?
    requires Acceptable(order[k].payload) && IsRegistered(a, order[k].payload) && IsRegistered(a, order[i].payload)
    ensures order[i].payload.id != order[k].payload.id
  {
    assert Apart(order[if i < k then i else k], order[if i < k then k else i]);
    SelfDisjoint(order[k].payload);
  }

  /** Handling an EXECUTE: it registers, or it completes exactly once. */
  lemma ExecuteKeepsProgress(order: seq<Message>, n: nat, a: Agent, s: Setup, c: Cancelled)
    requires Distinct(order) && Progress(order, n, a) && n < |order| && order[n].Execute?
    ensures Progress(order, n + 1, ExecuteTransfer(a, order[n].payload, s, c))
  {
    var sub := order[n].payload;
    var a' := ExecuteTransfer(a, sub, s, c);
    UnhandledUntouched(order, n, a, n);
    assert ProperMessage(order[n]);
    ExecuteOutcome(a, sub, s, c);
    SettledOne(order, n, n + 1, n, a.ledger, a'.ledger);
    if Registers(a, sub, s) {
      assert order[n] == Execute(sub);
    }
    forall id | id in a'.registry
      ensures Submitted(order, n + 1, a'.registry[id].sub) && Untouched(a'.ledger, a'.registry[id].sub)
    {
      if id in a.registry && a'.registry[id] == a.registry[id] {
        var i :| 0 <= i < n && order[i] == Execute(a.registry[id].sub);
      }
    }
    CancelsKeptBefore(order, n, a.ledger, a'.ledger);
  }

  lemma CancelsKeptBefore(order: seq<Message>, n: nat, l: Ledger, l': Ledger)
    requires n < |order| && CancelsDone(order, n, l) && !order[n].Cancel?
    requires forall i :: 0 <= i < n && order[i].Execute? && DoneOnce(l, order[i].payload) ==>
             DoneOnce(l', order[i].payload)
    ensures CancelsDone(order, n + 1, l')
  {
  }

  /** Handling a message that is neither EXECUTE nor CANCEL, once its effect on registered transfers is applied. */
  lemma PassKeepsProgress(order: seq<Message>, n: nat, a: Agent)
    requires Progress(order, n, a) && n < |order| && !order[n].Execute?
    requires order[n].Cancel? ==>
               forall i :: 0 <= i < n && order[i].Execute? && order[i].payload.id == order[n].id ==>
                   DoneOnce(a.ledger, order[i].payload)
    ensures Progress(order, n + 1, a)
  {
    forall id | id in a.registry
      ensures Submitted(order, n + 1, a.registry[id].sub)
    {
      var i :| 0 <= i < n && order[i] == Execute(a.registry[id].sub);
    }
    forall sub | ApartFromFirst(sub, order, n + 1)
      ensures Untouched(a.ledger, sub)
    {
      assert ApartFromFirst(sub, order, n);
    }
  }

  /** Handling a CANCEL: afterwards every earlier EXECUTE under its ID has completed. */
  lemma CancelKeepsProgress(order: seq<Message>, n: nat, a: Agent, c: Cancelled)
    requires Distinct(order) && Progress(order, n, a) && n < |order| && order[n].Cancel?
    ensures Progress(order, n + 1, CancelTransfer(a, order[n].id, c))
  {
    var id := order[n].id;
    var a' := CancelTransfer(a, id, c);
    if id in a.registry {
      FinishKeepsProgress(order, n, a, id, CURLE_ABORTED_BY_CALLBACK, c);
    }
    PassKeepsProgress(order, n, a');
  }

  lemma ResumeKeepsProgress(order: seq<Message>, n: nat, a: Agent, pauseCode: int, c: Cancelled)
    requires Distinct(order) && Progress(order, n, a) && n < |order| && order[n].Resume?
    ensures Progress(order, n + 1, ResumeTransfer(a, order[n].id, pauseCode, c))
  {
    var id := order[n].id;
    if ResumeTransfer(a, id, pauseCode, c) != a {
      FinishKeepsProgress(order, n, a, id, pauseCode, c);
    }
    PassKeepsProgress(order, n, ResumeTransfer(a, id, pauseCode, c));
  }

  lemma CompletionKeepsProgress(order: seq<Message>, n: nat, a: Agent, easy: Handle, code: int, c: Cancelled)
    requires Distinct(order) && Progress(order, n, a) && easy in a.added
    ensures Progress(order, n, CompleteTransfer(a, easy, code, c))
  {
    CompletionFindsOwner(a, easy, code, c);
    FinishKeepsProgress(order, n, a, a.private[easy].id, code, c);
  }

  /** One message of the dispatch loop, as an effect on the agent's own state. */
  function AfterMessage(a: Agent, m: Message, s: Setup, pauseCode: int, c: Cancelled): Agent {
    match m
    case Execute(sub) => ExecuteTransfer(a, sub, s, c)
    case Cancel(id) => CancelTransfer(a, id, c)
    case Resume(id) => ResumeTransfer(a, id, pauseCode, c)
    case Stop => a
  }

  lemma HandleKeepsProgress(order: seq<Message>, n: nat, a: Agent, s: Setup, pauseCode: int, c: Cancelled, a': Agent)
    requires Distinct(order) && Progress(order, n, a) && n < |order|
    requires a' == AfterMessage(a, order[n], s, pauseCode, c)
    ensures Progress(order, n + 1, a') && a'.up == a.up
  {
    match order[n]
    case Execute(_) => ExecuteKeepsProgress(order, n, a, s, c);
    case Cancel(_) => CancelKeepsProgress(order, n, a, c);
    case Resume(_) => ResumeKeepsProgress(order, n, a, pauseCode, c);
    case Stop => PassKeepsProgress(order, n, a);
  }

  /** The shutdown drain after the registry walk: an EXECUTE is failed, anything else is dropped. */
  function DrainOne(a: Agent, m: Message, code: int): Agent {
    if m.Execute? then FailUnregistered(a, m.payload, code) else a
  }

  lemma DrainKeepsProgress(order: seq<Message>, n: nat, a: Agent, code: int)
    requires Distinct(order) && Progress(order, n, a) && n < |order| && a.registry == map[]
    ensures Progress(order, n + 1, DrainOne(a, order[n], code))
  {
    if order[n].Execute? {
      var sub, a' := order[n].payload, DrainOne(a, order[n], code);
      UnhandledUntouched(order, n, a, n);
      assert ProperMessage(order[n]);
      SettleOnce(a.ledger, sub, code);
      SettleTouches(a.ledger, sub, code);
      SettledOne(order, n, n + 1, n, a.ledger, a'.ledger);
      CancelsKeptBefore(order, n, a.ledger, a'.ledger);
    } else {
      PassKeepsProgress(order, n, a);
    }
  }

  /** With every message handled and the registry empty, every EXECUTE has completed exactly once. */
  lemma AllDone(order: seq<Message>, a: Agent)
    requires Progress(order, |order|, a) && a.registry == map[]
    ensures forall i :: 0 <= i < |order| && order[i].Execute? ==> DoneOnce(a.ledger, order[i].payload)
  {
    forall i | 0 <= i < |order| && order[i].Execute?
      ensures DoneOnce(a.ledger, order[i].payload)
    {
      assert Accounted(a, order[i].payload);
    }
  }
}

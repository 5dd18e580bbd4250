/** The agent's context as the C struct: a real registry of linked nodes, updated in place, refining Dispatch. */
module AgentContext {
  import opened Facets
  import opened Completion
  import opened Dispatch
  import opened Messages
  import opened MpscRing
  import opened Registry

  /** The registry's mapping is the specification's. Like the next two, a relation kept closed until `Shown`. */
  ghost predicate Mirrors(nodes: set<Transfer>, contents: map<nat, Transfer>, registered: map<nat, Registered>)
    reads nodes`active
  {
    contents.Keys == registered.Keys && forall facet :: Shown(facet) && facet.Mapping? ==>
      && (forall t :: t in nodes ==> t.sub.id in contents && contents[t.sub.id] == t)
      && forall id :: id in contents ==>
          contents[id] in nodes && contents[id].sub.id == id
            && registered[id] == Registered(contents[id].sub, contents[id].active)
  }

  ghost predicate SamePrivate(pointers: map<Handle, Transfer>, private: map<Handle, Submission>) {
    pointers.Keys == private.Keys && forall facet :: Shown(facet) && facet.Mapping? ==>
      forall e :: e in pointers ==> private[e] == pointers[e].sub
  }

  /** Private pointers lead back to their handle, and to registered nodes or the one on its way out. */
  ghost predicate Owned(nodes: set<Transfer>, pointers: map<Handle, Transfer>, leaving: Transfer?) {
    forall facet :: Shown(facet) && facet.Mapping? ==>
      forall e :: e in pointers ==> pointers[e].sub.easy == Some(e) && (pointers[e] in nodes || pointers[e] == leaving)
  }

  lemma MirrorsRemove(nodes: set<Transfer>, contents: map<nat, Transfer>, registered: map<nat, Registered>, id: nat,
                      removed: Transfer?, rest: set<Transfer>)
    requires Mirrors(nodes, contents, registered)
    requires removed == (if id in contents then contents[id] else null)
    requires rest == nodes - (if removed == null then {} else {removed})
    ensures Mirrors(rest, contents - {id}, registered - {id})
  {
    assert Shown(Mapping);
    assert (contents - {id}).Keys == (registered - {id}).Keys;
  }

  lemma MirrorsEntry(nodes: set<Transfer>, contents: map<nat, Transfer>, registered: map<nat, Registered>, id: nat)
    requires Mirrors(nodes, contents, registered) && id in contents
    ensures contents[id] in nodes && registered[id] == Registered(contents[id].sub, contents[id].active)
  {
    assert Shown(Mapping);
  }

  lemma RemoveMissing(a: Agent, id: nat)
    requires id !in a.registry
    ensures Dispatch.Remove(a, id) == a
  {
    assert a.registry - {id} == a.registry;
  }

  lemma RemoveAdded(a: Agent, sub: Submission)
    requires sub.id !in a.registry
    ensures Dispatch.Remove(Added(a, sub), sub.id) == a
  {
    assert a.registry[sub.id := Registered(sub, false)] - {sub.id} == a.registry;
  }

  /** Between registry_insert and the transfer's activation. */
  function Added(a: Agent, sub: Submission): Agent {
    a.(registry := a.registry[sub.id := Registered(sub, false)])
  }

  lemma MirrorsAdd(nodes: set<Transfer>, contents: map<nat, Transfer>, registered: map<nat, Registered>, t: Transfer)
    requires Mirrors(nodes, contents, registered) && t.sub.id !in contents
    ensures Mirrors(nodes + {t}, contents[t.sub.id := t], registered[t.sub.id := Registered(t.sub, t.active)])
  {
    assert Shown(Mapping);
    assert contents[t.sub.id := t].Keys == registered[t.sub.id := Registered(t.sub, t.active)].Keys;
  }

  lemma OwnedGrows(nodes: set<Transfer>, more: set<Transfer>, pointers: map<Handle, Transfer>)
    requires Owned(nodes, pointers, null) && nodes <= more
    ensures Owned(more, pointers, null)
  {
    assert Shown(Mapping);
  }

  lemma PrivateAdd(nodes: set<Transfer>, pointers: map<Handle, Transfer>, private: map<Handle, Submission>, t: Transfer)
    requires SamePrivate(pointers, private) && Owned(nodes, pointers, null) && t in nodes && t.sub.easy.Some?
    ensures var easy := t.sub.easy.value;
            SamePrivate(pointers[easy := t], private[easy := t.sub]) && Owned(nodes, pointers[easy := t], null)
  {
    assert Shown(Mapping);
    assert pointers[t.sub.easy.value := t].Keys == private[t.sub.easy.value := t.sub].Keys;
  }

  lemma MirrorsActive(nodes: set<Transfer>, contents: map<nat, Transfer>, registered: map<nat, Registered>,
                      t: Transfer, others: set<Transfer>)
    requires Mirrors(others, contents - {t.sub.id}, registered) && others == nodes - {t}
    requires t in nodes && t.sub.id in contents && contents[t.sub.id] == t && t.sub.id !in registered
    ensures Mirrors(nodes, contents, registered[t.sub.id := Registered(t.sub, t.active)])
  {
    MirrorsAdd(others, contents - {t.sub.id}, registered, t);
    assert others + {t} == nodes;
    assert (contents - {t.sub.id})[t.sub.id := t] == contents;
  }

  /** A private pointer is the registered node of its ID. */
  lemma PrivateEntry(nodes: set<Transfer>, contents: map<nat, Transfer>, pointers: map<Handle, Transfer>, a: Agent,
                     easy: Handle)
    requires Mirrors(nodes, contents, a.registry) && SamePrivate(pointers, a.private) && Owned(nodes, pointers, null)
    requires easy in pointers
    ensures a.private[easy] == pointers[easy].sub
    ensures pointers[easy].sub.id in contents && contents[pointers[easy].sub.id] == pointers[easy]
  {
    assert Shown(Mapping);
  }

  lemma MirrorsNode(nodes: set<Transfer>, contents: map<nat, Transfer>, registered: map<nat, Registered>, t: Transfer)
    requires Mirrors(nodes, contents, registered) && t in nodes
    ensures t.sub.id in contents && contents[t.sub.id] == t && registered[t.sub.id] == Registered(t.sub, t.active)
    ensures forall id :: id in contents ==> contents[id].sub.id == id
  {
    assert Shown(Mapping);
  }

  lemma OwnedLeaves(nodes: set<Transfer>, pointers: map<Handle, Transfer>, leaving: Transfer?, rest: set<Transfer>)
    requires Owned(nodes, pointers, null) && rest == nodes - (if leaving == null then {} else {leaving})
    ensures Owned(rest, pointers, leaving)
  {
    assert Shown(Mapping);
  }

  lemma OwnedForgets(nodes: set<Transfer>, pointers: map<Handle, Transfer>, leaving: Transfer)
    requires Owned(nodes, pointers, leaving)
    ensures Owned(nodes, Forget(pointers, leaving.sub.easy), null)
  {
    assert Shown(Mapping);
  }

  lemma SameForgets(pointers: map<Handle, Transfer>, private: map<Handle, Submission>, easy: Option<Handle>)
    requires SamePrivate(pointers, private)
    ensures SamePrivate(Forget(pointers, easy), Forget(private, easy))
  {
    assert Shown(Mapping);
  }

  /** The walk of shutdown over the detached transfers, in the order it meets them. */
  ghost function FinishEach(a: Agent, ids: seq<nat>, code: int, asked: nat -> Cancelled): Agent
    decreases |ids|
  {
    if ids == [] then a else FinishEach(Finish(a, ids[0], code, asked(ids[0])), ids[1..], code, asked)
  }

  ghost function DrainAll(a: Agent, items: seq<Message>, code: int): Agent
    decreases |items|
  {
    if items == [] then a else DrainAll(DrainOne(a, items[0], code), items[1..], code)
  }

  ghost function AfterShutdownWalk(a: Agent, ids: seq<nat>, items: seq<Message>, code: int,
                                   asked: nat -> Cancelled): Agent {
    DrainAll(FinishEach(a, ids, code, asked), items, code)
  }

  /** shutdown_message_context after its close barrier: the walk, the drain, and the registry is gone. */
  ghost function AfterShutdown(a: Agent, ids: seq<nat>, items: seq<Message>, code: int,
                               asked: nat -> Cancelled): Agent {
    AfterShutdownWalk(a, ids, items, code, asked).(up := false)
  }

  lemma {:induction false} FinishEachJoin(a: Agent, ids: seq<nat>, more: seq<nat>, code: int, asked: nat -> Cancelled)
    ensures FinishEach(a, ids + more, code, asked) == FinishEach(FinishEach(a, ids, code, asked), more, code, asked)
    decreases |ids|
  {
    if ids == [] {
      assert ids + more == more;
    } else {
      assert (ids + more)[1..] == ids[1..] + more;
      FinishEachJoin(Finish(a, ids[0], code, asked(ids[0])), ids[1..], more, code, asked);
    }
  }

  // ---- what the walk and the drain achieve

  lemma OutsideNext(contents: map<nat, Transfer>, rest: seq<Transfer>, id: nat)
    requires rest != [] && id in contents && contents[id] == rest[0]
    requires forall i :: i in contents ==> contents[i].sub.id == i
    requires NoDuplicates(rest)
    ensures TransferRegistry.Outside(contents - {id}, rest[1..]) == TransferRegistry.Outside(contents, rest)
  {
    assert rest == [rest[0]] + rest[1..];
    assert rest[0].sub.id == id;
  }

  lemma FinishIfThere(order: seq<Message>, n: nat, a: Agent, id: nat, code: int, c: Cancelled, a': Agent)
    requires Distinct(order) && Progress(order, n, a) && a' == Finish(a, id, code, c)
    ensures Progress(order, n, a') && forall k :: k in a'.registry <==> k in a.registry && k != id
  {
    if id in a.registry {
      FinishKeepsProgress(order, n, a, id, code, c);
    }
  }

  lemma {:induction false} WalkKeepsProgress(order: seq<Message>, n: nat, a: Agent, ids: seq<nat>, code: int,
                                             asked: nat -> Cancelled)
    requires Distinct(order) && Progress(order, n, a)
    ensures var a' := FinishEach(a, ids, code, asked);
            Progress(order, n, a') && forall id :: id in a'.registry <==> id in a.registry && id !in ids
    decreases |ids|
  {
    if ids != [] {
      var id, rest, c := ids[0], ids[1..], asked(ids[0]);
      var a1 := Finish(a, id, code, c);
      FinishIfThere(order, n, a, id, code, c, a1);
      WalkKeepsProgress(order, n, a1, rest, code, asked);
    }
  }

  lemma {:induction false} DrainAllKeepsProgress(order: seq<Message>, n: nat, a: Agent, code: int)
    requires Distinct(order) && Progress(order, n, a) && a.registry == map[]
    ensures var a' := DrainAll(a, order[n..], code); Progress(order, |order|, a') && a'.registry == map[]
    decreases |order| - n
  {
    if n < |order| {
      DrainKeepsProgress(order, n, a, code);
      assert order[n..][1..] == order[n + 1..];
      DrainAllKeepsProgress(order, n + 1, DrainOne(a, order[n], code), code);
    }
  }

  /** Shutdown settles every message accepted so far: each EXECUTE, dispatched, registered or still queued, ends
      completed exactly once. */
  lemma ShutdownCompletesAll(order: seq<Message>, n: nat, a: Agent, ids: seq<nat>, code: int, asked: nat -> Cancelled)
    requires Distinct(order) && Progress(order, n, a) && (forall id :: id in a.registry ==> id in ids)
    ensures var a' := AfterShutdown(a, ids, order[n..], code, asked);
            && Progress(order, |order|, a') && !a'.up
            && forall i :: 0 <= i < |order| && order[i].Execute? ==> DoneOnce(a'.ledger, order[i].payload)
  {
    WalkKeepsProgress(order, n, a, ids, code, asked);
    var walked := FinishEach(a, ids, code, asked);
    assert walked.registry == map[];
    DrainAllKeepsProgress(order, n, walked, code);
    AllDone(order, DrainAll(walked, order[n..], code));
  }

  /** Progress, kept closed. */
  ghost predicate Underway(order: seq<Message>, n: nat, a: Agent) {
    forall facet :: Shown(facet) && facet.Handling? ==> Distinct(order) && Progress(order, n, a)
  }

  lemma HandleUnderway(order: seq<Message>, k: nat, a: Agent, r: Answers, a': Agent)
    requires Underway(order, k, a) && k < |order| && a' == AfterMessage(a, order[k], r.setup, r.pauseCode, r.cancelled)
    ensures Underway(order, k + 1, a') && a'.up == a.up
  {
    assert Shown(Handling);
    HandleKeepsProgress(order, k, a, r.setup, r.pauseCode, r.cancelled, a');
  }

  lemma StopUnderway(order: seq<Message>, k: nat, a: Agent)
    requires Underway(order, k, a) && k < |order| && order[k].Stop?
    ensures Underway(order, k + 1, a)
  {
    assert Shown(Handling);
    PassKeepsProgress(order, k, a);
  }

  lemma ShutdownUnderway(order: seq<Message>, n: nat, a: Agent, ids: seq<nat>, code: int, asked: nat -> Cancelled)
    requires Underway(order, n, a) && n <= |order| && (forall id :: id in a.registry ==> id in ids)
    ensures Underway(order, |order|, AfterShutdown(a, ids, order[n..], code, asked))
  {
    assert Shown(Handling);
    ShutdownCompletesAll(order, n, a, ids, code, asked);
  }

  lemma DownDone(order: seq<Message>, a: Agent)
    requires Underway(order, |order|, a) && !a.up
    ensures forall i :: 0 <= i < |order| && order[i].Execute? ==> DoneOnce(a.ledger, order[i].payload)
  {
    assert Shown(Handling);
    AllDone(order, a);
  }

  /** What the calls made while handling one message answer. */
  datatype Answers = Answers(setup: Setup, pauseCode: int, cancelled: Cancelled, memory: bool)

  // ---- the context

  class Context {
    const registry: TransferRegistry
    const chan: Ring<Message>
    var added: set<Handle>               // easy handles in the multi
    var pointers: map<Handle, Transfer>  // each easy handle's CURLINFO_PRIVATE
    var ledger: Ledger

    /** The context is in the specification's state `a`. */
    ghost predicate Holds(a: Agent)
      reads this, registry, registry.buckets, registry.nodes
    {
      HoldsBut(a, null)
    }

    /** With one node taken out of the registry and still to be finished. */
    ghost predicate HoldsBut(a: Agent, leaving: Transfer?)
      reads this, registry, registry.buckets, registry.nodes
    {
      && registry.Valid() && leaving !in registry.nodes
      && a.up == (registry.buckets != null) && a.added == added && a.ledger == ledger
      && Mirrors(registry.nodes, registry.contents, a.registry)
      && SamePrivate(pointers, a.private)
      && Owned(registry.nodes, pointers, leaving)
    }

    constructor (chan: Ring<Message>)
      ensures Holds(INITIAL_AGENT) && this.chan == chan
      ensures fresh(registry) && fresh(registry.buckets)
    {
      BucketInRange();
      registry := new TransferRegistry(Bucket);
      this.chan := chan;
      added, pointers, ledger := {}, map[], EMPTY_LEDGER;
    }

    /** The outcomes of a submission that is in no registry. */
    method Settle(sub: Submission, code: int)
      modifies this`ledger
      ensures ledger == Dispatch.Settle(old(ledger), sub, code)
    {
      ledger := SetResult(ledger, sub.result, code);
      ledger := CompleteStream(ledger, sub.download);
      ledger := CompleteStream(ledger, sub.upload);
      ledger := CleanUp(ledger, sub.easy);
      ledger := Wake(ledger, sub.result);
    }

    method FailUnregistered(ghost a: Agent, sub: Submission, code: int)
      requires Holds(a)
      modifies this`ledger
      ensures Holds(Dispatch.FailUnregistered(a, sub, code))
    {
      Settle(sub, code);
    }

    method FinishDetached(t: Transfer, code: int, c: Cancelled)
      modifies this`added, this`pointers, this`ledger, t`active
      ensures added == if old(t.active) then Without(old(added), t.sub.easy) else old(added)
      ensures pointers == Forget(old(pointers), t.sub.easy)
      ensures ledger == Dispatch.Settle(old(ledger), t.sub, FinalCode(t.sub, code, c))
    {
      if t.active {
        added := Without(added, t.sub.easy);
        t.active := false;
      }
      var final := Normalize(t.sub.download, c.download, code);
      final := Normalize(t.sub.upload, c.upload, final);
      ledger := SetResult(ledger, t.sub.result, final);
      pointers := Forget(pointers, t.sub.easy);
      ledger := CompleteStream(ledger, t.sub.download);
      ledger := CompleteStream(ledger, t.sub.upload);
      ledger := CleanUp(ledger, t.sub.easy);
      ledger := Wake(ledger, t.sub.result);
    }

    /** registry_remove. */
    method TakeOut(ghost a: Agent, id: nat) returns (t: Transfer?)
      requires Holds(a)
      modifies registry, registry.buckets, registry.nodes`next
      ensures HoldsBut(Dispatch.Remove(a, id), t)
      ensures registry.buckets == old(registry.buckets)
      ensures registry.nodes == old(registry.nodes) - (if t == null then {} else {t})
      ensures t == if id in old(registry.contents) then old(registry.contents)[id] else null
      ensures t != null ==> t in old(registry.nodes)
      ensures id in a.registry <==> t != null
      ensures t != null ==> a.registry[id] == Registered(t.sub, t.active)
    {
      ghost var nodes, contents := registry.nodes, registry.contents;
      if id in contents {
        MirrorsEntry(nodes, contents, a.registry, id);
      }
      t := registry.Remove(id);
      MirrorsRemove(nodes, contents, a.registry, id, t, registry.nodes);
      OwnedLeaves(nodes, pointers, t, registry.nodes);
    }

    /** finish_detached_transfer on a node just taken out. */
    method FinishTaken(ghost a: Agent, t: Transfer, code: int, c: Cancelled)
      requires HoldsBut(a, t)
      modifies this, t`active
      ensures Holds(Dispatch.FinishDetached(a, Registered(t.sub, old(t.active)), code, c))
    {
      OwnedForgets(registry.nodes, pointers, t);
      SameForgets(pointers, a.private, t.sub.easy);
      FinishDetached(t, code, c);
      registry.Undisturbed();
      assert forall u :: u in registry.nodes ==> u.active == old(u.active);
    }

    /** Remove by ID and finish what was there. */
    method RemoveAndFinish(ghost a: Agent, id: nat, code: int, c: Cancelled)
      requires Holds(a)
      modifies this, registry, registry.buckets, registry.nodes
      ensures Holds(Finish(a, id, code, c))
      ensures registry.buckets == old(registry.buckets) && registry.nodes <= old(registry.nodes)
    {
      var t := TakeOut(a, id);
      if t == null {
        RemoveMissing(a, id);
      } else {
        FinishTaken(Dispatch.Remove(a, id), t, code, c);
      }
    }

    method CancelTransfer(ghost a: Agent, id: nat, c: Cancelled)
      requires Holds(a)
      modifies this, registry, registry.buckets, registry.nodes
      ensures Holds(Dispatch.CancelTransfer(a, id, c))
      ensures registry.buckets == old(registry.buckets) && registry.nodes <= old(registry.nodes)
    {
      RemoveAndFinish(a, id, CURLE_ABORTED_BY_CALLBACK, c);
    }

    method ResumeTransfer(ghost a: Agent, id: nat, pauseCode: int, c: Cancelled)
      requires Holds(a)
      modifies this, registry, registry.buckets, registry.nodes
      ensures Holds(Dispatch.ResumeTransfer(a, id, pauseCode, c))
      ensures registry.buckets == old(registry.buckets) && registry.nodes <= old(registry.nodes)
    {
      var t := registry.Find(id);
      if t != null {
        MirrorsEntry(registry.nodes, registry.contents, a.registry, id);
      }
      if t == null || !t.active {
        return;
      }
      if pauseCode != CURLE_OK {
        RemoveAndFinish(a, id, pauseCode, c);
      }
    }

    /** libcurl reports a finished handle; its private pointer must still be the registered node. */
    method CompleteTransfer(ghost a: Agent, easy: Handle, code: int, c: Cancelled)
      requires Holds(a)
      modifies this, registry, registry.buckets, registry.nodes
      ensures Holds(Dispatch.CompleteTransfer(a, easy, code, c))
      ensures registry.buckets == old(registry.buckets) && registry.nodes <= old(registry.nodes)
    {
      if easy !in pointers {
        return;
      }
      PrivateEntry(registry.nodes, registry.contents, pointers, a, easy);
      var t := pointers[easy];
      var registered := TakeOut(a, t.sub.id);
      assert registered == t;
      if registered != t {
        return;
      }
      FinishTaken(Dispatch.Remove(a, t.sub.id), t, code, c);
    }
  
    /** registry_insert of a fresh node. */
    method Register(ghost a: Agent, t: Transfer, memory: bool) returns (inserted: bool)
      requires Holds(a) && t !in registry.nodes && !t.active
      modifies registry, registry.buckets, registry.nodes`next, t`next
      ensures inserted <==> a.up && t.sub.id !in a.registry
      ensures Holds(if inserted then Added(a, t.sub) else a)
      ensures registry.buckets == old(registry.buckets) || fresh(registry.buckets)
      ensures registry.nodes == if inserted then old(registry.nodes) + {t} else old(registry.nodes)
      ensures inserted ==> t.sub.id in registry.contents && registry.contents[t.sub.id] == t
      ensures inserted ==> Owned(registry.nodes - {t}, pointers, null)
    {
      ghost var nodes, contents := registry.nodes, registry.contents;
      inserted := registry.Insert(t, memory);
      if inserted {
        MirrorsAdd(nodes, contents, a.registry, t);
        OwnedGrows(nodes, registry.nodes, pointers);
        assert registry.nodes - {t} == nodes;
      }
    }

    method SetPrivate(ghost a: Agent, t: Transfer)
      requires Holds(a) && t in registry.nodes && t.sub.easy.Some?
      modifies this`pointers
      ensures Holds(a.(private := a.private[t.sub.easy.value := t.sub]))
    {
      PrivateAdd(registry.nodes, pointers, a.private, t);
      pointers := pointers[t.sub.easy.value := t];
    }

    method Mark(t: Transfer)
      requires t.sub.easy.Some?
      modifies this`added, t`active
      ensures added == old(added) + {t.sub.easy.value} && t.active
    {
      added := added + {t.sub.easy.value};
      t.active := true;
    }

    /** The handle is in the multi: the transfer is active. */
    method Activate(ghost a: Agent, t: Transfer)
      requires Holds(Added(a, t.sub)) && t.sub.id !in a.registry && t.sub.easy.Some?
      requires t in registry.nodes && t.sub.id in registry.contents && registry.contents[t.sub.id] == t
      modifies this`added, t`active
      ensures Holds(a.(registry := a.registry[t.sub.id := Registered(t.sub, true)],
                       added := a.added + {t.sub.easy.value}))
    {
      ghost var others := registry.nodes - {t};
      ghost var rest := registry.contents - {t.sub.id};
      MirrorsRemove(registry.nodes, registry.contents, Added(a, t.sub).registry, t.sub.id, t, others);
      RemoveAdded(a, t.sub);
      assert Mirrors(others, rest, a.registry);
      Mark(t);
      MirrorsActive(registry.nodes, registry.contents, a.registry, t, others);
    }

    /** Allocation, the option and the multi may each refuse; every refusal settles only the new submission. */
    method ExecuteTransfer(ghost a: Agent, sub: Submission, s: Setup, c: Cancelled, memory: bool)
      requires Holds(a)
      modifies this, registry, registry.buckets, registry.nodes
      ensures Holds(Dispatch.ExecuteTransfer(a, sub, s, c))
      ensures registry.buckets == old(registry.buckets) || fresh(registry.buckets)
      ensures fresh(registry.nodes - old(registry.nodes))
    {
      if sub.easy.None? || sub.result.None? || sub.id == 0 {
        if sub.easy.Some? || sub.result.Some? || sub.download.Some? || sub.upload.Some? {
          FailUnregistered(a, sub, CURLE_FAILED_INIT);
        }
        return;
      }
      if !s.memory {
        FailUnregistered(a, sub, CURLE_OUT_OF_MEMORY);
        return;
      }
      var t := new Transfer(sub);
      var inserted := Register(a, t, memory);
      if !inserted {
        FailUnregistered(a, sub, CURLE_FAILED_INIT);
        return;
      }
      Start(a, t, s, c);
    }

    /** The rest of execute_transfer once the node is in the registry. */
    method Start(ghost a: Agent, t: Transfer, s: Setup, c: Cancelled)
      requires Holds(Added(a, t.sub)) && !t.active && Acceptable(t.sub) && a.up && t.sub.id !in a.registry && s.memory
      requires t in registry.nodes && t.sub.id in registry.contents && registry.contents[t.sub.id] == t
      requires Owned(registry.nodes - {t}, pointers, null)
      modifies this, registry, registry.buckets, registry.nodes
      ensures Holds(Dispatch.ExecuteTransfer(a, t.sub, s, c))
      ensures registry.buckets == old(registry.buckets) && registry.nodes <= old(registry.nodes)
    {
      var sub := t.sub;
      RemoveAdded(a, sub);
      if !s.optionSet {
        var removed := TakeOut(Added(a, sub), sub.id);
        assert removed == t;
        FailUnregistered(a, sub, CURLE_FAILED_INIT);
        return;
      }
      SetPrivate(Added(a, sub), t);
      ghost var a' := a.(private := a.private[sub.easy.value := sub]);
      assert Added(a', sub) == Added(a, sub).(private := a'.private);
      if !s.handleAdded {
        var removed := TakeOut(Added(a', sub), sub.id);
        RemoveAdded(a', sub);
        FinishTaken(a', t, CURLE_FAILED_INIT, c);
        return;
      }
      Activate(a', t);
    }
  
    // ---- shutdown

    /** Mid-walk: the nodes of `rest` have left the registry together and are still to be finished; `all` maps the
        IDs of these and of the nodes still linked. */
    ghost predicate Leaving(a: Agent, all: map<nat, Transfer>, rest: seq<Transfer>)
      reads this, registry, registry.buckets, registry.nodes, rest
    {
      && registry.ValidShape() && registry.buckets != null && a.up && a.added == added && a.ledger == ledger
      && Elements(rest) !! registry.nodes && NoDuplicates(rest)
      && registry.contents == TransferRegistry.Outside(all, rest)
      && Mirrors(registry.nodes + Elements(rest), all, a.registry)
      && SamePrivate(pointers, a.private)
      && Owned(registry.nodes + Elements(rest), pointers, null)
    }

    method FinishNext(ghost a: Agent, ghost all: map<nat, Transfer>, t: Transfer, ghost rest: seq<Transfer>, code: int,
                      c: Cancelled)
      requires Leaving(a, all, rest) && rest != [] && t == rest[0]
      modifies this, t
      ensures Leaving(Finish(a, t.sub.id, code, c), all - {t.sub.id}, rest[1..])
    {
      ghost var id, nodes, more := t.sub.id, registry.nodes + Elements(rest), registry.nodes + Elements(rest[1..]);
      MirrorsNode(nodes, all, a.registry, t);
      OutsideNext(all, rest, id);
      assert more == nodes - {t};
      MirrorsRemove(nodes, all, a.registry, id, t, more);
      OwnedLeaves(nodes, pointers, t, more);
      OwnedForgets(more, pointers, t);
      SameForgets(pointers, a.private, t.sub.easy);
      t.next := null;
      FinishDetached(t, code, c);
    }
  
    /** Finish every node of a detached chain; returns the walked IDs. */
    method FinishChain(ghost a: Agent, ghost all: map<nat, Transfer>, head: Transfer?, ghost chain: seq<Transfer>,
                       code: int, asked: nat -> Cancelled)
      returns (ghost done: seq<nat>)
      requires Leaving(a, all, chain) && Linked(head, chain)
      modifies this, chain
      ensures Leaving(FinishEach(a, done, code, asked), registry.contents, [])
      ensures forall id :: id in all ==> id in done || id in registry.contents
    {
      var t := head;
      done := [];
      ghost var rest, now, left := chain, a, all;
      while t != null
        invariant Elements(rest) <= Elements(chain) && Linked(t, rest)
        invariant Leaving(now, left, rest) && now == FinishEach(a, done, code, asked)
        invariant forall id :: id in all ==> id in done || id in left
        decreases |rest|
      {
        LinkedTail(t, rest);
        var next := t.next;
        var id := t.sub.id;
        assert t in Elements(rest);
        FinishNext(now, left, t, rest, code, asked(id));
        FinishEachJoin(a, done, [id], code, asked);
        done := done + [id];
        now := Finish(now, id, code, asked(id));
        left := left - {id};
        rest := rest[1..];
        t := next;
      }
      assert TransferRegistry.Outside(left, []) == left;
    }
  
    /** A whole chain has just left the registry. */
    ghost method ChainLeaves(a: Agent, all: map<nat, Transfer>, nodes: set<Transfer>, chain: seq<Transfer>)
      requires registry.ValidShape() && registry.buckets != null && a.up && a.added == added && a.ledger == ledger
      requires Elements(chain) <= nodes && registry.nodes == nodes - Elements(chain) && NoDuplicates(chain)
      requires registry.contents == TransferRegistry.Outside(all, chain)
      requires Mirrors(nodes, all, a.registry) && SamePrivate(pointers, a.private) && Owned(nodes, pointers, null)
      ensures Leaving(a, all, chain)
    {
      assert registry.nodes + Elements(chain) == nodes;
    }

    /** One bucket of the walk. */
    method FinishBucket(ghost a: Agent, index: nat, code: int, asked: nat -> Cancelled) returns (ghost done: seq<nat>)
      requires Leaving(a, registry.contents, []) && index < registry.buckets.Length
      modifies this, registry, registry.buckets, registry.nodes
      ensures Leaving(FinishEach(a, done, code, asked), registry.contents, [])
      ensures forall id :: id in old(registry.contents) ==> id in done || id in registry.contents
      ensures |old(registry.chains)| == old(registry.buckets.Length)
      ensures registry.chains == old(registry.chains)[index := []]
      ensures registry.nodes <= old(registry.nodes) && registry.buckets == old(registry.buckets)
    {
      ghost var all, nodes := registry.contents, registry.nodes;
      assert nodes + Elements([]) == nodes;
      ghost var chain;
      var head;
      head, chain := registry.Detach(index);
      ChainLeaves(a, all, nodes, chain);
      done := FinishChain(a, all, head, chain, code, asked);
    }

    /** The walk over all buckets. */
    method WalkBuckets(ghost a: Agent, code: int, asked: nat -> Cancelled) returns (ghost done: seq<nat>)
      requires Leaving(a, registry.contents, [])
      modifies this, registry, registry.buckets, registry.nodes
      ensures Leaving(FinishEach(a, done, code, asked), registry.contents, [])
      ensures forall id :: id in old(registry.contents) ==> id in done || id in registry.contents
      ensures |registry.chains| == registry.buckets.Length
      ensures forall b :: 0 <= b < |registry.chains| ==> registry.chains[b] == []
      ensures registry.nodes <= old(registry.nodes) && registry.buckets == old(registry.buckets)
    {
      done := [];
      ghost var now := a;
      for index := 0 to registry.buckets.Length
        invariant registry.nodes <= old(registry.nodes) && registry.buckets == old(registry.buckets)
        invariant Leaving(now, registry.contents, []) && now == FinishEach(a, done, code, asked)
        invariant forall id :: id in old(registry.contents) ==> id in done || id in registry.contents
        invariant |registry.chains| == registry.buckets.Length
        invariant forall b :: 0 <= b < index ==> registry.chains[b] == []
      {
        ghost var more := FinishBucket(now, index, code, asked);
        FinishEachJoin(a, done, more, code, asked);
        now := FinishEach(now, more, code, asked);
        done := done + more;
      }
    }

    /** Before the walk nothing has left the registry. */
    ghost method WalkStarts(a: Agent)
      requires Holds(a) && a.up
      ensures Leaving(a, registry.contents, []) && registry.contents.Keys == a.registry.Keys
    {
      ChainLeaves(a, registry.contents, registry.nodes, []);
    }

    /** Every registered transfer is finished, bucket by bucket. */
    method FinishRegistered(ghost a: Agent, code: int, asked: nat -> Cancelled) returns (ghost done: seq<nat>)
      requires Holds(a) && a.up
      modifies this, registry, registry.buckets, registry.nodes
      ensures Leaving(FinishEach(a, done, code, asked), registry.contents, [])
      ensures forall id :: id in a.registry ==> id in done
      ensures forall b :: 0 <= b < |registry.chains| ==> registry.chains[b] == []
      ensures registry.nodes <= old(registry.nodes) && registry.buckets == old(registry.buckets)
    {
      ghost var all := registry.contents;
      WalkStarts(a);
      done := WalkBuckets(a, code, asked);
      registry.EmptyTable();
      assert forall id :: id in all ==> id in done;
    }

    method TakeMessage(ghost a: Agent, ghost items: seq<Message>) returns (message: Option<Message>)
      requires Leaving(a, registry.contents, []) && chan.Holds(items)
      modifies chan, chan.buffer
      ensures Leaving(a, registry.contents, [])
      ensures message == if items == [] then None else Some(items[0])
      ensures chan.Holds(if items == [] then [] else items[1..])
    {
      message := chan.Dequeue(items);
    }

    method FailQueued(ghost a: Agent, message: Message, code: int)
      requires Leaving(a, registry.contents, [])
      modifies this`ledger
      ensures Leaving(DrainOne(a, message, code), registry.contents, [])
    {
      if message.Execute? {
        Settle(message.payload, code);
      }
    }

    /** Messages still queued: the transfers are failed, anything else is dropped. */
    method DrainQueue(ghost a: Agent, ghost items: seq<Message>, code: int)
      requires Leaving(a, registry.contents, []) && chan.Holds(items)
      modifies this, chan, chan.buffer
      ensures Leaving(DrainAll(a, items, code), registry.contents, []) && chan.Holds([])
    {
      ghost var now, rest := a, items;
      var message := TakeMessage(now, rest);
      while message.Some?
        invariant message == if rest == [] then None else Some(rest[0])
        invariant chan.Holds(if rest == [] then [] else rest[1..])
        invariant Leaving(now, registry.contents, [])
        invariant DrainAll(now, rest, code) == DrainAll(a, items, code)
        decreases |rest|
      {
        FailQueued(now, message.value, code);
        now := DrainOne(now, message.value, code);
        rest := rest[1..];
        message := TakeMessage(now, rest);
      }
    }

    /** registry_destroy. */
    method CloseRegistry(ghost a: Agent)
      requires Leaving(a, registry.contents, [])
      requires forall b :: 0 <= b < |registry.chains| ==> registry.chains[b] == []
      modifies registry
      ensures Holds(a.(up := false)) && registry.nodes == {} && registry.buckets == null
    {
      registry.EmptyTable();
      assert registry.nodes + Elements([]) == registry.nodes;
      registry.Destroy();
    }

    /** shutdown_message_context once its close barrier has returned. A second call finds no registry. */
    method Shutdown(ghost a: Agent, ghost items: seq<Message>, code: int, asked: nat -> Cancelled)
      returns (ghost done: seq<nat>)
      requires Holds(a) && chan.Holds(items)
      modifies this, registry, registry.buckets, registry.nodes, chan, chan.buffer
      ensures a.up ==> Holds(AfterShutdown(a, done, items, code, asked)) && chan.Holds([])
      ensures a.up ==> forall id :: id in a.registry ==> id in done
      ensures !a.up ==> Holds(a) && chan.Holds(items)
      ensures registry.nodes <= old(registry.nodes) && registry.buckets == null
    {
      done := [];
      if registry.buckets == null {
        return;
      }
      done := FinishRegistered(a, code, asked);
      DrainQueue(FinishEach(a, done, code, asked), items, code);
      CloseRegistry(AfterShutdownWalk(a, done, items, code, asked));
    }
  
    // ---- the dispatch loop

    method HandleMessage(ghost a: Agent, message: Message, r: Answers)
      requires Holds(a) && !message.Stop?
      modifies this, registry, registry.buckets, registry.nodes
      ensures Holds(AfterMessage(a, message, r.setup, r.pauseCode, r.cancelled))
      ensures registry.buckets == old(registry.buckets) || fresh(registry.buckets)
      ensures fresh(registry.nodes - old(registry.nodes))
    {
      match message
      case Execute(sub) => ExecuteTransfer(a, sub, r.setup, r.cancelled, r.memory);
      case Cancel(id) => CancelTransfer(a, id, r.cancelled);
      case Resume(id) => ResumeTransfer(a, id, r.pauseCode, r.cancelled);
    }

    /** The k-th accepted message, if any; the registry is not concerned. */
    method NextMessage(ghost order: seq<Message>, ghost k: nat, ghost a: Agent) returns (message: Option<Message>)
      requires Holds(a) && k <= |order| && chan.Holds(order[k..])
      modifies chan, chan.buffer
      ensures Holds(a)
      ensures message == if k == |order| then None else Some(order[k])
      ensures chan.Holds(if k == |order| then [] else order[k + 1..])
    {
      message := chan.Dequeue(order[k..]);
    }

    method HandleNext(ghost order: seq<Message>, ghost k: nat, ghost a: Agent, message: Message, r: Answers)
      returns (ghost a': Agent)
      requires Holds(a) && !message.Stop? && Underway(order, k, a) && k < |order| && message == order[k]
      modifies this, registry, registry.buckets, registry.nodes
      ensures Holds(a') && Underway(order, k + 1, a') && a'.up == a.up
      ensures registry.buckets == old(registry.buckets) || fresh(registry.buckets)
      ensures fresh(registry.nodes - old(registry.nodes))
    {
      a' := AfterMessage(a, message, r.setup, r.pauseCode, r.cancelled);
      HandleUnderway(order, k, a, r, a');
      HandleMessage(a, message, r);
    }

    /** STOP: shutdown also settles what is queued behind it; on an agent already down it does nothing. */
    method HandleStop(ghost order: seq<Message>, ghost k: nat, ghost a: Agent, asked: nat -> Cancelled)
      returns (ghost a': Agent, ghost next: nat)
      requires Holds(a) && Underway(order, k, a) && k < |order| && order[k].Stop? && chan.Holds(order[k + 1..])
      modifies this, registry, registry.buckets, registry.nodes, chan, chan.buffer
      ensures k < next <= |order| && Holds(a') && Underway(order, next, a') && !a'.up && chan.Holds(order[next..])
      ensures registry.buckets == null && registry.nodes <= old(registry.nodes)
    {
      StopUnderway(order, k, a);
      ghost var done := Shutdown(a, order[k + 1..], CURLE_ABORTED_BY_CALLBACK, asked);
      a', next := a, k + 1;
      if a.up {
        ShutdownUnderway(order, k + 1, a, done, CURLE_ABORTED_BY_CALLBACK, asked);
        a' := AfterShutdown(a, done, order[k + 1..], CURLE_ABORTED_BY_CALLBACK, asked);
        next := |order|;
        assert order[next..] == [];
      }
    }

    method HandleOne(ghost order: seq<Message>, ghost k: nat, ghost a: Agent, message: Message, r: Answers,
                     asked: nat -> Cancelled)
      returns (ghost a': Agent, ghost next: nat)
      requires Holds(a) && Underway(order, k, a) && k < |order| && message == order[k] && chan.Holds(order[k + 1..])
      modifies this, registry, registry.buckets, registry.nodes, chan, chan.buffer
      ensures k < next <= |order| && Holds(a') && Underway(order, next, a') && chan.Holds(order[next..])
      ensures a'.up ==> a.up && next == k + 1 && !order[k].Stop?
      ensures registry.buckets == null || registry.buckets == old(registry.buckets) || fresh(registry.buckets)
      ensures fresh(registry.nodes - old(registry.nodes))
    {
      if message.Stop? {
        a', next := HandleStop(order, k, a, asked);
      } else {
        a' := HandleNext(order, k, a, message, r);
        next := k + 1;
      }
    }

    /** Between rounds of the dispatch loop: k messages handled, the next one already taken. Kept closed. */
    ghost predicate Between(order: seq<Message>, k: nat, a: Agent, message: Option<Message>)
      reads this, registry, registry.buckets, registry.nodes, chan, chan.buffer
    {
      && k <= |order| && message == (if k == |order| then None else Some(order[k]))
      && forall facet :: Shown(facet) && facet.Rounds? ==>
        Holds(a) && Underway(order, k, a) && chan.Holds(if k == |order| then [] else order[k + 1..])
    }

    method Round(ghost order: seq<Message>, ghost k: nat, ghost a: Agent, message: Message, r: Answers,
                 asked: nat -> Cancelled)
      returns (ghost a': Agent, ghost next: nat, message': Option<Message>)
      requires Between(order, k, a, Some(message))
      modifies this, registry, registry.buckets, registry.nodes, chan, chan.buffer
      ensures k < next <= |order| && Between(order, next, a', message')
      ensures a'.up ==> a.up && next == k + 1 && !order[k].Stop?
      ensures registry.buckets == null || registry.buckets == old(registry.buckets) || fresh(registry.buckets)
      ensures fresh(registry.nodes - old(registry.nodes))
    {
      assert Shown(Rounds);
      a', next := HandleOne(order, k, a, message, r, asked);
      message' := NextMessage(order, next, a');
    }

    /** async_check_outer_messages. `order` is everything accepted so far, of which the agent has handled the first n.
        The loop empties the queue and handles each message once, in order; after a STOP every EXECUTE has completed
        exactly once and the registry is gone. */
    method CheckMessages(ghost order: seq<Message>, ghost n: nat, ghost a: Agent,
                         answers: nat -> Answers, asked: nat -> Cancelled)
      returns (ghost a': Agent)
      requires Holds(a) && Underway(order, n, a) && n <= |order| && chan.Holds(order[n..])
      modifies this, registry, registry.buckets, registry.nodes, chan, chan.buffer
      ensures Holds(a') && Underway(order, |order|, a') && chan.Holds([])
      ensures a'.up ==> a.up && forall i :: n <= i < |order| ==> !order[i].Stop?
      ensures !a'.up ==> forall i :: 0 <= i < |order| && order[i].Execute? ==> DoneOnce(a'.ledger, order[i].payload)
    {
      a' := a;
      ghost var k: nat := n;
      var round := 0;
      var message := NextMessage(order, k, a');
      while message.Some?
        invariant n <= k <= |order| && Between(order, k, a', message)
        invariant a'.up ==> a.up && forall i :: n <= i < k ==> !order[i].Stop?
        invariant registry.buckets == old(registry.buckets) || registry.buckets == null || fresh(registry.buckets)
        invariant fresh(registry.nodes - old(registry.nodes))
        decreases |order| - k
      {
        a', k, message := Round(order, k, a', message.value, answers(round), asked);
        round := round + 1;
      }
      assert Shown(Rounds);
      if !a'.up {
        DownDone(order, a');
      }
    }
  }
}

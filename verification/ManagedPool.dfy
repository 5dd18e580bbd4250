/** The managed pool as the program has it: workers are shared objects whose counts and marks are updated in place. */
module ManagedPool {
  import opened Pool
  import opened Words
  import P = Pool

  class ManagedWorker {
    const id: nat
    var active: nat
    var utilization: real
    var quiescing: bool
    var running: bool

    constructor (id: nat)
      ensures this.id == id && Is(P.Fresh(id))
    {
      this.id := id;
      active, utilization, quiescing, running := 0, 0.0, false, true;
    }

    ghost predicate Is(w: Worker)
      reads this
    {
      w == Worker(id, active, utilization, quiescing, running)
    }
  }

  /** The objects are distinct, and show these values. */
  ghost predicate Show(workers: seq<ManagedWorker>, ws: seq<Worker>)
    reads workers
  {
    && |workers| == |ws|
    && (forall i, j :: 0 <= i < j < |workers| ==> workers[i] != workers[j])
    && (forall i :: 0 <= i < |workers| ==> workers[i].Is(ws[i]))
  }

  // ---- loops over the workers

  /** A look at every reactor; those found stopped are marked as draining. */
  method Refresh(workers: seq<ManagedWorker>, ghost ws: seq<Worker>, dead: set<nat>)
    requires Show(workers, ws)
    modifies workers
    ensures Show(workers, Notice(ws, dead))
  {
    for i := 0 to |workers|
      invariant forall k :: 0 <= k < |workers| ==> workers[k].Is(if k < i then Noticed(ws[k], dead) else ws[k])
    {
      var worker := workers[i];
      if worker.id in dead {
        worker.running := false;
      }
      if !worker.running {
        worker.quiescing := true;
      }
    }
  }

  method CountOpen(workers: seq<ManagedWorker>, ghost ws: seq<Worker>) returns (count: nat)
    requires Show(workers, ws)
    ensures count == OpenCount(ws)
  {
    count := 0;
    for i := 0 to |workers|
      invariant count == OpenCount(ws[..i])
    {
      assert ws[..i + 1][..i] == ws[..i] && workers[i].Is(ws[i]);
      if !workers[i].quiescing {
        count := count + 1;
      }
    }
    assert ws[..|ws|] == ws;
  }

  method SumActive(workers: seq<ManagedWorker>, ghost ws: seq<Worker>) returns (sum: nat)
    requires Show(workers, ws)
    ensures sum == Demand(ws)
  {
    sum := 0;
    for i := 0 to |workers|
      invariant sum == Demand(ws[..i])
    {
      assert ws[..i + 1][..i] == ws[..i] && workers[i].Is(ws[i]);
      if !workers[i].quiescing {
        sum := sum + workers[i].active;
      }
    }
    assert ws[..|ws|] == ws;
  }

  /** minimumBy over the selectable workers: the first of the least. */
  method PickLeast(workers: seq<ManagedWorker>, ghost ws: seq<Worker>, byUtilization: bool) returns (best: int)
    requires Show(workers, ws)
    ensures best == Least(byUtilization, ws, |ws|)
  {
    best := -1;
    for i := 0 to |workers|
      invariant -1 <= best < i && best == Least(byUtilization, ws, i)
    {
      assert workers[i].Is(ws[i]) && (best >= 0 ==> workers[best].Is(ws[best]));
      var w := workers[i];
      if !w.quiescing {
        if best < 0 || w.active < workers[best].active
           || (byUtilization && w.active == workers[best].active && w.utilization < workers[best].utilization) {
          best := i;
        }
      }
    }
  }

  method UpdateUtilization(workers: seq<ManagedWorker>, ghost ws: seq<Worker>, alpha: real)
    requires Show(workers, ws)
    modifies workers
    ensures Show(workers, Sampled(ws, alpha))
  {
    for i := 0 to |workers|
      invariant forall k :: 0 <= k < |workers| ==> workers[k].Is(if k < i then Sampled(ws, alpha)[k] else ws[k])
    {
      var worker := workers[i];
      assert worker.Is(ws[i]);
      var busy := if worker.active > 0 then 1.0 else 0.0;
      worker.utilization := worker.utilization + alpha * (busy - worker.utilization);
    }
  }

  method Finished(workers: seq<ManagedWorker>, ghost ws: seq<Worker>) returns (finished: set<nat>)
    requires Show(workers, ws)
    ensures finished == DrainFinished(ws)
  {
    finished := {};
    for i := 0 to |workers|
      invariant finished == set k | 0 <= k < i && ws[k].quiescing && ws[k].active == 0 :: ws[k].id
    {
      assert workers[i].Is(ws[i]);
      if workers[i].quiescing && workers[i].active == 0 {
        finished := finished + {workers[i].id};
      }
    }
  }

  /** Give back one transfer of the worker with this ID. */
  method Decrement(workers: seq<ManagedWorker>, ghost ws: seq<Worker>, id: nat) returns (found: int)
    requires Show(workers, ws)
    modifies workers
    ensures found == Find(ws, id, |ws|)
    ensures found < 0 ==> Show(workers, ws)
    ensures found >= 0 ==>
              var active := if ws[found].active == 0 then 0 else ws[found].active - 1;
              Show(workers, ws[found := ws[found].(active := active)])
  {
    found := -1;
    for i := 0 to |workers|
      invariant found == Find(ws, id, i)
    {
      assert workers[i].Is(ws[i]);
      if workers[i].id == id {
        found := i;
      }
    }
    if found >= 0 {
      var worker := workers[found];
      worker.active := if worker.active == 0 then 0 else worker.active - 1;
    }
  }

  method MarkOne(workers: seq<ManagedWorker>, ghost ws: seq<Worker>, i: nat)
    requires Show(workers, ws) && i < |workers|
    modifies workers
    ensures Show(workers, ws[i := ws[i].(quiescing := true)])
  {
    assert workers[i].Is(ws[i]);
    workers[i].quiescing := true;
  }

  method MarkAll(workers: seq<ManagedWorker>, ghost ws: seq<Worker>)
    requires Show(workers, ws)
    modifies workers
    ensures Show(workers, seq(|ws|, i requires 0 <= i < |ws| => ws[i].(quiescing := true)))
  {
    for i := 0 to |workers|
      invariant forall k :: 0 <= k < |workers| ==> workers[k].Is(if k < i then ws[k].(quiescing := true) else ws[k])
    {
      workers[i].quiescing := true;
    }
  }

  method FilterOut(workers: seq<ManagedWorker>, ghost ws: seq<Worker>, gone: set<nat>)
    returns (kept: seq<ManagedWorker>)
    requires Show(workers, ws)
    ensures Show(kept, Keep(ws, gone)) && forall w :: w in kept ==> w in workers
  {
    kept := [];
    for i := 0 to |workers|
      invariant Show(kept, Keep(ws[..i], gone)) && forall w :: w in kept ==> w in workers[..i]
    {
      assert ws[..i + 1][..i] == ws[..i] && workers[i].Is(ws[i]);
      assert workers[i] !in workers[..i];
      if workers[i].id !in gone {
        kept := kept + [workers[i]];
      }
    }
    assert ws[..|ws|] == ws;
  }

  // ---- the pool

  class Manager {
    const policy: Policy
    var workers: seq<ManagedWorker>
    var load: real
    var streak: nat
    var lastSpawn: nat
    var nextId: nat
    var closed: bool

    ghost predicate Holds(m: Managed)
      reads this, workers
    {
      && Show(workers, m.workers)
      && load == m.load && streak == m.streak && lastSpawn == m.lastSpawn && nextId == m.nextId && closed == m.closed
    }

    constructor (policy: Policy)
      requires policy.Valid()
      ensures this.policy == policy && fresh(workers)
      ensures Holds(Managed(seq(policy.minAgents, i requires 0 <= i < policy.minAgents => P.Fresh(i)), 0.0, 0, 0,
                            policy.minAgents, false))
    {
      this.policy := policy;
      workers := [];
      load, streak, lastSpawn, nextId, closed := 0.0, 0, 0, policy.minAgents, false;
      new;
      for i := 0 to policy.minAgents
        invariant |workers| == i && fresh(workers) && this.policy == policy
        invariant load == 0.0 && streak == 0 && lastSpawn == 0 && nextId == policy.minAgents && !closed
        invariant Show(workers, seq(i, k requires 0 <= k < i => P.Fresh(k)))
      {
        var worker := new ManagedWorker(i);
        workers := workers + [worker];
      }
    }

    /** spawnManagedWorker. */
    method SpawnWorker(ghost m: Managed, now: nat, started: bool) returns (spawned: bool)
      requires Holds(m)
      modifies this
      ensures spawned == CanSpawn(m, started)
      ensures Holds(if spawned then Spawn(m, now) else m)
      ensures forall w :: w in workers ==> w in old(workers) || fresh(w)
    {
      if nextId == MAX_INT || !started {
        return false;
      }
      var worker := new ManagedWorker(nextId);
      workers := workers + [worker];
      streak := 0;
      lastSpawn := now;
      nextId := nextId + 1;
      spawned := true;
    }

    method ShouldGrow(ghost m: Managed, now: nat, least: nat) returns (grows: bool)
      requires Holds(m) && least < |workers|
      ensures grows == Grows(policy, now, m, least)
    {
      var count := CountOpen(workers, m.workers);
      assert workers[least].Is(m.workers[least]);
      grows := workers[least].active >= policy.growLoad && count < policy.maxAgents
               && SubWord(now, lastSpawn) >= MicrosToNanos(policy.spawnCooldown);
    }

    method Pick(ghost m: Managed, now: nat, dead: set<nat>, started: bool) returns (picked: int)
      requires Holds(m)
      modifies this, workers
      ensures Holds(AdmissionPick(policy, now, m, dead, started).s)
      ensures picked == AdmissionPick(policy, now, m, dead, started).picked
      ensures forall w :: w in workers ==> w in old(workers) || fresh(w)
    {
      Refresh(workers, m.workers, dead);
      ghost var looked := m.(workers := Notice(m.workers, dead));
      picked := PickLeast(workers, looked.workers, false);
      var grows := true;
      if picked >= 0 {
        grows := ShouldGrow(looked, now, picked);
      }
      if grows {
        var position := |workers|;
        var spawned := SpawnWorker(looked, now, started);
        picked := if spawned then position else -1;
      }
    }

    /** acquireLease's critical section; -1 where it throws. */
    method Acquire(ghost m: Managed, now: nat, dead: set<nat>, started: bool) returns (workerId: int)
      requires Holds(m) && !m.closed
      modifies this, workers
      ensures var a := AdmissionPick(policy, now, m, dead, started);
              if 0 <= a.picked < |a.s.workers|
              then Holds(Increment(a.s, a.picked)) && workerId == a.s.workers[a.picked].id
              else Holds(a.s) && workerId == -1
      ensures forall w :: w in workers ==> w in old(workers) || fresh(w)
    {
      var picked := Pick(m, now, dead, started);
      ghost var a := AdmissionPick(policy, now, m, dead, started);
      if picked < 0 || picked >= |workers| {
        return -1;
      }
      assert workers[picked].Is(a.s.workers[picked]);
      var worker := workers[picked];
      assert worker in workers;
      worker.active := worker.active + 1;
      workerId := worker.id;
    }

    method ReleaseWorker(ghost m: Managed, id: nat) returns (retiring: set<nat>)
      requires Holds(m)
      modifies workers
      ensures Holds(Release(m, id).s) && retiring == Release(m, id).retiring
    {
      var found := Decrement(workers, m.workers, id);
      retiring := {};
      if found >= 0 {
        assert workers[found].Is(Release(m, id).s.workers[found]);
        if workers[found].active == 0 && workers[found].quiescing {
          retiring := {id};
        }
      }
    }

    // ---- the controller

    method Measure(ghost m: Managed, dead: set<nat>)
      requires Holds(m)
      modifies this`load, workers
      ensures Holds(Measured(policy, m, dead))
    {
      Refresh(workers, m.workers, dead);
      ghost var ws := Notice(m.workers, dead);
      var sum := SumActive(workers, ws);
      UpdateUtilization(workers, ws, policy.alpha);
      load := Smooth(policy.alpha, load, sum as real);
    }

    method ShrinkStep(ghost m: Managed, later: set<nat>)
      requires Holds(m)
      modifies this`streak, workers
      ensures Holds(Shrink(policy, m, later))
    {
      if streak + 1 < policy.sustainTicks {
        streak := streak + 1;
        return;
      }
      Refresh(workers, m.workers, later);
      ghost var ws := Notice(m.workers, later);
      var victim := PickLeast(workers, ws, true);
      if victim >= 0 {
        MarkOne(workers, ws, victim);
        streak := 0;
      }
    }

    method DecideDrain(ghost m: Managed, now: nat, dead: set<nat>, later: set<nat>)
      requires Holds(m)
      modifies this`load, this`streak, workers
      ensures Holds(Decide(policy, now, m, dead, later))
    {
      Measure(m, dead);
      ghost var measured := Measured(policy, m, dead);
      var count := CountOpen(workers, measured.workers);
      var perWorker := if count == 0 then 0.0 else load / count as real;
      var canKill := SubWord(now, lastSpawn) >= MicrosToNanos(policy.killCooldown);
      if count > policy.minAgents && canKill && perWorker <= policy.shrinkLoad {
        ShrinkStep(measured, later);
      } else {
        streak := 0;
      }
    }

    /** One look, and a spawn if too few are selectable. */
    method RestoreRound(ghost m: Managed, now: nat, round: Round) returns (again: bool)
      requires Holds(m)
      modifies this, workers
      ensures var looked := m.(workers := Notice(m.workers, round.dead));
              && again == (OpenCount(looked.workers) < policy.minAgents && CanSpawn(looked, round.started))
              && Holds(if again then Spawn(looked, now) else looked)
      ensures forall w :: w in workers ==> w in old(workers) || fresh(w)
    {
      Refresh(workers, m.workers, round.dead);
      ghost var looked := m.(workers := Notice(m.workers, round.dead));
      var count := CountOpen(workers, looked.workers);
      again := false;
      if count < policy.minAgents {
        again := SpawnWorker(looked, now, round.started);
      }
    }

    method RestoreMinimum(ghost m: Managed, now: nat, rounds: seq<Round>)
      requires Holds(m)
      modifies this, workers
      ensures Holds(Restore(policy, now, m, rounds))
      ensures forall w :: w in workers ==> w in old(workers) || fresh(w)
    {
      ghost var state := m;
      var i := 0;
      while i < |rounds|
        invariant i <= |rounds| && Holds(state)
        invariant Restore(policy, now, state, rounds[i..]) == Restore(policy, now, m, rounds)
        invariant forall k :: 0 <= k < |workers| ==> workers[k] in old(workers) || fresh(workers[k])
        decreases |rounds| - i
      {
        assert rounds[i..][1..] == rounds[i + 1..];
        assert forall w :: w in workers ==> w in old(workers) || fresh(w);
        var again := RestoreRound(state, now, rounds[i]);
        if !again {
          return;
        }
        state := Spawn(state.(workers := Notice(state.workers, rounds[i].dead)), now);
        i := i + 1;
      }
    }

    /** controllerTick: the set of workers whose loops should now be stopped. */
    method ControllerTick(ghost m: Managed, now: nat, dead: set<nat>, later: set<nat>, rounds: seq<Round>)
      returns (retiring: set<nat>)
      requires Holds(m)
      modifies this, workers
      ensures Holds(Tick(policy, now, m, dead, later, rounds).s)
      ensures retiring == Tick(policy, now, m, dead, later, rounds).retiring
      ensures forall w :: w in workers ==> w in old(workers) || fresh(w)
    {
      if closed {
        return {};
      }
      DecideDrain(m, now, dead, later);
      ghost var decided := Decide(policy, now, m, dead, later);
      retiring := Finished(workers, decided.workers);
      RestoreMinimum(decided, now, rounds);
    }

    method RemoveRetired(ghost m: Managed, gone: set<nat>)
      requires Holds(m)
      modifies this`workers
      ensures Holds(Removed(m, gone)) && forall w :: w in workers ==> w in old(workers)
    {
      workers := FilterOut(workers, m.workers, gone);
    }

    /** First section of closeManagedAgent. */
    method BeginClose(ghost m: Managed)
      requires Holds(m)
      modifies this`closed, workers
      ensures Holds(CloseAll(m))
    {
      MarkAll(workers, m.workers);
      closed := true;
    }

    /** Its last section, after every reactor was released. */
    method FinishClose(ghost m: Managed)
      requires Holds(m)
      modifies this`workers, this`load, this`streak
      ensures Holds(Emptied(m))
    {
      workers, load, streak := [], 0.0, 0;
    }
  }
}

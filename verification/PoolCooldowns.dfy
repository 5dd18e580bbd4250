/** For which policies the pool's two cooldowns hold on every run, measured from when the newest worker really
    started. */
module PoolCooldowns {
  import opened Counting
  import opened Messages
  import opened Pool
  import opened PoolSafety
  import opened Words

  /** The admission is about to start a worker although some worker is selectable. */
  predicate Grows(p: Policy, s: State, dead: set<nat>, started: bool) {
    && !s.pool.closed && OpenCount(Notice(s.pool.workers, dead)) > 0
    && AfterAcquire(p, s, dead, started).pool.nextId != s.pool.nextId
  }

  ghost predicate GrowsOnTime(p: Policy) {
    forall s: State, dead, started :: Reachable(p, s) && Grows(p, s, dead, started) ==>
      s.clock - s.born >= MicrosToNanos(p.spawnCooldown)
  }

  /** The tick is about to drain a worker. */
  predicate DrainsNow(p: Policy, s: State, dead: set<nat>, later: set<nat>) {
    s.read.Some? && Drains(p, s.read.value, s.pool, dead, later)
  }

  ghost predicate DrainsOnTime(p: Policy) {
    forall s: State, dead, later :: Reachable(p, s) && DrainsNow(p, s, dead, later) ==>
      s.clock - s.born >= MicrosToNanos(p.killCooldown)
  }

  // ---- reachable states

  ghost predicate Reaches(p: Policy, run: seq<State>, acts: seq<Action>, s: State) {
    IsRun(p, run, acts) && run[|acts|] == s
  }

  ghost predicate Reachable(p: Policy, s: State) {
    exists run, acts :: Reaches(p, run, acts, s)
  }

  lemma StartReachable(p: Policy, clock: nat)
    requires p.Valid() && clock < WORD
    ensures Reachable(p, Start(p, clock))
  {
    assert Reaches(p, [Start(p, clock)], [], Start(p, clock));
  }

  lemma StepReachable(p: Policy, s: State, a: Action, s': State)
    requires Reachable(p, s) && Enabled(s, a) && s' == Apply(p, s, a)
    ensures Reachable(p, s')
  {
    var run, acts :| Reaches(p, run, acts, s);
    var run', acts' := run + [s'], acts + [a];
    forall i | 0 <= i < |acts'|
      ensures StepAt(p, run', acts', i)
    {
      if i < |acts| {
        assert StepAt(p, run, acts, i);
      }
    }
    assert run'[0] == run[0];
    assert Reaches(p, run', acts', s');
  }

  lemma ReachableInv(p: Policy, s: State)
    requires Reachable(p, s)
    ensures p.Valid() && Inv(p, s)
  {
    var run, acts :| Reaches(p, run, acts, s);
    RunKeepsInv(p, run, acts, |acts|);
  }

  /** Workers counted while all but the first are draining, and while none is. */
  lemma {:induction false} SoleOpen(ws: seq<Worker>)
    requires ws != [] && !ws[0].quiescing && forall i :: 0 < i < |ws| ==> ws[i].quiescing
    ensures OpenCount(ws) == 1
  {
    var n := |ws| - 1;
    if n > 0 {
      SoleOpen(ws[..n]);
    } else {
      assert ws[..0] == [];
    }
  }

  // ---- growth

  /** A pool just created, its clock at the end of its range: with the other first workers found dead, k requests have
      gone to worker 0. */
  function Alone(p: Policy, k: nat): State
    requires p.Valid()
  {
    var s := Start(p, WORD - 1);
    if k == 0 then s
    else s.(pool := s.pool.(workers := Survivors(p.minAgents, k)), leases := Homes(1, k), home := Homes(1, k),
            nextLease := k)
  }

  /** Where k leases are when they go round n workers. */
  function Homes(n: nat, k: nat): map<nat, nat>
    requires n > 0
  {
    if k == 0 then map[] else Homes(n, k - 1)[k - 1 := (k - 1) % n]
  }

  function Survivors(n: nat, k: nat): seq<Worker> {
    seq(n, i requires 0 <= i < n => if i == 0 then Fresh(0).(active := k)
        else Fresh(i).(quiescing := true, running := false))
  }

  function Others(n: nat): (ids: set<nat>)
    ensures forall i :: i in ids <==> 1 <= i < n
  {
    if n <= 1 then {} else Others(n - 1) + {n - 1}
  }

  lemma AloneNoticed(p: Policy, k: nat)
    requires p.Valid()
    ensures Notice(Alone(p, k).pool.workers, Others(p.minAgents)) == Survivors(p.minAgents, k)
    ensures OpenCount(Survivors(p.minAgents, k)) == 1
    ensures Least(false, Survivors(p.minAgents, k), p.minAgents) == 0
  {
    SoleOpen(Survivors(p.minAgents, k));
    LeastIsLeast(false, Survivors(p.minAgents, k), p.minAgents);
  }

  lemma AloneStep(p: Policy, k: nat)
    requires p.Valid() && k < p.growLoad
    ensures Alone(p, k + 1) == AfterAcquire(p, Alone(p, k), Others(p.minAgents), true)
  {
    var s, n, next := Alone(p, k), p.minAgents, k + 1;
    AloneNoticed(p, k);
    var looked := s.pool.(workers := Survivors(n, k));
    assert AdmissionPick(p, s.clock, s.pool, Others(n), true) == Admission(looked, 0);
    assert Increment(looked, 0).workers == Survivors(n, next);
    assert k % 1 == 0;
  }

  lemma {:induction false} AloneReachable(p: Policy, k: nat)
    requires p.Valid() && k <= p.growLoad
    ensures Reachable(p, Alone(p, k))
  {
    if k == 0 {
      StartReachable(p, WORD - 1);
    } else {
      var j := k - 1;
      AloneReachable(p, j);
      AloneStep(p, j);
      StepReachable(p, Alone(p, j), Acquire(Others(p.minAgents), true), Alone(p, k));
    }
  }

  lemma AloneGrows(p: Policy)
    requires p.Valid() && p.minAgents < MAX_INT && p.maxAgents > 1
    ensures Grows(p, Alone(p, p.growLoad), Others(p.minAgents), true)
  {
    var s, n := Alone(p, p.growLoad), p.minAgents;
    AloneNoticed(p, p.growLoad);
    var looked := s.pool.(workers := Survivors(n, p.growLoad));
    assert SubWord(s.clock, 0) == WORD - 1;
    assert Pool.Grows(p, s.clock, looked, 0);
  }

  /** The exact condition, over policies: every growing admission of every run comes a spawn cooldown after the newest
      worker really started if and only if there is no cooldown to keep or no room to grow. The first workers' start
      is not recorded, so a pool just created does not wait. */
  lemma GrowthExactly(p: Policy)
    requires p.Valid() && p.minAgents < MAX_INT
    ensures GrowsOnTime(p) <==> p.spawnCooldown == 0 || p.maxAgents == 1
  {
    if p.spawnCooldown == 0 || p.maxAgents == 1 {
      forall s: State, dead, started | Reachable(p, s) && Grows(p, s, dead, started)
        ensures s.clock - s.born >= MicrosToNanos(p.spawnCooldown)
      {
        ReachableInv(p, s);
        GrowthHasRoom(p, s, dead, started);
      }
    } else {
      AloneReachable(p, p.growLoad);
      AloneGrows(p);
    }
  }

  lemma GrowthHasRoom(p: Policy, s: State, dead: set<nat>, started: bool)
    requires Grows(p, s, dead, started)
    ensures OpenCount(Notice(s.pool.workers, dead)) < p.maxAgents
  {
    var ws := Notice(s.pool.workers, dead);
    LeastIsLeast(false, ws, |ws|);
    NoneOpen(ws);
  }

  // ---- drains

  /** How many of k requests that go round n workers worker i gets. */
  function Share(n: nat, k: nat, i: nat): nat
    requires n > 0
  {
    if i < k % n then k / n + 1 else k / n
  }

  function Team(n: nat, k: nat): seq<Worker>
    requires n > 0
  {
    seq(n, i requires 0 <= i < n => Fresh(i).(active := Share(n, k, i)))
  }

  /** A pool just created, whose controller has read the clock one tick of it ago; k requests have gone round its
      workers. */
  function Filling(p: Policy, k: nat): State
    requires p.Valid()
  {
    var s, n := Start(p, WORD - 2), p.minAgents;
    s.(clock := WORD - 1, read := Some(WORD - 2), pool := s.pool.(workers := Team(n, k)),
       leases := Homes(n, k), home := Homes(n, k), nextLease := k)
  }

  lemma NextShare(n: nat, k: nat, i: nat)
    requires i < n
    ensures Share(n, k + 1, i) == Share(n, k, i) + One(i == k % n)
  {
    var q, r := k / n, k % n;
    assert k == q * n + r;
    if r + 1 < n {
      ModuloUnique(k + 1, n, q, r + 1);
    } else {
      ModuloUnique(k + 1, n, q + 1, 0);
    }
  }

  lemma TeamLeast(n: nat, k: nat)
    requires n > 0
    ensures Notice(Team(n, k), {}) == Team(n, k) && OpenCount(Team(n, k)) == n
    ensures Least(false, Team(n, k), n) == k % n && Team(n, k)[k % n].active == k / n
  {
    var ws, r := Team(n, k), k % n;
    FreshAreOpen(ws);
    LeastIsLeast(false, ws, n);
    var least := Least(false, ws, n);
    assert !ws[r].quiescing && ws[r].active == k / n;
    assert least >= 0 && ws[least].active <= ws[r].active;
    assert least > r ==> Less(false, ws[least], ws[r]);
  }

  lemma FillStep(p: Policy, k: nat)
    requires p.Valid() && k / p.minAgents < p.growLoad
    ensures Filling(p, k + 1) == AfterAcquire(p, Filling(p, k), {}, true)
  {
    var s, n, next := Filling(p, k), p.minAgents, k + 1;
    TeamLeast(n, k);
    assert AdmissionPick(p, s.clock, s.pool, {}, true) == Admission(s.pool, k % n);
    forall i | 0 <= i < n
      ensures Increment(s.pool, k % n).workers[i] == Team(n, next)[i]
    {
      NextShare(n, k, i);
    }
    assert Increment(s.pool, k % n).workers == Team(n, next);
  }

  lemma Quotient(k: nat, n: nat, q: nat)
    requires n > 0 && k < q * n
    ensures k / n < q
  {
    assert k == k / n * n + k % n;
    if k / n >= q {
      Multiply(n, q, k / n);
    }
  }

  lemma {:induction false} FillReachable(p: Policy, k: nat)
    requires p.Valid() && k <= p.growLoad * p.minAgents
    ensures Reachable(p, Filling(p, k))
  {
    if k == 0 {
      FillStart(p);
    } else {
      var j := k - 1;
      FillReachable(p, j);
      Quotient(j, p.minAgents, p.growLoad);
      FillStep(p, j);
      StepReachable(p, Filling(p, j), Acquire({}, true), Filling(p, k));
    }
  }

  lemma FillStart(p: Policy)
    requires p.Valid()
    ensures Reachable(p, Filling(p, 0))
  {
    var s := Start(p, WORD - 2);
    StartReachable(p, WORD - 2);
    var read := Apply(p, s, ReadClock);
    StepReachable(p, s, ReadClock, read);
    StepReachable(p, read, Advance(WORD - 1), Apply(p, read, Advance(WORD - 1)));
    assert Team(p.minAgents, 0) == Initial(p);
  }

  /** A stale tick is due, above the minimum, right after a start; only the transfers in flight may hold it up. */
  predicate Ripe(p: Policy, s: State) {
    && s.read == Some(WORD - 2) && s.clock == WORD - 1 && s.born == WORD - 1 && s.pool.lastSpawn == WORD - 1
    && !s.pool.closed && s.pool.streak == 0 && s.pool.load == 0.0
    && |s.pool.workers| == p.minAgents + 1
    && (forall i :: 0 <= i < |s.pool.workers| ==> !s.pool.workers[i].quiescing && s.pool.workers[i].running)
    && s.releasing == map[] && (forall l :: l in s.leases ==> l !in s.done)
  }

  lemma GrownIsRipe(p: Policy) returns (s: State)
    requires p.Valid() && p.minAgents < MAX_INT && p.minAgents < p.maxAgents
    ensures Reachable(p, s) && Ripe(p, s)
  {
    var n, k := p.minAgents, p.growLoad * p.minAgents;
    var full := Filling(p, k);
    FillReachable(p, k);
    ModuloUnique(k, n, p.growLoad, 0);
    TeamLeast(n, k);
    assert SubWord(full.clock, 0) == WORD - 1;
    assert Pool.Grows(p, full.clock, full.pool, 0);
    s := AfterAcquire(p, full, {}, true);
    StepReachable(p, full, Acquire({}, true), s);
  }

  /** A thread that retires nothing. */
  lemma FreeThread(retiring: map<Pid, Retirement>) returns (p: Pid)
    ensures p !in retiring
  {
    p := 0;
    ghost var rest := retiring.Keys;
    while p in retiring
      invariant forall q :: q in retiring && q !in rest ==> q < p
      invariant forall q :: q in rest ==> q in retiring && q >= p
      decreases |rest|
    {
      rest := rest - {p};
      p := p + 1;
    }
  }

  lemma GiveBack(p: Policy, s: State, lease: nat, pid: Pid, s': State)
    requires Inv(p, s) && Ripe(p, s) && lease in s.leases && pid !in s.retiring
    requires var called := AfterCall(s, lease, pid); s' == AfterRelease(called, called.releasing[pid], pid)
    ensures Ripe(p, s') && s'.leases == s.leases - {lease}
  {
    ReleaseKeeps(s.pool, lease, s.leases, s.nextLease);
  }

  lemma {:induction false} AllGivenBack(p: Policy, s: State) returns (s': State)
    requires Reachable(p, s) && Ripe(p, s)
    ensures Reachable(p, s') && Ripe(p, s') && s'.leases == map[]
    decreases |s.leases|
  {
    if s.leases == map[] {
      s' := s;
    } else {
      var lease :| lease in s.leases;
      var pid := FreeThread(s.retiring);
      ReachableInv(p, s);
      var called := Apply(p, s, CallRelease(lease, pid));
      StepReachable(p, s, CallRelease(lease, pid), called);
      var back := Apply(p, called, ReleaseLease(pid));
      StepReachable(p, called, ReleaseLease(pid), back);
      GiveBack(p, s, lease, pid, back);
      assert |s.leases - {lease}| < |s.leases| by {
        assert (s.leases - {lease}).Keys == s.leases.Keys - {lease};
      }
      s' := AllGivenBack(p, back);
    }
  }

  lemma {:induction false} NoDemand(ws: seq<Worker>)
    requires forall i :: 0 <= i < |ws| ==> ws[i].active == 0
    ensures Demand(ws) == 0
  {
    if ws != [] {
      NoDemand(ws[..|ws| - 1]);
    }
  }

  lemma IdleDrains(p: Policy, s: State)
    requires p.Valid() && Inv(p, s) && Ripe(p, s) && s.leases == map[] && p.sustainTicks == 1
    ensures DrainsNow(p, s, {}, {})
  {
    var ws := s.pool.workers;
    forall i | 0 <= i < |ws|
      ensures ws[i].active == 0
    {
      assert On(s.leases, ws[i].id) == {};
    }
    assert Notice(ws, {}) == ws;
    NoDemand(ws);
    var measured := Measured(p, s.pool, {}).workers;
    FreshAreOpen(measured);
    assert measured == Notice(measured, {});
    LeastIsLeast(true, measured, |measured|);
    assert Measured(p, s.pool, {}).load == 0.0;
    assert SubWord(WORD - 2, WORD - 1) == WORD - 1;
  }

  lemma DrainHasRoom(p: Policy, s: State, dead: set<nat>, later: set<nat>)
    requires Inv(p, s) && DrainsNow(p, s, dead, later)
    ensures p.minAgents < p.maxAgents
  {
    MeasuredSame(p, s.pool, dead);
    OpenShrinks(s.pool.workers, Measured(p, s.pool, dead).workers);
  }

  /** Two or more sustain ticks: every drain of a reachable state is late enough. */
  lemma SustainedDrains(p: Policy, s: State, dead: set<nat>, later: set<nat>)
    requires p.Valid() && Inv(p, s) && DrainsNow(p, s, dead, later) && p.sustainTicks >= 2
    ensures s.clock - s.born >= MicrosToNanos(p.killCooldown)
  {
    DrainIsDated(p, s, dead, later);
    DifferenceExactly(p, s.read.value, s.pool);
  }

  /** The exact condition, over policies: every drain of every run comes a kill cooldown after the newest worker really
      started if and only if there is no cooldown to keep, no room above the minimum, or more than one sustain tick. */
  lemma DrainsExactly(p: Policy)
    requires p.Valid() && p.minAgents < MAX_INT
    ensures DrainsOnTime(p) <==> p.killCooldown == 0 || p.minAgents == p.maxAgents || p.sustainTicks >= 2
  {
    if p.killCooldown == 0 || p.minAgents == p.maxAgents || p.sustainTicks >= 2 {
      forall s: State, dead, later | Reachable(p, s) && DrainsNow(p, s, dead, later)
        ensures s.clock - s.born >= MicrosToNanos(p.killCooldown)
      {
        ReachableInv(p, s);
        DrainHasRoom(p, s, dead, later);
        if p.sustainTicks >= 2 {
          SustainedDrains(p, s, dead, later);
        }
      }
    } else {
      var grown := GrownIsRipe(p);
      var idle := AllGivenBack(p, grown);
      ReachableInv(p, idle);
      IdleDrains(p, idle);
    }
  }
}

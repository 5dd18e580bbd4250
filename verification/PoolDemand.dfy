/** What moves the pool: the demand it measures, the ticks it counts before a drain, what it hands to retirement, and
    what a closed pool still does. */
module PoolDemand {
  import opened Counting
  import opened Messages
  import opened Pool
  import opened PoolSafety
  import opened Words

  // ---- policy

  /** Microseconds become nanoseconds; negative ones zero, and more than a Word64 holds its largest value. */
  lemma NanosExactly(micros: int)
    ensures micros <= 0 ==> MicrosToNanos(micros) == 0
    ensures 0 <= micros && micros * 1000 < WORD ==> MicrosToNanos(micros) == micros * 1000
    ensures micros * 1000 >= WORD ==> MicrosToNanos(micros) == WORD - 1
  {
  }

  /** The field is kept if it is within its bounds, and is the nearer bound otherwise. */
  predicate Nearest(raw: int, low: int, high: int, kept: int) {
    if raw < low then kept == low else if raw > high then kept == high else kept == raw
  }

  predicate NearestReal(raw: Double, fallback: real, low: real, high: real, kept: real) {
    match raw
    case NotFinite => kept == fallback
    case Finite(x) => if x < low then kept == low else if x > high then kept == high else kept == x
  }

  /** Field by field: every one is kept where it is sane. */
  lemma ClampExactly(capabilities: int, raw: RawPolicy)
    ensures var p, ceiling := ClampPolicy(capabilities, raw), Max(1, capabilities);
            && Nearest(raw.maxAgents, 1, ceiling, p.maxAgents) && Nearest(raw.minAgents, 1, p.maxAgents, p.minAgents)
            && (raw.tickMicros >= 10_000 ==> p.tickMicros == raw.tickMicros)
            && (raw.tickMicros < 10_000 ==> p.tickMicros == 10_000)
            && p.sustainTicks == (if raw.sustainTicks < 1 then 1 else raw.sustainTicks)
            && p.growLoad == (if raw.growLoad < 1 then 1 else raw.growLoad)
            && p.spawnCooldown == (if raw.spawnCooldown < 0 then 0 else raw.spawnCooldown)
            && p.killCooldown == (if raw.killCooldown < 0 then 0 else raw.killCooldown)
            && NearestReal(raw.alpha, 0.25, 0.01, 1.0, p.alpha)
            && NearestReal(raw.shrinkLoad, 0.35, 0.0, MAX_INT as real, p.shrinkLoad)
  {
  }

  // ---- demand

  /** A worker of this ID may be given more. */
  predicate Selectable(ws: seq<Worker>, id: nat) {
    exists i :: 0 <= i < |ws| && ws[i].id == id && !ws[i].quiescing
  }

  /** The leases on such workers. */
  function OpenLeases(ws: seq<Worker>, leases: map<nat, nat>): set<nat> {
    set l | l in leases && Selectable(ws, leases[l])
  }

  lemma SelectableLast(ws: seq<Worker>, nextId: nat, id: nat)
    requires ws != [] && Distinct(ws, nextId)
    ensures var n := |ws| - 1; Selectable(ws, id) <==> Selectable(ws[..n], id) || (ws[n].id == id && !ws[n].quiescing)
    ensures var n := |ws| - 1; Selectable(ws[..n], id) ==> ws[n].id != id
  {
    var n := |ws| - 1;
    if i :| 0 <= i < |ws| && ws[i].id == id && !ws[i].quiescing {
      assert i < n ==> ws[..n][i] == ws[i];
    }
    if i :| 0 <= i < n && ws[..n][i].id == id && !ws[..n][i].quiescing {
      assert ws[i] == ws[..n][i];
    }
  }

  /** The demand that is sampled is the number of transfers in flight on selectable workers. */
  lemma {:induction false} DemandIsLeases(ws: seq<Worker>, leases: map<nat, nat>, nextLease: nat, nextId: nat)
    requires Distinct(ws, nextId) && Leased(ws, leases, nextLease, nextId)
    ensures Demand(ws) == |OpenLeases(ws, leases)|
  {
    if ws == [] {
      assert OpenLeases(ws, leases) == {};
    } else {
      var n := |ws| - 1;
      DemandIsLeases(ws[..n], leases, nextLease, nextId);
      LastLeases(ws, leases, nextId);
    }
  }

  lemma LastLeases(ws: seq<Worker>, leases: map<nat, nat>, nextId: nat)
    requires ws != [] && Distinct(ws, nextId)
    ensures var n := |ws| - 1;
            |OpenLeases(ws, leases)|
            == |OpenLeases(ws[..n], leases)| + if ws[n].quiescing then 0 else LeasesOn(leases, ws[n].id)
  {
    var n := |ws| - 1;
    var before := OpenLeases(ws[..n], leases);
    var own: set<nat> := if ws[n].quiescing then {} else On(leases, ws[n].id);
    forall l | l in leases
      ensures l in OpenLeases(ws, leases) <==> l in before + own
      ensures !(l in before && l in own)
    {
      SelectableLast(ws, nextId, leases[l]);
    }
    assert OpenLeases(ws, leases) == before + own;
    assert before !! own;
  }

  lemma {:induction false} OpenIsCount(ws: seq<Worker>)
    ensures OpenCount(ws) == |set i | 0 <= i < |ws| && !ws[i].quiescing|
  {
    var open := set i | 0 <= i < |ws| && !ws[i].quiescing;
    if ws == [] {
      assert open == {};
    } else {
      var n := |ws| - 1;
      OpenIsCount(ws[..n]);
      var before := set i | 0 <= i < n && !ws[..n][i].quiescing;
      assert open == if ws[n].quiescing then before else before + {n};
    }
  }

  function Power(x: real, n: nat): real {
    if n == 0 then 1.0 else x * Power(x, n - 1)
  }

  /** n samples of the same value. */
  function Repeated(alpha: real, current: real, sample: real, n: nat): real {
    if n == 0 then current else Smooth(alpha, Repeated(alpha, current, sample, n - 1), sample)
  }

  /** The averages follow: after n equal samples the distance to the sample has shrunk by (1 - alpha)^n. */
  lemma {:induction false} AveragesFollow(alpha: real, current: real, sample: real, n: nat)
    ensures Repeated(alpha, current, sample, n) - sample == Power(1.0 - alpha, n) * (current - sample)
  {
    if n > 0 {
      AveragesFollow(alpha, current, sample, n - 1);
      var d, q := Repeated(alpha, current, sample, n - 1) - sample, 1.0 - alpha;
      assert Repeated(alpha, current, sample, n) - sample == q * d;
      assert d == Power(q, n - 1) * (current - sample);
      Associate(q, Power(q, n - 1), current - sample);
    }
  }

  lemma Associate(a: real, b: real, c: real)
    ensures a * (b * c) == (a * b) * c
  {
  }

  /** Each tick of an open pool samples the demand it finds, and whether each worker has something to do. */
  lemma TickSamples(p: Policy, run: seq<State>, acts: seq<Action>, k: nat)
    requires IsRun(p, run, acts) && k < |acts| && acts[k].TickNow? && !run[k].pool.closed
    ensures var ws := Notice(run[k].pool.workers, acts[k].dead);
            && run[k + 1].pool.load == Smooth(p.alpha, run[k].pool.load, |OpenLeases(ws, run[k].leases)| as real)
            && Measured(p, run[k].pool, acts[k].dead).workers == Sampled(ws, p.alpha)
            && forall i :: 0 <= i < |ws| ==>
                 Sampled(ws, p.alpha)[i].utilization
                 == Smooth(p.alpha, run[k].pool.workers[i].utilization,
                           if LeasesOn(run[k].leases, ws[i].id) > 0 then 1.0 else 0.0)
  {
    var j, s, act := k + 1, run[k], acts[k];
    RunKeepsInv(p, run, acts, k);
    StepOfRun(p, run, acts, k, j);
    var ws := Notice(s.pool.workers, act.dead);
    NoticeSame(s.pool.workers, act.dead);
    SameKeeps(s.pool.workers, ws, s.leases, s.nextLease, s.pool.nextId, s.retiring);
    DemandIsLeases(ws, s.leases, s.nextLease, s.pool.nextId);
    DecideSame(p, s.read.value, s.pool, act.dead, act.later);
    RestoreLoad(p, s.read.value, Decide(p, s.read.value, s.pool, act.dead, act.later), act.rounds);
  }

  lemma {:induction false} RestoreLoad(p: Policy, now: nat, m: Managed, rounds: seq<Round>)
    ensures Restore(p, now, m, rounds).load == m.load && Restore(p, now, m, rounds).streak <= m.streak
    decreases |rounds|
  {
    if rounds != [] {
      var looked := m.(workers := Notice(m.workers, rounds[0].dead));
      if OpenCount(looked.workers) < p.minAgents && CanSpawn(looked, rounds[0].started) {
        RestoreLoad(p, now, Spawn(looked, now), rounds[1..]);
      }
    }
  }

  // ---- the ticks before a drain

  /** The k-th step is a tick of an open pool. */
  predicate Ticks(run: seq<State>, acts: seq<Action>, k: nat)
    requires k < |acts| && |run| == |acts| + 1
  {
    acts[k].TickNow? && !run[k].pool.closed
  }

  /** With its sample the load was low enough for every worker that may be given transfers, and these were more than the
      minimum. */
  predicate Low(p: Policy, run: seq<State>, acts: seq<Action>, k: nat)
    requires k < |acts| && |run| == |acts| + 1 && acts[k].TickNow?
  {
    var selectable := OpenCount(Notice(run[k].pool.workers, acts[k].dead));
    selectable > p.minAgents && run[k + 1].pool.load <= p.shrinkLoad * selectable as real
  }

  /** How many ticks in a row, up to state i, were low. */
  function LowTicks(p: Policy, run: seq<State>, acts: seq<Action>, i: nat): nat
    requires i <= |acts| && |run| == |acts| + 1
  {
    if i == 0 then 0
    else
      var k := i - 1;
      if !Ticks(run, acts, k) then LowTicks(p, run, acts, k)
      else if Low(p, run, acts, k) then LowTicks(p, run, acts, k) + 1
      else 0
  }

  lemma Divided(load: real, count: nat, limit: real)
    requires count > 0
    ensures load / count as real <= limit <==> load <= limit * count as real
  {
    var n := count as real;
    var each := load / n;
    assert each * n == load;
    Scale(each, limit, n);
  }

  lemma Scale(a: real, b: real, n: real)
    requires n > 0.0
    ensures a <= b <==> a * n <= b * n
  {
    var d := b - a;
    assert d * n == b * n - a * n;
    if d < 0.0 {
      assert d * n < 0.0;
    } else {
      assert d * n >= 0.0;
    }
  }

  /** Marks and averages apart, measuring leaves the workers as the look found them. */
  lemma MeasuredOpen(p: Policy, m: Managed, dead: set<nat>)
    ensures OpenCount(Measured(p, m, dead).workers) == OpenCount(Notice(m.workers, dead))
  {
    var ws := Notice(m.workers, dead);
    OpenShrinks(ws, Sampled(ws, p.alpha));
    OpenShrinks(Sampled(ws, p.alpha), ws);
  }

  lemma WantedIsLow(p: Policy, run: seq<State>, acts: seq<Action>, k: nat)
    requires IsRun(p, run, acts) && k < |acts| && Ticks(run, acts, k) && run[k].read.Some?
    ensures WantsShrink(p, run[k].read.value, run[k].pool, Measured(p, run[k].pool, acts[k].dead)) <==>
            Low(p, run, acts, k) && CanKill(p, run[k].read.value, run[k].pool)
  {
    var j, s, act := k + 1, run[k], acts[k];
    StepOfRun(p, run, acts, k, j);
    MeasuredOpen(p, s.pool, act.dead);
    DecideSame(p, s.read.value, s.pool, act.dead, act.later);
    RestoreLoad(p, s.read.value, Decide(p, s.read.value, s.pool, act.dead, act.later), act.rounds);
    var measured := Measured(p, s.pool, act.dead);
    if OpenCount(measured.workers) > 0 {
      Divided(measured.load, OpenCount(measured.workers), p.shrinkLoad);
    }
  }

  /** The streak never runs ahead of the low ticks. */
  lemma {:induction false} StreakIsLow(p: Policy, run: seq<State>, acts: seq<Action>, i: nat)
    requires IsRun(p, run, acts) && i < |run|
    ensures run[i].pool.streak <= LowTicks(p, run, acts, i)
  {
    if i > 0 {
      var k := i - 1;
      StreakIsLow(p, run, acts, k);
      StepOfRun(p, run, acts, k, i);
      if Ticks(run, acts, k) {
        TickStreak(p, run, acts, k);
      } else {
        OtherStreak(p, run[k], acts[k], run[i]);
      }
    }
  }

  lemma TickStreak(p: Policy, run: seq<State>, acts: seq<Action>, k: nat)
    requires IsRun(p, run, acts) && k < |acts| && Ticks(run, acts, k)
    ensures run[k + 1].pool.streak <= if Low(p, run, acts, k) then run[k].pool.streak + 1 else 0
  {
    var j, s, act := k + 1, run[k], acts[k];
    StepOfRun(p, run, acts, k, j);
    WantedIsLow(p, run, acts, k);
    var decided := Decide(p, s.read.value, s.pool, act.dead, act.later);
    ShrinkSame(p, Measured(p, s.pool, act.dead), act.later);
    RestoreLoad(p, s.read.value, decided, act.rounds);
  }

  lemma OtherStreak(p: Policy, s: State, a: Action, s': State)
    requires p.Valid() && Enabled(s, a) && s' == Apply(p, s, a) && (a.TickNow? ==> s.pool.closed)
    ensures s'.pool.streak <= s.pool.streak
  {
    if a.Acquire? {
      PickOutcome(p, s.clock, s.pool, a.dead, a.started);
    }
  }

  /** A drain needs low demand: it is the last of at least mpSustainTicks low ticks in a row. */
  lemma DrainsWhenQuiet(p: Policy, run: seq<State>, acts: seq<Action>, k: nat)
    requires IsRun(p, run, acts) && k < |acts| && acts[k].TickNow? && run[k].read.Some?
    requires Drains(p, run[k].read.value, run[k].pool, acts[k].dead, acts[k].later)
    ensures Ticks(run, acts, k) && Low(p, run, acts, k) && LowTicks(p, run, acts, k + 1) >= p.sustainTicks
  {
    StreakIsLow(p, run, acts, k);
    WantedIsLow(p, run, acts, k);
  }

  /** A running worker that starts to drain in a tick was drained by it: the tick's other marks are on workers that have
      stopped. */
  lemma NewlyDraining(p: Policy, run: seq<State>, acts: seq<Action>, k: nat, i: nat)
    requires IsRun(p, run, acts) && k < |acts| && acts[k].TickNow? && run[k].read.Some?
    requires i < |run[k].pool.workers| && !run[k].pool.workers[i].quiescing
    requires i < |run[k + 1].pool.workers| && run[k + 1].pool.workers[i].quiescing && run[k + 1].pool.workers[i].running
    ensures Drains(p, run[k].read.value, run[k].pool, acts[k].dead, acts[k].later)
  {
    var j, s, act := k + 1, run[k], acts[k];
    StepOfRun(p, run, acts, k, j);
    if !s.pool.closed {
      var decided := Decide(p, s.read.value, s.pool, act.dead, act.later);
      DecideSame(p, s.read.value, s.pool, act.dead, act.later);
      RestoreMarks(p, s.read.value, decided, act.rounds, i);
    }
  }

  lemma {:induction false} RestoreMarks(p: Policy, now: nat, m: Managed, rounds: seq<Round>, i: nat)
    requires i < |m.workers|
    ensures var ws := Restore(p, now, m, rounds).workers;
            && i < |ws| && ws[i].id == m.workers[i].id && (m.workers[i].quiescing ==> ws[i].quiescing)
            && (ws[i].running ==> m.workers[i].running && (ws[i].quiescing ==> m.workers[i].quiescing))
    decreases |rounds|
  {
    if rounds != [] {
      var looked := m.(workers := Notice(m.workers, rounds[0].dead));
      if OpenCount(looked.workers) < p.minAgents && CanSpawn(looked, rounds[0].started) {
        RestoreMarks(p, now, Spawn(looked, now), rounds[1..], i);
      }
    }
  }

  /** And the demand that stays low is acted on: a low tick behind the cooldown that finds a selectable worker at its
      second look drains one, or counts. */
  lemma QuietCounts(p: Policy, run: seq<State>, acts: seq<Action>, k: nat)
    requires IsRun(p, run, acts) && k < |acts| && Ticks(run, acts, k) && run[k].read.Some?
    requires Low(p, run, acts, k) && CanKill(p, run[k].read.value, run[k].pool)
    requires OpenCount(Notice(Measured(p, run[k].pool, acts[k].dead).workers, acts[k].later)) > 0
    ensures if run[k].pool.streak + 1 >= p.sustainTicks
            then Drains(p, run[k].read.value, run[k].pool, acts[k].dead, acts[k].later)
            else Decide(p, run[k].read.value, run[k].pool, acts[k].dead, acts[k].later).streak == run[k].pool.streak + 1
  {
    var ws := Notice(Measured(p, run[k].pool, acts[k].dead).workers, acts[k].later);
    WantedIsLow(p, run, acts, k);
    LeastIsLeast(true, ws, |ws|);
    NoneOpen(ws);
  }

  // ---- what is handed to retirement

  predicate Present(ws: seq<Worker>, id: nat) {
    exists i :: 0 <= i < |ws| && ws[i].id == id
  }

  /** The releasing thread gets the worker to retire if and only if it is draining and this was its last lease. */
  lemma ReleaseHandsBack(p: Policy, run: seq<State>, acts: seq<Action>, k: nat)
    requires IsRun(p, run, acts) && k < |acts| && acts[k].ReleaseLease?
    ensures acts[k].p in run[k].releasing && acts[k].p in run[k + 1].retiring
    ensures var worker, s' := run[k].releasing[acts[k].p].worker, run[k + 1];
            s'.retiring[acts[k].p].ids
            == if Present(s'.pool.workers, worker) && Closing(s'.pool.workers, s'.pool.nextId, worker)
              && LeasesOn(s'.leases, worker) == 0
               then {worker} else {}
  {
    var j, s, pid := k + 1, run[k], acts[k].p;
    RunKeepsInv(p, run, acts, k);
    RunKeepsInv(p, run, acts, j);
    StepOfRun(p, run, acts, k, j);
    var lease := s.releasing[pid];
    var i := Find(s.pool.workers, lease.worker, |s.pool.workers|);
    ReleaseKeeps(s.pool, lease.number, s.leases, s.nextLease);
    if i >= 0 {
      ReleasedWorker(s.pool, run[j].pool, run[j].leases, run[j].nextLease, lease.worker, i);
    } else {
      assert !Present(run[j].pool.workers, lease.worker);
    }
  }

  lemma ReleasedWorker(m: Managed, m': Managed, leases': map<nat, nat>, nextLease: nat, id: nat, i: nat)
    requires i < |m.workers| && m.workers[i].id == id && m' == Release(m, id).s && i == Find(m.workers, id, |m.workers|)
    requires Distinct(m'.workers, m'.nextId) && Leased(m'.workers, leases', nextLease, m'.nextId)
    ensures Present(m'.workers, id)
    ensures Closing(m'.workers, m'.nextId, id) <==> m.workers[i].quiescing
    ensures LeasesOn(leases', id) == m'.workers[i].active
    ensures id in Release(m, id).retiring <==> m.workers[i].quiescing && m'.workers[i].active == 0
  {
    assert m'.workers[i].id == id;
    forall j | 0 <= j < |m'.workers| && m'.workers[j].id == id
      ensures j == i
    {
      OnePosition(m'.workers, m'.nextId, i, j);
    }
  }

  /** A tick hands over every worker without a lease that was draining, or is found stopped, or is drained by it. */
  lemma TickHandsOver(p: Policy, run: seq<State>, acts: seq<Action>, k: nat, i: nat)
    requires IsRun(p, run, acts) && k < |acts| && Ticks(run, acts, k) && i < |run[k].pool.workers|
    requires LeasesOn(run[k].leases, run[k].pool.workers[i].id) == 0
    requires var w := run[k].pool.workers[i];
             || w.quiescing || !w.running || w.id in acts[k].dead
             || (i < |run[k + 1].pool.workers| && run[k + 1].pool.workers[i].quiescing
                 && run[k + 1].pool.workers[i].running)
    ensures acts[k].p in run[k + 1].retiring && run[k].pool.workers[i].id in run[k + 1].retiring[acts[k].p].ids
  {
    var j, s, act := k + 1, run[k], acts[k];
    RunKeepsInv(p, run, acts, k);
    StepOfRun(p, run, acts, k, j);
    var decided := Decide(p, s.read.value, s.pool, act.dead, act.later);
    DecideSame(p, s.read.value, s.pool, act.dead, act.later);
    DecideMarks(p, s.read.value, s.pool, act.dead, act.later, i);
    RestoreMarks(p, s.read.value, decided, act.rounds, i);
    assert decided.workers[i].quiescing && decided.workers[i].active == 0;
  }

  lemma DecideMarks(p: Policy, now: nat, m: Managed, dead: set<nat>, later: set<nat>, i: nat)
    requires i < |m.workers|
    ensures i < |Decide(p, now, m, dead, later).workers|
    ensures var w, w' := m.workers[i], Decide(p, now, m, dead, later).workers[i];
            w.quiescing || !w.running || w.id in dead ==> w'.quiescing
  {
    MeasuredSame(p, m, dead);
    ShrinkSame(p, Measured(p, m, dead), later);
    var w := m.workers[i];
    assert w.quiescing || !w.running || w.id in dead ==> Measured(p, m, dead).workers[i].quiescing;
  }

  // ---- admission

  /** A lease goes to a worker that runs: one found dead is never chosen. */
  lemma LeaseGoesToRunning(p: Policy, now: nat, m: Managed, dead: set<nat>, started: bool)
    ensures var a := AdmissionPick(p, now, m, dead, started);
            a.picked >= 0 ==> a.picked < |a.s.workers| && a.s.workers[a.picked].running
                              && (a.picked < |m.workers| ==> a.s.workers[a.picked].id !in dead)
  {
    var ws := Notice(m.workers, dead);
    LeastIsLeast(false, ws, |ws|);
  }

  /** Growth on demand, exactly: an admission that finds somebody selectable starts a worker if and only if everybody
      selectable is busy enough, there is room, the recorded cooldown is over and the start succeeds; and one that finds
      nobody starts one if that succeeds. */
  lemma GrowsOnDemand(p: Policy, now: nat, m: Managed, dead: set<nat>, started: bool)
    ensures var ws := Notice(m.workers, dead);
            AdmissionPick(p, now, m, dead, started).s.nextId != m.nextId <==>
              && m.nextId != MAX_INT && started
              && (OpenCount(ws) > 0 ==>
                    && (forall i :: 0 <= i < |ws| && !ws[i].quiescing ==> ws[i].active >= p.growLoad)
                    && OpenCount(ws) < p.maxAgents
                    && SubWord(now, m.lastSpawn) >= MicrosToNanos(p.spawnCooldown))
  {
    var ws := Notice(m.workers, dead);
    LeastIsLeast(false, ws, |ws|);
    NoneOpen(ws);
  }

  // ---- close

  lemma {:induction false} AllDraining(ws: seq<Worker>)
    requires forall i :: 0 <= i < |ws| ==> ws[i].quiescing
    ensures OpenCount(ws) == 0
  {
    NoneOpen(ws);
  }

  /** Closing is for ever, and drains everybody: no lease is granted, nobody is started, nobody is selectable. */
  predicate Shut(s: State) {
    s.pool.closed && forall i :: 0 <= i < |s.pool.workers| ==> s.pool.workers[i].quiescing
  }

  lemma StepKeepsShut(p: Policy, s: State, a: Action, s': State)
    requires Enabled(s, a) && s' == Apply(p, s, a) && (Shut(s) || a.StartClose?)
    ensures Shut(s') && s'.nextLease == s.nextLease && s'.pool.nextId == s.pool.nextId
    ensures a.EndClose? ==> s'.pool.workers == []
  {
    if a.Remove? {
      KeepMembers(s.pool.workers, s.retiring[a.p].ids);
    }
  }

  lemma {:induction false} ShutForEver(p: Policy, run: seq<State>, acts: seq<Action>, i: nat, j: nat)
    requires IsRun(p, run, acts) && i < |acts| && i < j < |run| && acts[i].StartClose?
    ensures Shut(run[j]) && OpenCount(run[j].pool.workers) == 0
    ensures run[j].nextLease == run[i].nextLease && run[j].pool.nextId == run[i].pool.nextId
    decreases j
  {
    var k := j - 1;
    StepOfRun(p, run, acts, k, j);
    if i < k {
      ShutForEver(p, run, acts, i, k);
    }
    StepKeepsShut(p, run[k], acts[k], run[j]);
    NoneOpen(run[j].pool.workers);
  }
}

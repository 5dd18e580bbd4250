/** The managed pool's decisions on its own state: admission, the controller tick, release and retirement. */
module Pool {
  import opened Counting
  import opened Words

  const MAX_INT: nat := 0x7fff_ffff_ffff_ffff

  // ---- policy

  /** A Double as it may come from a caller. */
  datatype Double = Finite(value: real) | NotFinite

  datatype RawPolicy = RawPolicy(
    minAgents: int, maxAgents: int, tickMicros: int, sustainTicks: int, alpha: Double, growLoad: int,
    shrinkLoad: Double,
    spawnCooldown: int, killCooldown: int)

  datatype Policy = Policy(
    minAgents: int, maxAgents: int, tickMicros: int, sustainTicks: int, alpha: real, growLoad: int, shrinkLoad: real,
    spawnCooldown: int, killCooldown: int)
  {
    predicate Valid() {
      && 1 <= minAgents <= maxAgents && 10_000 <= tickMicros && 1 <= sustainTicks
      && 0.0 < alpha <= 1.0 && 1 <= growLoad && 0.0 <= shrinkLoad && 0 <= spawnCooldown && 0 <= killCooldown
    }
  }

  function Max(a: int, b: int): int {
    if a < b then b else a
  }

  function Min(a: int, b: int): int {
    if a < b then a else b
  }

  function ClampFinite(fallback: real, lower: real, upper: real, d: Double): real {
    match d
    case NotFinite => fallback
    case Finite(value) =>
      var capped := if value < upper then value else upper;
      if capped < lower then lower else capped
  }

  function ClampPolicy(capabilities: int, raw: RawPolicy): Policy {
    var maximum := Max(1, Min(capabilities, Max(1, raw.maxAgents)));
    Policy(Min(maximum, Max(1, raw.minAgents)), maximum, Max(10_000, raw.tickMicros), Max(1, raw.sustainTicks),
           ClampFinite(0.25, 0.01, 1.0, raw.alpha), Max(1, raw.growLoad),
           ClampFinite(0.35, 0.0, MAX_INT as real, raw.shrinkLoad),
           Max(0, raw.spawnCooldown), Max(0, raw.killCooldown))
  }

  /** Whatever is asked for, the policy in force is sane and within the machine's capabilities; a sane one is kept. */
  lemma ClampIsSane(capabilities: int, raw: RawPolicy)
    ensures ClampPolicy(capabilities, raw).Valid()
    ensures ClampPolicy(capabilities, raw).maxAgents <= Max(1, capabilities)
    ensures 1 <= raw.minAgents <= raw.maxAgents <= capabilities ==>
              ClampPolicy(capabilities, raw).minAgents == raw.minAgents
                && ClampPolicy(capabilities, raw).maxAgents == raw.maxAgents
  {
  }

  /** Saturates at the largest Word64. */
  function MicrosToNanos(micros: int): (nanos: nat)
    ensures nanos < WORD
  {
    Min(WORD - 1, Max(0, micros) * 1000)
  }

  // ---- the pool

  datatype Worker = Worker(id: nat, active: nat, utilization: real, quiescing: bool, running: bool)

  datatype Managed = Managed(workers: seq<Worker>, load: real, streak: nat, lastSpawn: nat, nextId: nat, closed: bool)

  /** How many workers may still be given transfers. */
  function OpenCount(ws: seq<Worker>): nat {
    if ws == [] then 0 else OpenCount(ws[..|ws| - 1]) + One(!ws[|ws| - 1].quiescing)
  }

  /** The transfers in flight on them. */
  function Demand(ws: seq<Worker>): nat {
    if ws == [] then 0
    else Demand(ws[..|ws| - 1]) + if ws[|ws| - 1].quiescing then 0 else ws[|ws| - 1].active
  }

  /** A look at a reactor: one found stopped is marked as draining. `dead` are those that stopped since the last
      look. */
  function Noticed(w: Worker, dead: set<nat>): Worker {
    if w.id in dead || !w.running then w.(running := false, quiescing := true) else w
  }

  /** refreshWorkerStates, and the marking done by selectableWorkers: afterwards the selectable workers are the open
      ones. */
  function Notice(ws: seq<Worker>, dead: set<nat>): seq<Worker> {
    seq(|ws|, i requires 0 <= i < |ws| => Noticed(ws[i], dead))
  }

  predicate Less(byUtilization: bool, a: Worker, b: Worker) {
    a.active < b.active || (byUtilization && a.active == b.active && a.utilization < b.utilization)
  }

  /** Index of the first least open worker among the first n, or -1. */
  function Least(byUtilization: bool, ws: seq<Worker>, n: nat): int
    requires n <= |ws|
    ensures -1 <= Least(byUtilization, ws, n) < n
  {
    if n == 0 then -1
    else
      var k := Least(byUtilization, ws, n - 1);
      if ws[n - 1].quiescing || (k >= 0 && !Less(byUtilization, ws[n - 1], ws[k])) then k else n - 1
  }

  function Fresh(id: nat): Worker {
    Worker(id, 0, 0.0, false, true)
  }

  function Spawn(s: Managed, now: nat): Managed {
    s.(workers := s.workers + [Fresh(s.nextId)], streak := 0, lastSpawn := now, nextId := s.nextId + 1)
  }

  /** Starting a worker fails when the IDs are used up or the reactor cannot be created. */
  predicate CanSpawn(s: Managed, started: bool) {
    s.nextId != MAX_INT && started
  }

  datatype Admission = Admission(s: Managed, picked: int)  // -1: the exception of a failed spawn

  function SpawnFor(s: Managed, now: nat, started: bool): Admission {
    if CanSpawn(s, started) then Admission(Spawn(s, now), |s.workers|) else Admission(s, -1)
  }

  /** Growth is decided on admission, and only its own branch waits for the spawn cooldown. */
  predicate Grows(p: Policy, now: nat, s: Managed, least: int)
    requires 0 <= least < |s.workers|
  {
    && s.workers[least].active >= p.growLoad
    && OpenCount(s.workers) < p.maxAgents
    && SubWord(now, s.lastSpawn) >= MicrosToNanos(p.spawnCooldown)
  }

  function AdmissionPick(p: Policy, now: nat, s: Managed, dead: set<nat>, started: bool): Admission {
    var looked := s.(workers := Notice(s.workers, dead));
    var least := Least(false, looked.workers, |looked.workers|);
    if least < 0 || Grows(p, now, looked, least) then SpawnFor(looked, now, started) else Admission(looked, least)
  }

  function Increment(s: Managed, i: nat): Managed
    requires i < |s.workers|
  {
    s.(workers := s.workers[i := s.workers[i].(active := s.workers[i].active + 1)])
  }

  /** Index of the worker with this ID among the first n, or -1. */
  function Find(ws: seq<Worker>, id: nat, n: nat): int
    requires n <= |ws|
    ensures -1 <= Find(ws, id, n) < n
    ensures Find(ws, id, n) >= 0 ==> ws[Find(ws, id, n)].id == id
    ensures Find(ws, id, n) < 0 ==> forall i :: 0 <= i < n ==> ws[i].id != id
  {
    if n == 0 then -1 else if ws[n - 1].id == id then n - 1 else Find(ws, id, n - 1)
  }

  datatype Decision = Decision(s: Managed, retiring: set<nat>)

  /** releaseWorker; the source's `max 0` included. */
  function Release(s: Managed, id: nat): Decision {
    var i := Find(s.workers, id, |s.workers|);
    if i < 0 then Decision(s, {})
    else
      var active := if s.workers[i].active == 0 then 0 else s.workers[i].active - 1;
      var s' := s.(workers := s.workers[i := s.workers[i].(active := active)]);
      Decision(s', if active == 0 && s.workers[i].quiescing then {id} else {})
  }

  // ---- the controller tick

  function Smooth(alpha: real, current: real, sample: real): real {
    current + alpha * (sample - current)
  }

  function Busy(w: Worker): real {
    if w.active > 0 then 1.0 else 0.0
  }

  function Sampled(ws: seq<Worker>, alpha: real): seq<Worker> {
    seq(|ws|, i requires 0 <= i < |ws| => ws[i].(utilization := Smooth(alpha, ws[i].utilization, Busy(ws[i]))))
  }

  function PerWorker(load: real, count: nat): real {
    if count == 0 then 0.0 else load / count as real
  }

  /** The cooldown as the code computes it, in Word64. */
  predicate CanKill(p: Policy, now: nat, s: Managed) {
    SubWord(now, s.lastSpawn) >= MicrosToNanos(p.killCooldown)
  }

  function Quiesce(s: Managed, i: nat): Managed
    requires i < |s.workers|
  {
    s.(workers := s.workers[i := s.workers[i].(quiescing := true)])
  }

  /** Marks one least (active, utilization) worker once the demand was low for long enough. */
  function Shrink(p: Policy, s: Managed, dead: set<nat>): Managed {
    if s.streak + 1 < p.sustainTicks then s.(streak := s.streak + 1)
    else
      var looked := s.(workers := Notice(s.workers, dead));
      var victim := Least(true, looked.workers, |looked.workers|);
      if victim < 0 then looked else Quiesce(looked, victim).(streak := 0)
  }

  function Measured(p: Policy, s: Managed, dead: set<nat>): Managed {
    var ws := Notice(s.workers, dead);
    s.(workers := Sampled(ws, p.alpha), load := Smooth(p.alpha, s.load, Demand(ws) as real))
  }

  predicate WantsShrink(p: Policy, now: nat, s: Managed, measured: Managed) {
    && OpenCount(measured.workers) > p.minAgents && CanKill(p, now, s)
    && PerWorker(measured.load, OpenCount(measured.workers)) <= p.shrinkLoad
  }

  /** The tick up to its decision; the two sets are what stopped before its two looks. */
  function Decide(p: Policy, now: nat, s: Managed, dead: set<nat>, later: set<nat>): Managed {
    var measured := Measured(p, s, dead);
    if WantsShrink(p, now, s, measured) then Shrink(p, measured, later) else measured.(streak := 0)
  }

  function DrainFinished(ws: seq<Worker>): set<nat> {
    set i | 0 <= i < |ws| && ws[i].quiescing && ws[i].active == 0 :: ws[i].id
  }

  /** One round of restoreMinimum: what stopped before its look, and whether a spawn would succeed. */
  datatype Round = Round(dead: set<nat>, started: bool)

  function Restore(p: Policy, now: nat, s: Managed, rounds: seq<Round>): Managed
    decreases |rounds|
  {
    if rounds == [] then s
    else
      var looked := s.(workers := Notice(s.workers, rounds[0].dead));
      if OpenCount(looked.workers) >= p.minAgents || !CanSpawn(looked, rounds[0].started) then looked
      else Restore(p, now, Spawn(looked, now), rounds[1..])
  }

  function Tick(p: Policy, now: nat, s: Managed, dead: set<nat>, later: set<nat>, rounds: seq<Round>): Decision {
    if s.closed then Decision(s, {})
    else
      var decided := Decide(p, now, s, dead, later);
      Decision(Restore(p, now, decided, rounds), DrainFinished(decided.workers))
  }

  // ---- retirement and close

  function Keep(ws: seq<Worker>, gone: set<nat>): seq<Worker> {
    if ws == [] then []
    else
      var before := Keep(ws[..|ws| - 1], gone);
      if ws[|ws| - 1].id in gone then before else before + [ws[|ws| - 1]]
  }

  function Removed(s: Managed, gone: set<nat>): Managed {
    s.(workers := Keep(s.workers, gone))
  }

  /** A reactor stops, of itself or by retireAgent. */
  function Stopped(s: Managed, id: nat): Managed {
    s.(workers := seq(|s.workers|, i requires 0 <= i < |s.workers| =>
                        if s.workers[i].id == id then s.workers[i].(running := false) else s.workers[i]))
  }

  function CloseAll(s: Managed): Managed {
    s.(workers := seq(|s.workers|, i requires 0 <= i < |s.workers| => s.workers[i].(quiescing := true)), closed := true)
  }

  function Emptied(s: Managed): Managed {
    s.(workers := [], load := 0.0, streak := 0)
  }
}

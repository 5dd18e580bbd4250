/** The managed pool over whole runs: leases, draining, retirement outside the lock, clocks and close. */
module PoolSafety {
  import opened Counting
  import opened Messages
  import opened Pool
  import opened Words

  /** A thread in retireManagedWorkers: it stops its workers, outside the lock, before it removes them. */
  datatype Retirement = Retirement(ids: set<nat>, stopped: set<nat>)

  /** Who started the newest worker: the pool itself, an admission, or a tick that had waited this long between
      reading the clock and having the lock. */
  datatype Starter = AtStart | ByAdmission | ByTick(wait: int)

  /** A lease as its release action remembers it. */
  datatype Lease = Lease(number: nat, worker: nat)

  /** `home` is the worker each lease ever granted was granted on, `leases` those not given back; `done` holds the
      leases whose leaseReleased flag is set, `releasing` the threads that set it and have not yet run the lease's own
      action. `read` is the controller's clock reading, taken before it has the lock. `born` is when the newest worker
      really started, and `starter` who did. `ticks` counts ticks, `lastDrain` is the last one
      that drained, `peak` the largest demand sampled. */
  datatype State = State(
    pool: Managed,
    leases: map<nat, nat>,
    nextLease: nat,
    home: map<nat, nat>,
    done: set<nat>,
    releasing: map<Pid, Lease>,
    retiring: map<Pid, Retirement>,
    clock: nat,
    read: Option<nat>,
    born: nat,
    starter: Starter,
    ticks: nat,
    lastDrain: Option<nat>,
    peak: real)

  datatype Action =
    | Advance(to: nat)
    | ReadClock
    | TickNow(p: Pid, dead: set<nat>, later: set<nat>, rounds: seq<Round>)
    | Acquire(dead: set<nat>, started: bool)
    | CallRelease(lease: nat, p: Pid)
    | ReleaseLease(p: Pid)
    | AbandonRelease(p: Pid)
    | StopOne(p: Pid, id: nat)
    | Remove(p: Pid)
    | Interrupt(p: Pid)
    | Die(id: nat)
    | StartClose
    | EndClose

  predicate Enabled(s: State, a: Action) {
    match a
    case Advance(to) => s.clock < to < WORD
    case ReadClock => s.read.None?
    case TickNow(p, _, _, _) => s.read.Some? && p !in s.retiring
    case Acquire(_, _) => !s.pool.closed
    case CallRelease(lease, p) => lease in s.home && p !in s.releasing && p !in s.retiring
    case ReleaseLease(p) => p in s.releasing && p !in s.retiring
    case AbandonRelease(p) => p in s.releasing
    case StopOne(p, id) => p in s.retiring && id in s.retiring[p].ids
    case Remove(p) => p in s.retiring && s.retiring[p].ids <= s.retiring[p].stopped
    case Interrupt(p) => p in s.retiring
    case Die(_) => true
    case StartClose => !s.pool.closed
    case EndClose => s.pool.closed
  }

  /** The tick starts to drain a worker. */
  predicate Drains(p: Policy, now: nat, m: Managed, dead: set<nat>, later: set<nat>) {
    var measured := Measured(p, m, dead);
    && !m.closed && WantsShrink(p, now, m, measured) && m.streak + 1 >= p.sustainTicks
    && Least(true, Notice(measured.workers, later), |measured.workers|) >= 0
  }

  function Sample(m: Managed, dead: set<nat>): real {
    Demand(Notice(m.workers, dead)) as real
  }

  function AfterTick(p: Policy, s: State, pid: Pid, dead: set<nat>, later: set<nat>, rounds: seq<Round>): State
    requires s.read.Some?
  {
    var d := Tick(p, s.read.value, s.pool, dead, later, rounds);
    var sample := Sample(s.pool, dead);
    s.(pool := d.s,
       retiring := s.retiring[pid := Retirement(d.retiring, {})],
       read := None,
       born := if d.s.nextId != s.pool.nextId then s.clock else s.born,
       starter := if d.s.nextId != s.pool.nextId then ByTick(s.clock - s.read.value) else s.starter,
       ticks := s.ticks + 1,
       lastDrain := if Drains(p, s.read.value, s.pool, dead, later) then Some(s.ticks + 1) else s.lastDrain,
       peak := if s.peak < sample then sample else s.peak)
  }

  /** The admission has settled on a worker, starting one if need be. */
  function Admitted(s: State, m: Managed): State {
    if m.nextId != s.pool.nextId then s.(pool := m, born := s.clock, starter := ByAdmission) else s.(pool := m)
  }

  function Granted(s: State, i: nat): State
    requires i < |s.pool.workers|
  {
    var id := s.pool.workers[i].id;
    s.(pool := Increment(s.pool, i),
       leases := s.leases[s.nextLease := id],
       home := s.home[s.nextLease := id],
       nextLease := s.nextLease + 1)
  }

  function AfterAcquire(p: Policy, s: State, dead: set<nat>, started: bool): State {
    var a := AdmissionPick(p, s.clock, s.pool, dead, started);
    if 0 <= a.picked < |a.s.workers| then Granted(Admitted(s, a.s), a.picked) else Admitted(s, a.s)
  }

  /** The release closure of a transfer: however often it is called, the first call alone goes on. */
  function AfterCall(s: State, lease: nat, pid: Pid): State
    requires lease in s.home
  {
    if lease in s.done then s
    else s.(done := s.done + {lease}, releasing := s.releasing[pid := Lease(lease, s.home[lease])])
  }

  function AfterRelease(s: State, lease: Lease, pid: Pid): State {
    var d := Release(s.pool, lease.worker);
    s.(pool := d.s, leases := s.leases - {lease.number}, retiring := s.retiring[pid := Retirement(d.retiring, {})],
       releasing := s.releasing - {pid})
  }

  function Apply(p: Policy, s: State, a: Action): State
    requires Enabled(s, a)
  {
    match a
    case Advance(to) => s.(clock := to)
    case ReadClock => s.(read := Some(s.clock))
    case TickNow(pid, dead, later, rounds) => AfterTick(p, s, pid, dead, later, rounds)
    case Acquire(dead, started) => AfterAcquire(p, s, dead, started)
    case CallRelease(lease, pid) => AfterCall(s, lease, pid)
    case ReleaseLease(pid) => AfterRelease(s, s.releasing[pid], pid)
    case AbandonRelease(pid) => s.(releasing := s.releasing - {pid})
    case StopOne(pid, id) =>
      s.(pool := Stopped(s.pool, id),
         retiring := s.retiring[pid := s.retiring[pid].(stopped := s.retiring[pid].stopped + {id})])
    case Remove(pid) =>
      s.(pool := Removed(s.pool, s.retiring[pid].ids), retiring := s.retiring - {pid})
    case Interrupt(pid) => s.(retiring := s.retiring - {pid})
    case Die(id) => s.(pool := Stopped(s.pool, id))
    case StartClose => s.(pool := CloseAll(s.pool))
    case EndClose => s.(pool := Emptied(s.pool))
  }

  function Initial(p: Policy): seq<Worker>
    requires p.Valid()
  {
    seq(p.minAgents, i requires 0 <= i < p.minAgents => Fresh(i))
  }

  function Start(p: Policy, clock: nat): State
    requires p.Valid()
  {
    State(Managed(Initial(p), 0.0, 0, 0, p.minAgents, false), map[], 0, map[], {}, map[], map[], clock, None, clock,
          AtStart, 0, None, 0.0)
  }

  // ---- invariants

  function On(leases: map<nat, nat>, id: nat): set<nat> {
    set l | l in leases && leases[l] == id
  }

  function LeasesOn(leases: map<nat, nat>, id: nat): nat {
    |On(leases, id)|
  }

  /** A lease is given back by the one thread that found its flag clear. */
  predicate Once(s: State) {
    && (forall l :: l in s.home ==> l < s.nextLease && (l !in s.done ==> l in s.leases))
    && (forall l :: l in s.leases ==> l in s.home && s.home[l] == s.leases[l])
    && (forall l :: l in s.done ==> l in s.home)
    && (forall p :: p in s.releasing ==>
          s.releasing[p].number in s.leases && s.leases[s.releasing[p].number] == s.releasing[p].worker
            && s.releasing[p].number in s.done)
    && (forall p, r :: p in s.releasing && r in s.releasing && s.releasing[p].number == s.releasing[r].number ==>
        p == r)
  }

  predicate Distinct(ws: seq<Worker>, nextId: nat) {
    && (forall i :: 0 <= i < |ws| ==> ws[i].id < nextId)
    && (forall i, j :: 0 <= i < j < |ws| ==> ws[i].id != ws[j].id)
  }

  predicate Leased(ws: seq<Worker>, leases: map<nat, nat>, nextLease: nat, nextId: nat) {
    && (forall i :: 0 <= i < |ws| ==> ws[i].active == LeasesOn(leases, ws[i].id))
    && (forall l :: l in leases ==> l < nextLease && leases[l] < nextId)
  }

  /** Draining for ever, or already gone. */
  predicate Closing(ws: seq<Worker>, nextId: nat, id: nat) {
    id < nextId && forall i :: 0 <= i < |ws| && ws[i].id == id ==> ws[i].quiescing
  }

  predicate Retirable(ws: seq<Worker>, leases: map<nat, nat>, nextId: nat, r: Retirement) {
    forall id :: id in r.ids ==> Closing(ws, nextId, id) && LeasesOn(leases, id) == 0
  }

  predicate AllRetirable(ws: seq<Worker>, leases: map<nat, nat>, nextId: nat, retiring: map<Pid, Retirement>) {
    forall p :: p in retiring ==> Retirable(ws, leases, nextId, retiring[p])
  }

  predicate Bounded(ws: seq<Worker>, load: real, peak: real) {
    && (forall i :: 0 <= i < |ws| ==> 0.0 <= ws[i].utilization <= 1.0)
    && 0.0 <= load <= peak
  }

  /** A reading older than the last spawn finds the streak reset by that spawn. */
  predicate Clocked(s: State) {
    && s.clock < WORD && s.pool.lastSpawn <= s.clock
    && (s.read.Some? ==> s.read.value <= s.clock && (s.pool.lastSpawn > s.read.value ==> s.pool.streak == 0))
  }

  /** Above the minimum, where only admissions start workers, the recorded start is the true one. */
  predicate Dated(p: Policy, s: State) {
    && s.pool.lastSpawn <= s.born <= s.clock
    && (OpenCount(s.pool.workers) > p.minAgents ==> s.starter.ByAdmission?)
    && match s.starter
       case AtStart => s.pool.lastSpawn == 0
       case ByAdmission => s.pool.lastSpawn == s.born
       case ByTick(wait) => 0 <= wait && s.pool.lastSpawn == s.born - wait
  }

  predicate Streaky(s: State) {
    && s.pool.streak <= s.ticks
    && (s.lastDrain.Some? ==> s.lastDrain.value + s.pool.streak <= s.ticks)
  }

  ghost predicate Inv(p: Policy, s: State) {
    && Distinct(s.pool.workers, s.pool.nextId)
    && Leased(s.pool.workers, s.leases, s.nextLease, s.pool.nextId)
    && AllRetirable(s.pool.workers, s.leases, s.pool.nextId, s.retiring)
    && OpenCount(s.pool.workers) <= p.maxAgents
    && Bounded(s.pool.workers, s.pool.load, s.peak)
    && Clocked(s) && Streaky(s) && Once(s) && Dated(p, s)
  }

  // ---- workers that only change their marks

  /** Same workers with the same transfers; draining ones keep draining. */
  predicate SameWorkers(ws: seq<Worker>, ws': seq<Worker>) {
    |ws'| == |ws| && forall i :: 0 <= i < |ws| ==>
      ws'[i].id == ws[i].id && ws'[i].active == ws[i].active && (ws[i].quiescing ==> ws'[i].quiescing)
  }

  lemma {:induction false} OpenShrinks(ws: seq<Worker>, ws': seq<Worker>)
    requires SameWorkers(ws, ws')
    ensures OpenCount(ws') <= OpenCount(ws)
  {
    if ws != [] {
      var n := |ws| - 1;
      OpenShrinks(ws[..n], ws'[..n]);
    }
  }

  lemma OpenPush(ws: seq<Worker>, w: Worker)
    ensures OpenCount(ws + [w]) == OpenCount(ws) + One(!w.quiescing)
  {
    assert (ws + [w])[..|ws|] == ws;
  }

  lemma SameKeeps(ws: seq<Worker>, ws': seq<Worker>, leases: map<nat, nat>, nextLease: nat, nextId: nat,
                  retiring: map<Pid, Retirement>)
    requires SameWorkers(ws, ws')
    requires Distinct(ws, nextId) && Leased(ws, leases, nextLease, nextId) && AllRetirable(ws, leases, nextId, retiring)
    ensures Distinct(ws', nextId) && Leased(ws', leases, nextLease, nextId)
    ensures AllRetirable(ws', leases, nextId, retiring)
    ensures OpenCount(ws') <= OpenCount(ws)
  {
    OpenShrinks(ws, ws');
    forall p, id | p in retiring && id in retiring[p].ids
      ensures Closing(ws', nextId, id)
    {
      assert Closing(ws, nextId, id);
    }
  }

  lemma NobodyOn(leases: map<nat, nat>, nextLease: nat, nextId: nat, ws: seq<Worker>)
    requires Leased(ws, leases, nextLease, nextId)
    ensures LeasesOn(leases, nextId) == 0
  {
    assert On(leases, nextId) == {};
  }

  /** A fresh worker has an unused ID and nobody on it. */
  lemma SpawnKeeps(m: Managed, now: nat, leases: map<nat, nat>, nextLease: nat)
    requires Distinct(m.workers, m.nextId) && Leased(m.workers, leases, nextLease, m.nextId)
    ensures var m' := Spawn(m, now);
            && Distinct(m'.workers, m'.nextId) && Leased(m'.workers, leases, nextLease, m'.nextId)
            && OpenCount(m'.workers) == OpenCount(m.workers) + 1
  {
    NobodyOn(leases, nextLease, m.nextId, m.workers);
    OpenPush(m.workers, Fresh(m.nextId));
  }

  lemma SpawnRetirable(m: Managed, now: nat, leases: map<nat, nat>, retiring: map<Pid, Retirement>)
    requires AllRetirable(m.workers, leases, m.nextId, retiring)
    ensures AllRetirable(Spawn(m, now).workers, leases, m.nextId + 1, retiring)
  {
    forall p, id | p in retiring && id in retiring[p].ids
      ensures Closing(Spawn(m, now).workers, m.nextId + 1, id)
    {
      assert Closing(m.workers, m.nextId, id);
    }
  }

  // ---- choosing

  lemma {:induction false} LeastIsLeast(byUtilization: bool, ws: seq<Worker>, n: nat)
    requires n <= |ws|
    ensures var k := Least(byUtilization, ws, n);
            if k < 0 then forall j :: 0 <= j < n ==> ws[j].quiescing
            else !ws[k].quiescing && (forall j :: 0 <= j < n && !ws[j].quiescing ==> !Less(byUtilization, ws[j], ws[k]))
                 && (forall j :: 0 <= j < k && !ws[j].quiescing ==> Less(byUtilization, ws[k], ws[j]))
  {
    if n > 0 {
      LeastIsLeast(byUtilization, ws, n - 1);
    }
  }

  lemma {:induction false} NoneOpen(ws: seq<Worker>)
    ensures OpenCount(ws) == 0 <==> forall j :: 0 <= j < |ws| ==> ws[j].quiescing
  {
    if ws != [] {
      NoneOpen(ws[..|ws| - 1]);
    }
  }

  // ---- averages

  lemma Scaled(alpha: real, d: real, scaled: real)
    requires 0.0 < alpha <= 1.0 && scaled == alpha * d
    ensures d >= 0.0 ==> 0.0 <= scaled <= d
    ensures d <= 0.0 ==> d <= scaled <= 0.0
  {
    var rest := 1.0 - alpha;
    assert rest * d == d - scaled;
    if d >= 0.0 {
      assert rest * d >= 0.0;
    } else {
      assert rest * d <= 0.0;
    }
  }

  lemma SmoothBetween(alpha: real, current: real, sample: real, low: real, high: real)
    requires 0.0 < alpha <= 1.0 && low <= current <= high && low <= sample <= high
    ensures low <= Smooth(alpha, current, sample) <= high
  {
    var scaled := Smooth(alpha, current, sample) - current;
    Scaled(alpha, sample - current, scaled);
  }

  lemma MeasuredBounded(p: Policy, m: Managed, dead: set<nat>, peak: real)
    requires p.Valid() && Bounded(m.workers, m.load, peak)
    ensures var peak' := if peak < Sample(m, dead) then Sample(m, dead) else peak;
            Bounded(Measured(p, m, dead).workers, Measured(p, m, dead).load, peak')
  {
    var sample := Sample(m, dead);
    SmoothBetween(p.alpha, m.load, sample, 0.0, if peak < sample then sample else peak);
    var ws := Notice(m.workers, dead);
    forall i | 0 <= i < |ws|
      ensures 0.0 <= Sampled(ws, p.alpha)[i].utilization <= 1.0
    {
      SmoothBetween(p.alpha, ws[i].utilization, Busy(ws[i]), 0.0, 1.0);
    }
  }

  // ---- the tick

  lemma NoticeSame(ws: seq<Worker>, dead: set<nat>)
    ensures SameWorkers(ws, Notice(ws, dead))
  {
  }

  lemma SameTrans(ws: seq<Worker>, mid: seq<Worker>, ws': seq<Worker>)
    requires SameWorkers(ws, mid) && SameWorkers(mid, ws')
    ensures SameWorkers(ws, ws')
  {
  }

  lemma ShrinkSame(p: Policy, m: Managed, later: set<nat>)
    ensures var m' := Shrink(p, m, later);
            && SameWorkers(m.workers, m'.workers)
            && m' == m.(workers := m'.workers, streak := m'.streak)
            && m'.streak <= m.streak + 1
  {
    NoticeSame(m.workers, later);
  }

  lemma MeasuredSame(p: Policy, m: Managed, dead: set<nat>)
    ensures SameWorkers(m.workers, Measured(p, m, dead).workers)
  {
    NoticeSame(m.workers, dead);
  }

  lemma DecideSame(p: Policy, now: nat, m: Managed, dead: set<nat>, later: set<nat>)
    ensures var m' := Decide(p, now, m, dead, later);
            && SameWorkers(m.workers, m'.workers)
            && m'.nextId == m.nextId && m'.lastSpawn == m.lastSpawn && m'.closed == m.closed
            && m'.streak <= m.streak + 1
            && m'.load == Measured(p, m, dead).load
  {
    MeasuredSame(p, m, dead);
    ShrinkSame(p, Measured(p, m, dead), later);
    SameTrans(m.workers, Measured(p, m, dead).workers, Decide(p, now, m, dead, later).workers);
  }

  lemma ShrinkBounded(p: Policy, m: Managed, later: set<nat>, peak: real)
    requires Bounded(m.workers, m.load, peak)
    ensures Bounded(Shrink(p, m, later).workers, Shrink(p, m, later).load, peak)
  {
  }

  lemma DecideBounded(p: Policy, now: nat, m: Managed, dead: set<nat>, later: set<nat>, peak: real)
    requires p.Valid() && Bounded(m.workers, m.load, peak)
    ensures var peak' := if peak < Sample(m, dead) then Sample(m, dead) else peak;
            var m' := Decide(p, now, m, dead, later); Bounded(m'.workers, m'.load, peak')
  {
    MeasuredBounded(p, m, dead, peak);
    ShrinkBounded(p, Measured(p, m, dead), later, if peak < Sample(m, dead) then Sample(m, dead) else peak);
  }

  /** What the tick hands to retirement has no transfers and will get none. */
  lemma FinishedRetirable(ws: seq<Worker>, leases: map<nat, nat>, nextLease: nat, nextId: nat)
    requires Distinct(ws, nextId) && Leased(ws, leases, nextLease, nextId)
    ensures Retirable(ws, leases, nextId, Retirement(DrainFinished(ws), {}))
  {
    forall id | id in DrainFinished(ws)
      ensures Closing(ws, nextId, id) && LeasesOn(leases, id) == 0
    {
      var i :| 0 <= i < |ws| && ws[i].quiescing && ws[i].active == 0 && ws[i].id == id;
      forall j | 0 <= j < |ws| && ws[j].id == id
        ensures ws[j].quiescing
      {
        assert ws[if i < j then i else j].id == ws[if i < j then j else i].id;
      }
    }
  }

  lemma {:induction false} RestoreKeeps(p: Policy, now: nat, m: Managed, rounds: seq<Round>, leases: map<nat, nat>,
                                        nextLease: nat)
    requires p.Valid() && OpenCount(m.workers) <= p.maxAgents
    requires Distinct(m.workers, m.nextId) && Leased(m.workers, leases, nextLease, m.nextId)
    ensures var m' := Restore(p, now, m, rounds);
            && Distinct(m'.workers, m'.nextId) && Leased(m'.workers, leases, nextLease, m'.nextId)
            && OpenCount(m'.workers) <= p.maxAgents
    decreases |rounds|
  {
    if rounds != [] {
      var looked := m.(workers := Notice(m.workers, rounds[0].dead));
      NoticeSame(m.workers, rounds[0].dead);
      SameKeeps(m.workers, looked.workers, leases, nextLease, m.nextId, map[]);
      if OpenCount(looked.workers) < p.minAgents && CanSpawn(looked, rounds[0].started) {
        SpawnKeeps(looked, now, leases, nextLease);
        RestoreKeeps(p, now, Spawn(looked, now), rounds[1..], leases, nextLease);
      }
    }
  }

  lemma {:induction false} RestoreRetirable(p: Policy, now: nat, m: Managed, rounds: seq<Round>, leases: map<nat, nat>,
                                            retiring: map<Pid, Retirement>)
    requires AllRetirable(m.workers, leases, m.nextId, retiring)
    ensures var m' := Restore(p, now, m, rounds); AllRetirable(m'.workers, leases, m'.nextId, retiring)
    decreases |rounds|
  {
    if rounds != [] {
      var looked := m.(workers := Notice(m.workers, rounds[0].dead));
      SameRetirable(m.workers, looked.workers, leases, m.nextId, retiring);
      SpawnRetirable(looked, now, leases, retiring);
      if OpenCount(looked.workers) < p.minAgents && CanSpawn(looked, rounds[0].started) {
        RestoreRetirable(p, now, Spawn(looked, now), rounds[1..], leases, retiring);
      }
    }
  }

  lemma SameRetirable(ws: seq<Worker>, ws': seq<Worker>, leases: map<nat, nat>, nextId: nat,
                      retiring: map<Pid, Retirement>)
    requires SameWorkers(ws, ws') && AllRetirable(ws, leases, nextId, retiring)
    ensures AllRetirable(ws', leases, nextId, retiring)
  {
    forall p, id | p in retiring && id in retiring[p].ids
      ensures Closing(ws', nextId, id)
    {
      assert Closing(ws, nextId, id);
    }
  }

  lemma {:induction false} RestoreBounded(p: Policy, now: nat, m: Managed, rounds: seq<Round>, peak: real)
    requires Bounded(m.workers, m.load, peak)
    ensures var m' := Restore(p, now, m, rounds);
            && Bounded(m'.workers, m'.load, peak)
            && (m'.lastSpawn == m.lastSpawn || m'.lastSpawn == now) && m'.streak <= m.streak && m'.closed == m.closed
    decreases |rounds|
  {
    if rounds != [] {
      var looked := m.(workers := Notice(m.workers, rounds[0].dead));
      if OpenCount(looked.workers) < p.minAgents && CanSpawn(looked, rounds[0].started) {
        RestoreBounded(p, now, Spawn(looked, now), rounds[1..], peak);
      }
    }
  }

  lemma TickWorkers(p: Policy, s: State, pid: Pid, dead: set<nat>, later: set<nat>, rounds: seq<Round>, s': State)
    requires p.Valid() && Inv(p, s) && s.read.Some? && !s.pool.closed
    requires s' == AfterTick(p, s, pid, dead, later, rounds)
    ensures Distinct(s'.pool.workers, s'.pool.nextId) && Leased(s'.pool.workers, s.leases, s.nextLease, s'.pool.nextId)
    ensures OpenCount(s'.pool.workers) <= p.maxAgents
    ensures AllRetirable(s'.pool.workers, s.leases, s'.pool.nextId, s'.retiring)
  {
    var now := s.read.value;
    var decided := Decide(p, now, s.pool, dead, later);
    DecideSame(p, now, s.pool, dead, later);
    SameKeeps(s.pool.workers, decided.workers, s.leases, s.nextLease, s.pool.nextId, s.retiring);
    FinishedRetirable(decided.workers, s.leases, s.nextLease, decided.nextId);
    RestoreKeeps(p, now, decided, rounds, s.leases, s.nextLease);
    RestoreRetirable(p, now, decided, rounds, s.leases, s'.retiring);
  }

  lemma DrainResets(p: Policy, now: nat, m: Managed, dead: set<nat>, later: set<nat>)
    requires Drains(p, now, m, dead, later)
    ensures Decide(p, now, m, dead, later).streak == 0
  {
  }

  lemma TickKeepsInv(p: Policy, s: State, pid: Pid, dead: set<nat>, later: set<nat>, rounds: seq<Round>, s': State)
    requires p.Valid() && Inv(p, s) && Enabled(s, TickNow(pid, dead, later, rounds))
    requires s' == AfterTick(p, s, pid, dead, later, rounds)
    ensures Inv(p, s')
  {
    if !s.pool.closed {
      var now := s.read.value;
      TickWorkers(p, s, pid, dead, later, rounds, s');
      TickDated(p, s, pid, dead, later, rounds, s');
      DecideSame(p, now, s.pool, dead, later);
      DecideBounded(p, now, s.pool, dead, later, s.peak);
      RestoreBounded(p, now, Decide(p, now, s.pool, dead, later), rounds, s'.peak);
      if Drains(p, now, s.pool, dead, later) {
        DrainResets(p, now, s.pool, dead, later);
      }
    }
  }

  // ---- leases

  lemma LeaseAdded(leases: map<nat, nat>, l: nat, id: nat, other: nat)
    requires l !in leases
    ensures LeasesOn(leases[l := id], other) == LeasesOn(leases, other) + One(other == id)
  {
    assert On(leases[l := id], other) == if other == id then On(leases, other) + {l} else On(leases, other);
  }

  lemma LeaseRemoved(leases: map<nat, nat>, l: nat, other: nat)
    requires l in leases
    ensures LeasesOn(leases - {l}, other) == LeasesOn(leases, other) - One(other == leases[l])
  {
    assert On(leases - {l}, other) == On(leases, other) - {l};
    assert l in On(leases, other) <==> other == leases[l];
  }

  /** Distinct IDs name positions. */
  lemma OnePosition(ws: seq<Worker>, nextId: nat, i: nat, j: nat)
    requires Distinct(ws, nextId) && i < |ws| && j < |ws| && ws[i].id == ws[j].id
    ensures i == j
  {
  }

  /** Granting a lease on an open worker. */
  lemma GrantKeeps(m: Managed, i: nat, leases: map<nat, nat>, nextLease: nat)
    requires Distinct(m.workers, m.nextId) && Leased(m.workers, leases, nextLease, m.nextId) && i < |m.workers|
    ensures var m', leases' := Increment(m, i), leases[nextLease := m.workers[i].id];
            && Distinct(m'.workers, m'.nextId) && Leased(m'.workers, leases', nextLease + 1, m'.nextId)
            && SameMarks(m.workers, m'.workers)
  {
    var id := m.workers[i].id;
    forall j | 0 <= j < |m.workers|
      ensures Increment(m, i).workers[j].active == LeasesOn(leases[nextLease := id], m.workers[j].id)
    {
      LeaseAdded(leases, nextLease, id, m.workers[j].id);
    }
  }

  /** The same workers with the same marks. */
  predicate SameMarks(ws: seq<Worker>, ws': seq<Worker>) {
    |ws'| == |ws| && forall i :: 0 <= i < |ws| ==>
      && ws'[i].id == ws[i].id
      && ws'[i].quiescing == ws[i].quiescing
      && ws'[i].utilization == ws[i].utilization
  }

  lemma {:induction false} MarksCount(ws: seq<Worker>, ws': seq<Worker>)
    requires SameMarks(ws, ws')
    ensures OpenCount(ws') == OpenCount(ws)
  {
    if ws != [] {
      MarksCount(ws[..|ws| - 1], ws'[..|ws| - 1]);
    }
  }

  lemma MarksRetirable(ws: seq<Worker>, ws': seq<Worker>, leases: map<nat, nat>, leases': map<nat, nat>, nextId: nat,
                       retiring: map<Pid, Retirement>)
    requires SameMarks(ws, ws') && AllRetirable(ws, leases, nextId, retiring)
    requires forall id :: Closing(ws, nextId, id) && LeasesOn(leases, id) == 0 ==> LeasesOn(leases', id) == 0
    ensures AllRetirable(ws', leases', nextId, retiring)
  {
    forall p, id | p in retiring && id in retiring[p].ids
      ensures Closing(ws', nextId, id) && LeasesOn(leases', id) == 0
    {
      assert Closing(ws, nextId, id);
    }
  }

  /** What admission settles on: an open worker, least loaded unless it is a fresh one. */
  lemma PickIsOpen(p: Policy, now: nat, m: Managed, dead: set<nat>, started: bool)
    ensures var a := AdmissionPick(p, now, m, dead, started);
            a.picked >= 0 ==> a.picked < |a.s.workers| && !a.s.workers[a.picked].quiescing
  {
    var looked := Notice(m.workers, dead);
    LeastIsLeast(false, looked, |looked|);
  }

  /** Admission leaves the pool as it looked, or with one fresh worker where there was room. */
  lemma PickOutcome(p: Policy, now: nat, m: Managed, dead: set<nat>, started: bool)
    requires p.Valid()
    ensures var a, looked := AdmissionPick(p, now, m, dead, started), m.(workers := Notice(m.workers, dead));
            a.s == looked || (a.s == Spawn(looked, now) && OpenCount(looked.workers) < p.maxAgents)
  {
    var looked := Notice(m.workers, dead);
    LeastIsLeast(false, looked, |looked|);
    NoneOpen(looked);
  }

  /** All of the invariant that does not involve leases and retirement. */
  predicate Sound(p: Policy, s: State) {
    OpenCount(s.pool.workers) <= p.maxAgents && Bounded(s.pool.workers, s.pool.load, s.peak) && Clocked(s) && Streaky(s)
  }

  /** A tick that starts workers leaves no more than the minimum selectable. */
  lemma {:induction false} RestoreDated(p: Policy, now: nat, m: Managed, rounds: seq<Round>)
    requires p.Valid()
    ensures var m' := Restore(p, now, m, rounds);
            && m'.nextId >= m.nextId
            && if m'.nextId == m.nextId then m'.lastSpawn == m.lastSpawn
               && OpenCount(m'.workers) <= OpenCount(m.workers)
               else m'.lastSpawn == now && OpenCount(m'.workers) <= p.minAgents
    decreases |rounds|
  {
    if rounds != [] {
      var looked := m.(workers := Notice(m.workers, rounds[0].dead));
      NoticeSame(m.workers, rounds[0].dead);
      OpenShrinks(m.workers, looked.workers);
      if OpenCount(looked.workers) < p.minAgents && CanSpawn(looked, rounds[0].started) {
        OpenPush(looked.workers, Fresh(looked.nextId));
        RestoreDated(p, now, Spawn(looked, now), rounds[1..]);
      }
    }
  }

  lemma TickDated(p: Policy, s: State, pid: Pid, dead: set<nat>, later: set<nat>, rounds: seq<Round>, s': State)
    requires p.Valid() && Dated(p, s) && Clocked(s) && s.read.Some? && !s.pool.closed
    requires s' == AfterTick(p, s, pid, dead, later, rounds)
    ensures Dated(p, s')
  {
    var decided := Decide(p, s.read.value, s.pool, dead, later);
    DecideSame(p, s.read.value, s.pool, dead, later);
    OpenShrinks(s.pool.workers, decided.workers);
    RestoreDated(p, s.read.value, decided, rounds);
  }

  lemma AdmittedDated(p: Policy, s: State, dead: set<nat>, started: bool)
    requires p.Valid() && Dated(p, s)
    ensures Dated(p, Admitted(s, AdmissionPick(p, s.clock, s.pool, dead, started).s))
  {
    var looked := Notice(s.pool.workers, dead);
    PickOutcome(p, s.clock, s.pool, dead, started);
    NoticeSame(s.pool.workers, dead);
    OpenShrinks(s.pool.workers, looked);
  }

  lemma SpawnSound(p: Policy, s: State, m: Managed)
    requires Sound(p, s.(pool := m)) && OpenCount(m.workers) < p.maxAgents
    ensures Sound(p, s.(pool := Spawn(m, s.clock)))
  {
    OpenPush(m.workers, Fresh(m.nextId));
  }

  lemma PickKeeps(p: Policy, s: State, dead: set<nat>, started: bool)
    requires p.Valid() && Inv(p, s)
    ensures var a := AdmissionPick(p, s.clock, s.pool, dead, started).s;
            && Distinct(a.workers, a.nextId) && Leased(a.workers, s.leases, s.nextLease, a.nextId)
            && AllRetirable(a.workers, s.leases, a.nextId, s.retiring)
            && Sound(p, s.(pool := a))
  {
    var looked := s.pool.(workers := Notice(s.pool.workers, dead));
    NoticeSame(s.pool.workers, dead);
    SameKeeps(s.pool.workers, looked.workers, s.leases, s.nextLease, s.pool.nextId, s.retiring);
    PickOutcome(p, s.clock, s.pool, dead, started);
    assert Sound(p, s.(pool := looked));
    if AdmissionPick(p, s.clock, s.pool, dead, started).s != looked {
      SpawnKeeps(looked, s.clock, s.leases, s.nextLease);
      SpawnRetirable(looked, s.clock, s.leases, s.retiring);
      SpawnSound(p, s, looked);
    }
  }

  lemma AdmittedKeepsInv(p: Policy, s: State, dead: set<nat>, started: bool)
    requires p.Valid() && Inv(p, s)
    ensures Inv(p, Admitted(s, AdmissionPick(p, s.clock, s.pool, dead, started).s))
  {
    AdmittedDated(p, s, dead, started);
    PickKeeps(p, s, dead, started);
  }

  lemma GrantKeepsInv(p: Policy, s: State, i: nat)
    requires Inv(p, s) && i < |s.pool.workers| && !s.pool.workers[i].quiescing
    ensures Inv(p, Granted(s, i))
  {
    var ws, s', id := s.pool.workers, Granted(s, i), s.pool.workers[i].id;
    GrantOnce(s, i);
    GrantKeeps(s.pool, i, s.leases, s.nextLease);
    MarksCount(ws, s'.pool.workers);
    forall other | Closing(ws, s.pool.nextId, other)
      ensures LeasesOn(s'.leases, other) == LeasesOn(s.leases, other)
    {
      LeaseAdded(s.leases, s.nextLease, id, other);
    }
    MarksRetirable(ws, s'.pool.workers, s.leases, s'.leases, s.pool.nextId, s.retiring);
  }

  lemma AcquireKeepsInv(p: Policy, s: State, dead: set<nat>, started: bool, s': State)
    requires p.Valid() && Inv(p, s) && Enabled(s, Acquire(dead, started)) && s' == AfterAcquire(p, s, dead, started)
    ensures Inv(p, s')
  {
    var a := AdmissionPick(p, s.clock, s.pool, dead, started);
    AdmittedKeepsInv(p, s, dead, started);
    PickIsOpen(p, s.clock, s.pool, dead, started);
    if a.picked >= 0 {
      GrantKeepsInv(p, Admitted(s, a.s), a.picked);
    }
  }

  /** Releasing a lease: the worker's count goes down by one, and never would below zero. */
  lemma ReleaseKeeps(m: Managed, lease: nat, leases: map<nat, nat>, nextLease: nat)
    requires Distinct(m.workers, m.nextId) && Leased(m.workers, leases, nextLease, m.nextId) && lease in leases
    ensures var d := Release(m, leases[lease]);
            && Distinct(d.s.workers, d.s.nextId) && Leased(d.s.workers, leases - {lease}, nextLease, d.s.nextId)
            && SameMarks(m.workers, d.s.workers)
            && Retirable(d.s.workers, leases - {lease}, d.s.nextId, Retirement(d.retiring, {}))
    ensures var i := Find(m.workers, leases[lease], |m.workers|); i >= 0 ==> m.workers[i].active > 0
  {
    var id := leases[lease];
    var i := Find(m.workers, id, |m.workers|);
    var d := Release(m, id);
    LeaseRemoved(leases, lease, id);
    if i >= 0 {
      forall j | 0 <= j < |m.workers|
        ensures d.s.workers[j].active == LeasesOn(leases - {lease}, m.workers[j].id)
      {
        LeaseRemoved(leases, lease, m.workers[j].id);
        if m.workers[j].id == id {
          OnePosition(m.workers, m.nextId, i, j);
        }
      }
      forall j | 0 <= j < |m.workers| && m.workers[j].id == id
        ensures j == i
      {
        OnePosition(m.workers, m.nextId, i, j);
      }
    } else {
      forall j | 0 <= j < |m.workers|
        ensures m.workers[j].active == LeasesOn(leases - {lease}, m.workers[j].id)
      {
        LeaseRemoved(leases, lease, m.workers[j].id);
      }
    }
  }

  lemma GrantOnce(s: State, i: nat)
    requires Once(s) && i < |s.pool.workers|
    ensures Once(Granted(s, i))
  {
  }

  lemma CallOnce(p: Policy, s: State, a: Action, s': State)
    requires Once(s) && Enabled(s, a) && s' == Apply(p, s, a)
    requires a.CallRelease? || a.ReleaseLease? || a.AbandonRelease?
    ensures Once(s')
  {
  }

  lemma ReleaseKeepsInv(p: Policy, s: State, lease: Lease, pid: Pid, s': State)
    requires Inv(p, s) && Enabled(s, ReleaseLease(pid)) && lease == s.releasing[pid]
    requires s' == AfterRelease(s, lease, pid)
    ensures Inv(p, s')
  {
    CallOnce(p, s, ReleaseLease(pid), s');
    ReleaseKeeps(s.pool, lease.number, s.leases, s.nextLease);
    MarksCount(s.pool.workers, s'.pool.workers);
    forall id | LeasesOn(s.leases, id) == 0
      ensures LeasesOn(s'.leases, id) == 0
    {
      LeaseRemoved(s.leases, lease.number, id);
    }
    MarksRetirable(s.pool.workers, s'.pool.workers, s.leases, s'.leases, s.pool.nextId, s.retiring);
    assert AllRetirable(s'.pool.workers, s'.leases, s.pool.nextId, s.retiring);
    assert Retirable(s'.pool.workers, s'.leases, s.pool.nextId, s'.retiring[pid]);
  }

  // ---- stopping, removing, closing

  lemma StopKeepsInv(p: Policy, s: State, id: nat, s': State)
    requires Inv(p, s) && s' == s.(pool := Stopped(s.pool, id), retiring := s'.retiring)
    requires forall q :: q in s'.retiring ==> q in s.retiring && s'.retiring[q].ids == s.retiring[q].ids
    ensures Inv(p, s')
  {
    SameKeeps(s.pool.workers, s'.pool.workers, s.leases, s.nextLease, s.pool.nextId, s.retiring);
    forall q, k | q in s'.retiring && k in s'.retiring[q].ids
      ensures Closing(s'.pool.workers, s.pool.nextId, k) && LeasesOn(s.leases, k) == 0
    {
      assert Retirable(s'.pool.workers, s.leases, s.pool.nextId, s.retiring[q]);
    }
  }

  /** Removing keeps only workers that were there. */
  lemma {:induction false} KeepMembers(ws: seq<Worker>, gone: set<nat>)
    ensures forall w :: w in Keep(ws, gone) ==> w in ws && w.id !in gone
    ensures OpenCount(Keep(ws, gone)) <= OpenCount(ws)
  {
    if ws != [] {
      var n := |ws| - 1;
      KeepMembers(ws[..n], gone);
      OpenPush(Keep(ws[..n], gone), ws[n]);
    }
  }

  lemma DistinctPush(ws: seq<Worker>, w: Worker, nextId: nat)
    requires Distinct(ws, nextId) && w.id < nextId && forall v :: v in ws ==> v.id != w.id
    ensures Distinct(ws + [w], nextId)
  {
    assert forall i :: 0 <= i < |ws| ==> ws[i] in ws;
  }

  lemma {:induction false} KeepDistinct(ws: seq<Worker>, gone: set<nat>, nextId: nat)
    requires Distinct(ws, nextId)
    ensures Distinct(Keep(ws, gone), nextId)
  {
    if ws != [] {
      var n := |ws| - 1;
      KeepDistinct(ws[..n], gone, nextId);
      KeepMembers(ws[..n], gone);
      DistinctPush(Keep(ws[..n], gone), ws[n], nextId);
    }
  }

  lemma KeepKeeps(ws: seq<Worker>, gone: set<nat>, leases: map<nat, nat>, nextLease: nat, nextId: nat)
    requires Distinct(ws, nextId) && Leased(ws, leases, nextLease, nextId)
    ensures var ws' := Keep(ws, gone);
            && Distinct(ws', nextId) && Leased(ws', leases, nextLease, nextId)
            && OpenCount(ws') <= OpenCount(ws)
            && forall i :: 0 <= i < |ws'| ==> ws'[i] in ws && ws'[i].id !in gone
  {
    KeepMembers(ws, gone);
    KeepDistinct(ws, gone, nextId);
    assert forall i :: 0 <= i < |Keep(ws, gone)| ==> Keep(ws, gone)[i] in ws;
  }

  /** No worker is lost but those named. */
  lemma {:induction false} KeepOthers(ws: seq<Worker>, gone: set<nat>, i: nat)
    requires i < |ws| && ws[i].id !in gone
    ensures ws[i] in Keep(ws, gone)
  {
    var n := |ws| - 1;
    if i < n {
      KeepOthers(ws[..n], gone, i);
    }
  }

  lemma RemoveKeepsInv(p: Policy, s: State, gone: set<nat>, retiring: map<Pid, Retirement>, s': State)
    requires Inv(p, s) && s' == s.(pool := Removed(s.pool, gone), retiring := retiring)
    requires forall q :: q in retiring ==> q in s.retiring && retiring[q] == s.retiring[q]
    ensures Inv(p, s')
  {
    var ws, ws' := s.pool.workers, s'.pool.workers;
    KeepKeeps(ws, gone, s.leases, s.nextLease, s.pool.nextId);
    forall q, k | q in retiring && k in retiring[q].ids
      ensures Closing(ws', s.pool.nextId, k) && LeasesOn(s.leases, k) == 0
    {
      assert Retirable(ws, s.leases, s.pool.nextId, s.retiring[q]);
      assert Closing(ws, s.pool.nextId, k);
    }
  }

  lemma CloseKeepsInv(p: Policy, s: State, a: Action, s': State)
    requires Inv(p, s) && (a.StartClose? || a.EndClose?) && Enabled(s, a) && s' == Apply(p, s, a)
    ensures Inv(p, s')
  {
    if a.StartClose? {
      SameKeeps(s.pool.workers, s'.pool.workers, s.leases, s.nextLease, s.pool.nextId, s.retiring);
    } else {
      forall q, k | q in s.retiring && k in s.retiring[q].ids
        ensures Closing([], s.pool.nextId, k) && LeasesOn(s.leases, k) == 0
      {
        assert Closing(s.pool.workers, s.pool.nextId, k);
      }
    }
  }

  lemma StepKeepsInv(p: Policy, s: State, a: Action, s': State)
    requires p.Valid() && Inv(p, s) && Enabled(s, a) && s' == Apply(p, s, a)
    ensures Inv(p, s')
  {
    match a
    case Advance(_) =>
    case ReadClock =>
    case TickNow(pid, dead, later, rounds) => TickKeepsInv(p, s, pid, dead, later, rounds, s');
    case Acquire(dead, started) => AcquireKeepsInv(p, s, dead, started, s');
    case CallRelease(_, _) => CallOnce(p, s, a, s');
    case ReleaseLease(pid) => ReleaseKeepsInv(p, s, s.releasing[pid], pid, s');
    case AbandonRelease(_) => CallOnce(p, s, a, s');
    case StopOne(_, id) => StopKeepsInv(p, s, id, s');
    case Die(id) => StopKeepsInv(p, s, id, s');
    case Remove(pid) => RemoveKeepsInv(p, s, s.retiring[pid].ids, s'.retiring, s');
    case Interrupt(pid) => InterruptKeepsInv(p, s, pid, s');
    case StartClose => CloseKeepsInv(p, s, a, s');
    case EndClose => CloseKeepsInv(p, s, a, s');
  }

  lemma InterruptKeepsInv(p: Policy, s: State, pid: Pid, s': State)
    requires Inv(p, s) && s' == s.(retiring := s.retiring - {pid})
    ensures Inv(p, s')
  {
  }

  // ---- runs

  lemma {:induction false} FreshAreOpen(ws: seq<Worker>)
    requires forall i :: 0 <= i < |ws| ==> !ws[i].quiescing
    ensures OpenCount(ws) == |ws|
  {
    if ws != [] {
      FreshAreOpen(ws[..|ws| - 1]);
    }
  }

  lemma StartInv(p: Policy, clock: nat)
    requires p.Valid() && clock < WORD
    ensures Inv(p, Start(p, clock))
  {
    FreshAreOpen(Initial(p));
    var none: map<nat, nat> := map[];
    forall id: nat
      ensures LeasesOn(none, id) == 0
    {
      assert On(none, id) == {};
    }
  }

  ghost predicate StepAt(p: Policy, run: seq<State>, acts: seq<Action>, i: nat)
    requires i < |acts| && |run| == |acts| + 1
  {
    Enabled(run[i], acts[i]) && run[i + 1] == Apply(p, run[i], acts[i])
  }

  /** Any interleaving of requests, releases, ticks, retirements, reactor deaths and a close, under a sane policy. */
  ghost predicate IsRun(p: Policy, run: seq<State>, acts: seq<Action>) {
    && p.Valid() && |run| == |acts| + 1
    && (exists clock :: 0 <= clock < WORD && run[0] == Start(p, clock))
    && forall i :: 0 <= i < |acts| ==> StepAt(p, run, acts, i)
  }

  lemma StepOfRun(p: Policy, run: seq<State>, acts: seq<Action>, k: nat, i: nat)
    requires IsRun(p, run, acts) && i == k + 1 < |run|
    ensures Enabled(run[k], acts[k]) && run[i] == Apply(p, run[k], acts[k])
  {
    assert StepAt(p, run, acts, k);
  }

  lemma {:induction false} RunKeepsInv(p: Policy, run: seq<State>, acts: seq<Action>, i: nat)
    requires IsRun(p, run, acts) && i < |run|
    ensures Inv(p, run[i])
  {
    if i == 0 {
      var clock :| 0 <= clock < WORD && run[0] == Start(p, clock);
      StartInv(p, clock);
    } else {
      var k := i - 1;
      RunKeepsInv(p, run, acts, k);
      StepOfRun(p, run, acts, k, i);
      StepKeepsInv(p, run[k], acts[k], run[i]);
    }
  }

  // ---- what the pool promises

  /** At every moment each worker's active count is its number of outstanding leases, IDs are distinct and below the
      next one, and no more workers than the maximum may be given transfers. */
  lemma CountsAreLeases(p: Policy, run: seq<State>, acts: seq<Action>, i: nat)
    requires IsRun(p, run, acts) && i < |run|
    ensures var ws := run[i].pool.workers;
            && (forall k :: 0 <= k < |ws| ==>
                ws[k].active == LeasesOn(run[i].leases, ws[k].id) && ws[k].id < run[i].pool.nextId)
            && (forall k, l :: 0 <= k < l < |ws| ==> ws[k].id != ws[l].id)
            && OpenCount(ws) <= p.maxAgents
  {
    RunKeepsInv(p, run, acts, i);
  }

  /** Releasing never meets a count of zero: the `max 0` never clamps. */
  lemma NeverClamps(p: Policy, run: seq<State>, acts: seq<Action>, i: nat)
    requires IsRun(p, run, acts) && i < |acts| && acts[i].ReleaseLease?
    ensures acts[i].p in run[i].releasing && run[i].releasing[acts[i].p].number in run[i].leases
    ensures var lease, ws := run[i].releasing[acts[i].p].number, run[i].pool.workers;
            forall k :: 0 <= k < |ws| && ws[k].id == run[i].leases[lease] ==> ws[k].active > 0
  {
    RunKeepsInv(p, run, acts, i);
    StepOfRun(p, run, acts, i, i + 1);
    var lease := run[i].releasing[acts[i].p].number;
    assert lease in On(run[i].leases, run[i].leases[lease]);
  }

  /** Given back for good. */
  predicate Returned(s: State, lease: nat) {
    lease in s.done && lease !in s.leases
  }

  lemma StepKeepsReturned(p: Policy, s: State, a: Action, s': State, lease: nat)
    requires Once(s) && Enabled(s, a) && s' == Apply(p, s, a) && Returned(s, lease)
    ensures Returned(s', lease)
  {
  }

  lemma {:induction false} ReturnedForEver(p: Policy, run: seq<State>, acts: seq<Action>, i: nat, j: nat, lease: nat)
    requires IsRun(p, run, acts) && i <= j < |run| && Returned(run[i], lease)
    ensures Returned(run[j], lease)
    decreases j
  {
    if i < j {
      var k := j - 1;
      ReturnedForEver(p, run, acts, i, k, lease);
      RunKeepsInv(p, run, acts, k);
      StepOfRun(p, run, acts, k, j);
      StepKeepsReturned(p, run[k], acts[k], run[j], lease);
    }
  }

  /** However many times, and from however many threads, a transfer's release closure runs, its lease is given back at
      most once. */
  lemma ReleasedOnce(p: Policy, run: seq<State>, acts: seq<Action>, i: nat, j: nat)
    requires IsRun(p, run, acts) && i < j < |acts| && acts[i].ReleaseLease? && acts[j].ReleaseLease?
    ensures acts[i].p in run[i].releasing && acts[j].p in run[j].releasing
    ensures run[i].releasing[acts[i].p].number != run[j].releasing[acts[j].p].number
  {
    var n, after := i + 1, j + 1;
    RunKeepsInv(p, run, acts, i);
    RunKeepsInv(p, run, acts, j);
    StepOfRun(p, run, acts, i, n);
    StepOfRun(p, run, acts, j, after);
    var lease := run[i].releasing[acts[i].p].number;
    ReturnedForEver(p, run, acts, n, j, lease);
  }

  /** The averages stay within what was sampled. */
  lemma AveragesBounded(p: Policy, run: seq<State>, acts: seq<Action>, i: nat)
    requires IsRun(p, run, acts) && i < |run|
    ensures 0.0 <= run[i].pool.load <= run[i].peak
    ensures forall k :: 0 <= k < |run[i].pool.workers| ==> 0.0 <= run[i].pool.workers[k].utilization <= 1.0
  {
    RunKeepsInv(p, run, acts, i);
  }

  /** A lease is granted on a worker that is not draining, least loaded among those unless it is a fresh one, and fresh
      ones are started only when nothing is selectable or every selectable worker is busy enough. */
  lemma LeaseGoesToOpen(p: Policy, now: nat, m: Managed, dead: set<nat>, started: bool)
    ensures var a, ws := AdmissionPick(p, now, m, dead, started), Notice(m.workers, dead);
            a.picked >= 0 ==>
              && a.picked < |a.s.workers| && !a.s.workers[a.picked].quiescing
              && if a.picked < |ws|
                 then forall k :: 0 <= k < |ws| && !ws[k].quiescing ==> ws[a.picked].active <= ws[k].active
                 else a.s == Spawn(m.(workers := ws), now) &&
                      forall k :: 0 <= k < |ws| && !ws[k].quiescing ==> ws[k].active >= p.growLoad
  {
    var ws := Notice(m.workers, dead);
    LeastIsLeast(false, ws, |ws|);
  }

  lemma TickKeepsClosing(p: Policy, s: State, pid: Pid, dead: set<nat>, later: set<nat>, rounds: seq<Round>, s': State,
                         id: nat)
    requires s.read.Some? && !s.pool.closed && Closing(s.pool.workers, s.pool.nextId, id)
    requires s' == AfterTick(p, s, pid, dead, later, rounds)
    ensures Closing(s'.pool.workers, s'.pool.nextId, id)
  {
    var watch := map[0 := Retirement({id}, {})];
    var none: map<nat, nat> := map[];
    var decided := Decide(p, s.read.value, s.pool, dead, later);
    DecideSame(p, s.read.value, s.pool, dead, later);
    assert On(none, id) == {};
    assert AllRetirable(decided.workers, none, decided.nextId, watch);
    RestoreRetirable(p, s.read.value, decided, rounds, none, watch);
    assert Retirable(s'.pool.workers, none, s'.pool.nextId, watch[0]);
  }

  /** A draining or removed worker is never leased again, and never comes back. */
  lemma StepKeepsClosing(p: Policy, s: State, a: Action, s': State, id: nat)
    requires p.Valid() && Inv(p, s) && Enabled(s, a) && s' == Apply(p, s, a)
    requires Closing(s.pool.workers, s.pool.nextId, id)
    ensures Closing(s'.pool.workers, s'.pool.nextId, id) && LeasesOn(s'.leases, id) <= LeasesOn(s.leases, id)
  {
    match a
    case TickNow(pid, dead, later, rounds) =>
      if !s.pool.closed {
        TickKeepsClosing(p, s, pid, dead, later, rounds, s', id);
      }
    case Acquire(dead, started) => AcquireKeepsClosing(p, s, dead, started, s', id);
    case ReleaseLease(pid) =>
      var lease := s.releasing[pid].number;
      ReleaseKeeps(s.pool, lease, s.leases, s.nextLease);
      LeaseRemoved(s.leases, lease, id);
    case Remove(pid) =>
      KeepKeeps(s.pool.workers, s.retiring[pid].ids, s.leases, s.nextLease, s.pool.nextId);
    case _ =>
  }

  lemma AcquireKeepsClosing(p: Policy, s: State, dead: set<nat>, started: bool, s': State, id: nat)
    requires p.Valid() && Inv(p, s) && Closing(s.pool.workers, s.pool.nextId, id)
    requires s' == AfterAcquire(p, s, dead, started)
    ensures Closing(s'.pool.workers, s'.pool.nextId, id) && LeasesOn(s'.leases, id) == LeasesOn(s.leases, id)
  {
    var a := AdmissionPick(p, s.clock, s.pool, dead, started);
    NoticeSame(s.pool.workers, dead);
    PickOutcome(p, s.clock, s.pool, dead, started);
    PickIsOpen(p, s.clock, s.pool, dead, started);
    assert Closing(a.s.workers, a.s.nextId, id);
    if a.picked >= 0 {
      LeaseAdded(s.leases, s.nextLease, a.s.workers[a.picked].id, id);
    }
  }

  /** Draining is for ever, over any stretch of a run. */
  lemma {:induction false} ClosingForEver(p: Policy, run: seq<State>, acts: seq<Action>, i: nat, j: nat, id: nat)
    requires IsRun(p, run, acts) && i <= j < |run| && Closing(run[i].pool.workers, run[i].pool.nextId, id)
    ensures Closing(run[j].pool.workers, run[j].pool.nextId, id)
    ensures LeasesOn(run[j].leases, id) <= LeasesOn(run[i].leases, id)
    decreases j
  {
    if i < j {
      var k := j - 1;
      ClosingForEver(p, run, acts, i, k, id);
      RunKeepsInv(p, run, acts, k);
      StepOfRun(p, run, acts, k, j);
      StepKeepsClosing(p, run[k], acts[k], run[j], id);
    }
  }

  /** Retirement safety: although the decision, the stop and the removal are separate steps with anything in between,
      what is removed was stopped, is draining and has no lease; everyone else stays. */
  lemma RetiresOnlyIdle(p: Policy, run: seq<State>, acts: seq<Action>, k: nat)
    requires IsRun(p, run, acts) && k < |acts| && acts[k].Remove?
    ensures acts[k].p in run[k].retiring
    ensures var s, ids := run[k], run[k].retiring[acts[k].p].ids;
            && ids <= s.retiring[acts[k].p].stopped
            && (forall id :: id in ids ==> LeasesOn(s.leases, id) == 0)
            && (forall i :: 0 <= i < |s.pool.workers| && s.pool.workers[i].id in ids ==>
                  s.pool.workers[i].quiescing && s.pool.workers[i].active == 0)
            && (forall i :: 0 <= i < |s.pool.workers| && s.pool.workers[i].id !in ids ==>
                s.pool.workers[i] in run[k + 1].pool.workers)
  {
    var j := k + 1;
    RunKeepsInv(p, run, acts, k);
    StepOfRun(p, run, acts, k, j);
    RemovesIdle(p, run[k], acts[k].p);
  }

  lemma RemovesIdle(p: Policy, s: State, pid: Pid)
    requires Inv(p, s) && pid in s.retiring
    ensures var ids, ws := s.retiring[pid].ids, s.pool.workers;
            && (forall id :: id in ids ==> LeasesOn(s.leases, id) == 0)
            && (forall i :: 0 <= i < |ws| && ws[i].id in ids ==> ws[i].quiescing && ws[i].active == 0)
            && (forall i :: 0 <= i < |ws| && ws[i].id !in ids ==> ws[i] in Removed(s.pool, ids).workers)
  {
    var ids, ws := s.retiring[pid].ids, s.pool.workers;
    assert Retirable(ws, s.leases, s.pool.nextId, s.retiring[pid]);
    forall i | 0 <= i < |ws| && ws[i].id in ids
      ensures ws[i].quiescing && ws[i].active == 0
    {
      assert Closing(ws, s.pool.nextId, ws[i].id);
    }
    forall i | 0 <= i < |ws| && ws[i].id !in ids
      ensures ws[i] in Removed(s.pool, ids).workers
    {
      KeepOthers(ws, ids, i);
    }
  }

  /** A drain marks exactly one worker: a selectable one with the least (active, utilization). */
  lemma VictimIsLeast(p: Policy, now: nat, m: Managed, dead: set<nat>, later: set<nat>) returns (v: nat)
    requires Drains(p, now, m, dead, later)
    ensures var ws := Notice(Measured(p, m, dead).workers, later);
            && v < |ws| && !ws[v].quiescing
            && (forall k :: 0 <= k < |ws| && !ws[k].quiescing ==> !Less(true, ws[k], ws[v]))
            && Decide(p, now, m, dead, later).workers == ws[v := ws[v].(quiescing := true)]
  {
    var ws := Notice(Measured(p, m, dead).workers, later);
    LeastIsLeast(true, ws, |ws|);
    v := Least(true, ws, |ws|);
  }

  /** Drains are at least mpSustainTicks ticks apart. */
  lemma DrainsAreSpaced(p: Policy, run: seq<State>, acts: seq<Action>, k: nat)
    requires IsRun(p, run, acts) && k < |acts| && acts[k].TickNow? && run[k].read.Some?
    requires Drains(p, run[k].read.value, run[k].pool, acts[k].dead, acts[k].later)
    ensures run[k + 1].lastDrain == Some(run[k].ticks + 1)
    ensures run[k].lastDrain.Some? ==> run[k].ticks + 1 - run[k].lastDrain.value >= p.sustainTicks
  {
    var j := k + 1;
    RunKeepsInv(p, run, acts, k);
    StepOfRun(p, run, acts, k, j);
  }

  // ---- the minimum

  predicate Refreshed(ws: seq<Worker>) {
    forall i :: 0 <= i < |ws| ==> ws[i].running || ws[i].quiescing
  }

  lemma NoticeRefreshed(ws: seq<Worker>)
    requires Refreshed(ws)
    ensures OpenCount(Notice(ws, {})) >= OpenCount(ws) && Refreshed(Notice(ws, {}))
  {
    SameMarksNoticed(ws);
    MarksCount(ws, Notice(ws, {}));
  }

  lemma SameMarksNoticed(ws: seq<Worker>)
    requires Refreshed(ws)
    ensures SameMarks(ws, Notice(ws, {}))
  {
  }

  predicate AllSucceed(rounds: seq<Round>) {
    forall i :: 0 <= i < |rounds| ==> rounds[i] == Round({}, true)
  }

  lemma {:induction false} RestoreReaches(p: Policy, now: nat, m: Managed, rounds: seq<Round>)
    requires AllSucceed(rounds) && Refreshed(m.workers) && m.nextId + |rounds| <= MAX_INT
    requires OpenCount(m.workers) + |rounds| > p.minAgents
    ensures OpenCount(Restore(p, now, m, rounds).workers) >= p.minAgents
    decreases |rounds|
  {
    if rounds != [] {
      var looked := m.(workers := Notice(m.workers, rounds[0].dead));
      NoticeRefreshed(m.workers);
      if OpenCount(looked.workers) < p.minAgents {
        OpenPush(looked.workers, Fresh(m.nextId));
        RestoreReaches(p, now, Spawn(looked, now), rounds[1..]);
      }
    }
  }

  /** If no reactor stops during the tick and spawns succeed, the tick ends with at least the minimum selectable,
      however many had stopped before it. */
  lemma MinimumRestored(p: Policy, now: nat, m: Managed, rounds: seq<Round>)
    requires p.Valid() && !m.closed && AllSucceed(rounds) && |rounds| > p.minAgents && m.nextId + |rounds| <= MAX_INT
    ensures OpenCount(Tick(p, now, m, {}, {}, rounds).s.workers) >= p.minAgents
  {
    var decided := Decide(p, now, m, {}, {});
    DecideSame(p, now, m, {}, {});
    DecideRefreshed(p, now, m);
    RestoreReaches(p, now, decided, rounds);
  }

  lemma DecideRefreshed(p: Policy, now: nat, m: Managed)
    ensures Refreshed(Decide(p, now, m, {}, {}).workers)
  {
    var measured := Measured(p, m, {});
    assert Refreshed(measured.workers);
    assert Refreshed(Shrink(p, measured, {}).workers);
  }

  // ---- cooldowns, with wrapping time

  lemma SpawnShows(p: Policy, now: nat, m: Managed, dead: set<nat>, started: bool, least: int)
    requires var looked := m.(workers := Notice(m.workers, dead));
             OpenCount(looked.workers) > 0 && least == Least(false, looked.workers, |looked.workers|)
    requires AdmissionPick(p, now, m, dead, started).s.nextId != m.nextId
    ensures least >= 0 && Grows(p, now, m.(workers := Notice(m.workers, dead)), least)
  {
    var ws := Notice(m.workers, dead);
    LeastIsLeast(false, ws, |ws|);
    NoneOpen(ws);
  }

  /** What the recorded start is worth, on every run: an admission records the true start, a tick is off by exactly
      the time it waited for the lock, and the first workers' start is not recorded at all. Above the minimum the
      newest worker was started by an admission. */
  lemma RecordOfStart(p: Policy, run: seq<State>, acts: seq<Action>, i: nat)
    requires IsRun(p, run, acts) && i < |run|
    ensures match run[i].starter
            case AtStart => run[i].pool.lastSpawn == 0
            case ByAdmission => run[i].pool.lastSpawn == run[i].born
            case ByTick(wait) => 0 <= wait && run[i].born - run[i].pool.lastSpawn == wait
    ensures OpenCount(run[i].pool.workers) > p.minAgents ==> run[i].starter.ByAdmission?
    ensures run[i].born <= run[i].clock
  {
    RunKeepsInv(p, run, acts, i);
  }

  /** Growth waits. An admission that starts a worker although some worker is selectable (after its own look at who
      has died) does so a full cooldown after the recorded start, below the maximum, with every selectable worker busy
      enough: it reads the clock under the lock, so its Word64 difference is the true one. After a worker that an
      admission started this is the true cooldown; after one that a tick started the tick's wait is missing. */
  lemma GrowthWaits(p: Policy, run: seq<State>, acts: seq<Action>, k: nat, dead: set<nat>, started: bool)
    requires IsRun(p, run, acts) && k < |acts| && acts[k] == Acquire(dead, started)
    requires OpenCount(Notice(run[k].pool.workers, dead)) > 0 && run[k + 1].pool.nextId != run[k].pool.nextId
    ensures run[k].clock - run[k].pool.lastSpawn >= MicrosToNanos(p.spawnCooldown)
    ensures var ws := Notice(run[k].pool.workers, dead);
            OpenCount(ws) < p.maxAgents && forall i :: 0 <= i < |ws| && !ws[i].quiescing ==> ws[i].active >= p.growLoad
    ensures run[k].starter.ByAdmission? ==> run[k].clock - run[k].born >= MicrosToNanos(p.spawnCooldown)
    ensures run[k].starter.ByTick? ==>
              run[k].clock - run[k].born >= MicrosToNanos(p.spawnCooldown) - run[k].starter.wait
  {
    var ws, now, j := Notice(run[k].pool.workers, dead), run[k].clock, k + 1;
    var least := Least(false, ws, |ws|);
    RunKeepsInv(p, run, acts, k);
    StepOfRun(p, run, acts, k, j);
    SpawnShows(p, now, run[k].pool, dead, started, least);
    LeastIsLeast(false, ws, |ws|);
    TrueDifference(now, run[k].pool.lastSpawn);
  }

  lemma TrueDifference(now: nat, since: nat)
    requires now < WORD && since < WORD
    ensures now >= since ==> SubWord(now, since) == now - since
  {
  }

  /** Anything but a reading older than the last start makes the Word64 comparison the true one. */
  lemma DifferenceExactly(p: Policy, now: nat, m: Managed)
    requires p.Valid() && now < WORD && m.lastSpawn < WORD && CanKill(p, now, m)
    ensures now - m.lastSpawn >= MicrosToNanos(p.killCooldown) <==> now >= m.lastSpawn
  {
    TrueDifference(now, m.lastSpawn);
  }

  /** A drain only happens above the minimum. */
  lemma DrainIsDated(p: Policy, s: State, dead: set<nat>, later: set<nat>)
    requires Inv(p, s) && s.read.Some? && Drains(p, s.read.value, s.pool, dead, later)
    ensures s.pool.lastSpawn == s.born && CanKill(p, s.read.value, s.pool)
  {
    MeasuredSame(p, s.pool, dead);
    OpenShrinks(s.pool.workers, Measured(p, s.pool, dead).workers);
  }

  /** The exact condition, on every run: a drain comes a kill cooldown after the newest worker really started if and
      only if the tick's clock reading is not older than that start. */
  lemma CooldownExactly(p: Policy, run: seq<State>, acts: seq<Action>, k: nat)
    requires IsRun(p, run, acts) && k < |acts| && acts[k].TickNow? && run[k].read.Some?
    requires Drains(p, run[k].read.value, run[k].pool, acts[k].dead, acts[k].later)
    ensures run[k].read.value - run[k].born >= MicrosToNanos(p.killCooldown) <==> run[k].read.value >= run[k].born
  {
    RunKeepsInv(p, run, acts, k);
    DrainIsDated(p, run[k], acts[k].dead, acts[k].later);
    DifferenceExactly(p, run[k].read.value, run[k].pool);
  }

  /** With two or more sustain ticks every drain of every run comes that late: a stale reading can spoil only the
      first tick after a spawn, and that spawn reset the streak. */
  lemma CooldownKept(p: Policy, run: seq<State>, acts: seq<Action>, k: nat)
    requires IsRun(p, run, acts) && k < |acts| && acts[k].TickNow? && run[k].read.Some? && p.sustainTicks >= 2
    requires Drains(p, run[k].read.value, run[k].pool, acts[k].dead, acts[k].later)
    ensures run[k].born <= run[k].read.value <= run[k].clock
    ensures run[k].read.value - run[k].born >= MicrosToNanos(p.killCooldown)
  {
    RunKeepsInv(p, run, acts, k);
    DrainIsDated(p, run[k], acts[k].dead, acts[k].later);
    DifferenceExactly(p, run[k].read.value, run[k].pool);
  }

  // ---- one sustain tick

  const HASTY := Policy(1, 2, 250_000, 1, 0.25, 1, 0.35, 0, 5_000_000)

  function Scenario(k: nat): Action {
    if k == 0 then Advance(10)
    else if k == 1 then ReadClock
    else if k == 2 then Advance(20)
    else if k == 3 then Acquire({}, true)
    else Acquire({}, true)
  }

  function Stage(k: nat): State {
    var w0 := Fresh(0);
    var s := State(Managed([w0], 0.0, 0, 0, 1, false), map[], 0, map[], {}, map[], map[], 0, None, 0, AtStart, 0, None,
                   0.0);
    if k == 0 then s
    else if k == 1 then s.(clock := 10)
    else if k == 2 then s.(clock := 10, read := Some(10))
    else
      var t := s.(clock := 20, read := Some(10));
      if k == 3 then t
      else if k == 4 then t.(pool := t.pool.(workers := [w0.(active := 1)]), leases := map[0 := 0], home := map[0 := 0],
                             nextLease := 1)
      else t.(pool := Managed([w0.(active := 1), Fresh(1).(active := 1)], 0.0, 0, 20, 2, false),
              leases := map[0 := 0, 1 := 1], home := map[0 := 0, 1 := 1],
              nextLease := 2, born := 20, starter := ByAdmission)
  }

  lemma WaitStage(k: nat)
    requires k < 3
    ensures Enabled(Stage(k), Scenario(k)) && Stage(k + 1) == Apply(HASTY, Stage(k), Scenario(k))
  {
  }

  lemma FirstStage()
    ensures Enabled(Stage(3), Scenario(3)) && Stage(4) == Apply(HASTY, Stage(3), Scenario(3))
  {
    var ws := Stage(3).pool.workers;
    assert Notice(ws, {}) == ws;
    assert Least(false, ws, 1) == 0;
  }

  lemma SecondStage()
    ensures Enabled(Stage(4), Scenario(4)) && Stage(5) == Apply(HASTY, Stage(4), Scenario(4))
  {
    var ws := Stage(4).pool.workers;
    assert Notice(ws, {}) == ws;
    assert Least(false, ws, 1) == 0;
    OpenPush([], ws[0]);
    assert [] + [ws[0]] == ws;
    var a := AdmissionPick(HASTY, 20, Stage(4).pool, {}, true);
    assert Grows(HASTY, 20, Stage(4).pool, 0);
    assert a.s.workers == [ws[0], Fresh(1)] && a.picked == 1;
  }

  /** With a single sustain tick the cooldown can be skipped: a tick whose reading is older than an admission's spawn
      drains at once, five seconds early. */
  lemma HastyPoolDrainsEarly()
    ensures exists run, acts :: IsRun(HASTY, run, acts) && Early(HASTY, run[|acts|])
  {
    var run, acts := seq(6, k requires 0 <= k < 6 => Stage(k)), seq(5, k requires 0 <= k < 5 => Scenario(k));
    forall k | 0 <= k < 5
      ensures StepAt(HASTY, run, acts, k)
    {
      if k < 3 {
        WaitStage(k);
      } else if k == 3 {
        FirstStage();
      } else {
        SecondStage();
      }
    }
    assert Initial(HASTY) == [Fresh(0)];
    assert run[0] == Start(HASTY, 0);
    EarlyDrain();
    assert IsRun(HASTY, run, acts) && Early(HASTY, run[|acts|]);
  }

  /** The tick about to run drains although the newest worker started too recently. */
  predicate Early(p: Policy, s: State) {
    && s.read.Some? && Drains(p, s.read.value, s.pool, {}, {})
    && s.read.value - s.born < MicrosToNanos(p.killCooldown)
  }

  lemma EarlyDrain()
    ensures Early(HASTY, Stage(5))
  {
    var m := Stage(5).pool;
    var ws := m.workers;
    assert Notice(ws, {}) == ws;
    assert ws[..1] == [ws[0]] && [ws[0]][..0] == [];
    assert OpenCount([ws[0]]) == 1 && Demand([ws[0]]) == 1;
    assert OpenCount(ws) == 2 && Demand(ws) == 2;
    var measured := Measured(HASTY, m, {});
    MarksCount(Sampled(ws, 0.25), measured.workers);
    OpenShrinks(ws, measured.workers);
    OpenShrinks(measured.workers, ws);
    assert measured.load == 0.5;
    assert SubWord(10, 20) == WORD - 10;
    LeastIsLeast(true, Notice(measured.workers, {}), 2);
  }

  // ---- growth right after a restored minimum

  const EAGER := Policy(1, 2, 250_000, 3, 0.25, 1, 0.35, 1_000, 5_000_000)

  /** The controller reads the clock and waits; its tick replaces a dead worker; two requests follow at once. */
  function Replacing(k: nat): Action {
    if k == 0 then ReadClock
    else if k == 1 then Die(0)
    else if k == 2 then Advance(2_000_000)
    else if k == 3 then TickNow(9, {}, {}, [Round({}, true)])
    else Acquire({}, true)
  }

  function Replaced(k: nat): State {
    var w0 := Fresh(0);
    var m := Managed([w0], 0.0, 0, 0, 1, false);
    var s := State(m, map[], 0, map[], {}, map[], map[], 0, None, 0, AtStart, 0, None, 0.0);
    var dying := s.(read := Some(0), pool := m.(workers := [w0.(running := false)]));
    var restored := State(Managed([w0.(running := false, quiescing := true), Fresh(1)], 0.0, 0, 0, 2, false),
                          map[], 0, map[], {}, map[], map[9 := Retirement({0}, {})], 2_000_000, None, 2_000_000,
                          ByTick(2_000_000), 1, None, 0.0);
    if k == 0 then s
    else if k == 1 then s.(read := Some(0))
    else if k == 2 then dying
    else if k == 3 then dying.(clock := 2_000_000)
    else if k == 4 then restored
    else
      restored.(pool := restored.pool.(workers := [restored.pool.workers[0], Fresh(1).(active := 1)]),
                leases := map[0 := 1], home := map[0 := 1], nextLease := 1)
  }

  lemma QuietStages(k: nat)
    requires k < 3
    ensures Enabled(Replaced(k), Replacing(k)) && Replaced(k + 1) == Apply(EAGER, Replaced(k), Replacing(k))
  {
    if k == 1 {
      var w0 := Fresh(0);
      assert Stopped(Replaced(1).pool, 0).workers == [w0.(running := false)];
    }
  }

  lemma RestoreStage()
    ensures Enabled(Replaced(3), Replacing(3)) && Replaced(4) == Apply(EAGER, Replaced(3), Replacing(3))
  {
    var m := Replaced(3).pool;
    var gone := m.workers[0].(quiescing := true);
    var ws := Notice(m.workers, {});
    assert ws == [gone];
    assert ws[..0] == [] && OpenCount([gone]) == 0 && Demand([gone]) == 0;
    assert Sampled([gone], 0.25) == [gone];
    var decided := Decide(EAGER, 0, m, {}, {});
    assert decided == m.(workers := [gone]);
    assert Notice([gone], {}) == [gone];
    var grown := Spawn(decided, 0);
    assert grown.workers == [gone, Fresh(1)];
    assert Restore(EAGER, 0, grown, []) == grown;
    assert [Round({}, true)][1..] == [];
    assert Restore(EAGER, 0, decided, [Round({}, true)]) == grown;
    assert DrainFinished([gone]) == {0};
  }

  lemma LeaseStage()
    ensures Enabled(Replaced(4), Replacing(4)) && Replaced(5) == Apply(EAGER, Replaced(4), Replacing(4))
  {
    var ws := Replaced(4).pool.workers;
    assert Notice(ws, {}) == ws;
    assert Least(false, ws, 1) == -1;
    assert Least(false, ws, 2) == 1;
  }

  /** The next request starts a worker at once although the newest one has only just started. */
  predicate Eager(p: Policy, s: State) {
    && !s.pool.closed && OpenCount(Notice(s.pool.workers, {})) > 0
    && AdmissionPick(p, s.clock, s.pool, {}, true).s.nextId != s.pool.nextId
    && s.clock - s.born < MicrosToNanos(p.spawnCooldown)
  }

  lemma EagerStage()
    ensures Eager(EAGER, Replaced(5))
  {
    var ws := Replaced(5).pool.workers;
    assert Notice(ws, {}) == ws;
    assert Least(false, ws, 1) == -1;
    assert Least(false, ws, 2) == 1;
    var gone, open := ws[0], ws[1];
    OpenPush([], gone);
    OpenPush([gone], open);
    assert [] + [gone] == [gone] && [gone] + [open] == ws;
  }

  /** The spawn cooldown can be skipped after a restored minimum: the tick records its own stale reading as the start. A
      pool that has just been created is the other case (see PoolCooldowns). */
  lemma EagerPoolGrowsEarly()
    ensures exists run, acts :: IsRun(EAGER, run, acts) && Eager(EAGER, run[|acts|])
  {
    var run, acts := seq(6, k requires 0 <= k < 6 => Replaced(k)), seq(5, k requires 0 <= k < 5 => Replacing(k));
    forall k | 0 <= k < 5
      ensures StepAt(EAGER, run, acts, k)
    {
      if k < 3 {
        QuietStages(k);
      } else if k == 3 {
        RestoreStage();
      } else {
        LeaseStage();
      }
    }
    assert Initial(EAGER) == [Fresh(0)];
    assert run[0] == Start(EAGER, 0);
    EagerStage();
    assert IsRun(EAGER, run, acts) && Eager(EAGER, run[|acts|]);
  }
}

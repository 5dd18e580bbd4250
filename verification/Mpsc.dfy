/** The wait-free multi-producer single-consumer ring, one atomic operation per step. */
module Mpsc {
  import opened Counting
  import opened Words
  import opened Messages

  /** The words and slots shared by all threads. */
  datatype Memory<T> = Memory(max: nat, count: nat, head: nat, tail: nat, buffer: seq<Option<T>>)

  function Slot(position: nat, max: nat): (slot: nat)
    requires max > 0
    ensures slot < max
  {
    Residue(position, max)
  }

  /** `position % max`, by repeated subtraction (see SlotIsModulo). */
  function Residue(position: nat, max: nat): (residue: nat)
    requires max > 0
    ensures residue < max
  {
    if position < max then position else Residue(position - max, max)
  }

  predicate CapacityAccepted(capacity: nat) {
    capacity >= 2 && And(capacity, capacity - 1) == 0 && capacity <= SIZE_MAX / 8
  }

  /** Program counter of a thread inside mpscq_enqueue. */
  datatype EnqueuePc<T> =
    | Entered(obj: T)
    | Refusing(obj: T)                          // saw a full count; its increment is still to be undone
    | Refused(obj: T)
    | Admitted(obj: T)                          // counted, no ticket yet
    | Ticketed(obj: T, head: nat, ticket: nat)  // `head` is the fetched word, `ticket` its unwrapped value
    | Checked(obj: T, head: nat, ticket: nat)   // past the first assert
    | Published(obj: T, ticket: nat)
  {
    predicate InFlight() {
      Ticketed? || Checked?
    }

    predicate HasTicket() {
      InFlight() || Published?
    }
  }

  /** The consumer between its exchange and its final decrement holds an item. */
  datatype DequeuePc<T> = Polling | Took(item: T)

  /** `order` records the object of every ticket ever issued, `taken` how many were exchanged out,
      `holder` which producer still owes the publication of an issued ticket. */
  datatype Queue<T> = Queue(
    mem: Memory<T>,
    pcs: map<Pid, EnqueuePc<T>>,
    consumer: DequeuePc<T>,
    order: seq<T>,
    taken: nat,
    holder: map<nat, Pid>)
  {
    function Released(): int {
      if consumer.Took? then taken - 1 else taken
    }
  }

  datatype Action<T> =
    | Enter(p: Pid, obj: T)
    | AddCount(p: Pid)
    | SubCount(p: Pid)
    | AddHead(p: Pid)
    | CheckSlot(p: Pid)
    | Publish(p: Pid)
    | Return(p: Pid)
    | Poll
    | Release

  predicate Enabled<T>(q: Queue<T>, a: Action<T>) {
    match a
    case Enter(p, _) => p !in q.pcs && |q.pcs| + 1 + q.mem.max < WORD
    case AddCount(p) => p in q.pcs && q.pcs[p].Entered?
    case SubCount(p) => p in q.pcs && q.pcs[p].Refusing?
    case AddHead(p) => p in q.pcs && q.pcs[p].Admitted?
    case CheckSlot(p) => p in q.pcs && q.pcs[p].Ticketed?
    case Publish(p) => p in q.pcs && q.pcs[p].Checked?
    case Return(p) => p in q.pcs && (q.pcs[p].Refused? || q.pcs[p].Published?)
    case Poll => q.consumer.Polling?
    case Release => q.consumer.Took?
  }

  // ---- the atomic operations on the shared memory

  predicate WellFormed<T>(m: Memory<T>) {
    m.max > 0 && |m.buffer| == m.max && m.tail < m.max
  }

  function FetchAddCount<T>(m: Memory<T>): Memory<T> {
    m.(count := AddWord(m.count, 1))
  }

  function FetchSubCount<T>(m: Memory<T>): Memory<T> {
    m.(count := SubWord(m.count, 1))
  }

  function FetchAddHead<T>(m: Memory<T>): Memory<T> {
    m.(head := AddWord(m.head, 1))
  }

  function Store<T>(m: Memory<T>, position: nat, obj: T): Memory<T>
    requires WellFormed(m)
  {
    m.(buffer := m.buffer[Slot(position, m.max) := Some(obj)])
  }

  function Clear<T>(m: Memory<T>): Memory<T>
    requires WellFormed(m)
  {
    m.(buffer := m.buffer[m.tail := None])
  }

  function AdvanceTail<T>(m: Memory<T>): Memory<T> {
    m.(tail := if m.tail + 1 >= m.max then 0 else m.tail + 1)
  }

  function Apply<T>(q: Queue<T>, a: Action<T>): Queue<T>
    requires WellFormed(q.mem) && Enabled(q, a)
  {
    match a
    case Enter(p, obj) =>
      q.(pcs := q.pcs[p := Entered(obj)])
    case AddCount(p) =>
      var obj := q.pcs[p].obj;
      q.(mem := FetchAddCount(q.mem),
         pcs := q.pcs[p := if q.mem.count >= q.mem.max then Refusing(obj) else Admitted(obj)])
    case SubCount(p) =>
      q.(mem := FetchSubCount(q.mem), pcs := q.pcs[p := Refused(q.pcs[p].obj)])
    case AddHead(p) =>
      var obj := q.pcs[p].obj;
      q.(mem := FetchAddHead(q.mem),
         pcs := q.pcs[p := Ticketed(obj, q.mem.head, |q.order|)],
         order := q.order + [obj],
         holder := q.holder[|q.order| := p])
    case CheckSlot(p) =>
      var pc := q.pcs[p];
      q.(pcs := q.pcs[p := Checked(pc.obj, pc.head, pc.ticket)])
    case Publish(p) =>
      var pc := q.pcs[p];
      q.(mem := Store(q.mem, pc.head, pc.obj),
         pcs := q.pcs[p := Published(pc.obj, pc.ticket)],
         holder := q.holder - {pc.ticket})
    case Return(p) =>
      q.(pcs := q.pcs - {p})
    case Poll =>
      (match q.mem.buffer[q.mem.tail]
       case None => q
       case Some(item) => q.(mem := Clear(q.mem), consumer := Took(item), taken := q.taken + 1))
    case Release =>
      q.(mem := FetchSubCount(AdvanceTail(q.mem)), consumer := Polling)
  }

  function Initial<T>(capacity: nat): Queue<T> {
    Queue(Memory(capacity, 0, 0, 0, seq(capacity, _ => None)), map[], Polling, [], 0, map[])
  }

  // ---- the invariant

  predicate IsAdmitted<T>(pc: EnqueuePc<T>) {
    pc.Admitted?
  }

  predicate IsRefusing<T>(pc: EnqueuePc<T>) {
    pc.Refusing?
  }

  ghost predicate Counters<T>(q: Queue<T>) {
    && WellFormed(q.mem) && IsPow2(q.mem.max) && q.mem.max < WORD
    && 0 <= q.Released() && q.taken <= |q.order|
    && q.mem.head == |q.order| % WORD
    && q.mem.tail == Slot(q.Released(), q.mem.max)
    && Balance(q.mem.count, q.mem.max, |q.order| - q.Released(), Count(q.pcs, IsAdmitted), Count(q.pcs, IsRefusing),
               |q.pcs|)
  }

  /** The count word is exact: live tickets, plus producers past their increment; only the refused overshoot the
      ring. */
  predicate Balance(count: nat, max: nat, live: int, admitted: nat, refusing: nat, threads: nat) {
    && count == live + admitted + refusing
    && live + admitted <= max
    && threads + max < WORD
  }

  /** A ticketed producer holds one issued, untaken ticket of its own. */
  ghost predicate Tickets<T>(q: Queue<T>) {
    && (forall p :: p in q.pcs && q.pcs[p].InFlight() ==>
          && q.pcs[p].ticket in q.holder && q.holder[q.pcs[p].ticket] == p
          && q.pcs[p].ticket < |q.order| && q.pcs[p].obj == q.order[q.pcs[p].ticket]
          && q.pcs[p].head == q.pcs[p].ticket % WORD)
    && (forall t :: t in q.holder ==>
          && q.taken <= t < |q.order|
          && q.holder[t] in q.pcs && q.pcs[q.holder[t]].InFlight() && q.pcs[q.holder[t]].ticket == t)
    && (forall p :: p in q.pcs && q.pcs[p].Published? ==>
          q.pcs[p].ticket < |q.order| && q.pcs[p].obj == q.order[q.pcs[p].ticket])
  }

  /** Published, untaken tickets fill their slots; the slots of every other position of the lap are empty. */
  ghost predicate Slots<T>(q: Queue<T>)
    requires WellFormed(q.mem) && 0 <= q.Released()
  {
    && (forall t {:trigger Slot(t, q.mem.max)} :: q.Released() <= t < q.Released() + q.mem.max ==>
          q.mem.buffer[Slot(t, q.mem.max)] ==
          if q.taken <= t < |q.order| && t !in q.holder then Some(q.order[t]) else None)
    && (q.consumer.Took? ==> q.Released() < |q.order| && q.consumer.item == q.order[q.Released()])
  }

  ghost predicate Inv<T>(q: Queue<T>) {
    Counters(q) && Tickets(q) && Slots(q)
  }

  // ---- arithmetic of slots

  lemma {:induction false} SlotIsModulo(t: nat, max: nat)
    requires 0 < max
    ensures Slot(t, max) == t % max
    decreases t
  {
    if t >= max {
      SlotIsModulo(t - max, max);
      assert t == ((t - max) / max + 1) * max + (t - max) % max;
      ModuloUnique(t, max, (t - max) / max + 1, (t - max) % max);
    } else {
      ModuloUnique(t, max, 0, t);
    }
  }

  lemma {:induction false} SlotsDiffer(a: nat, b: nat, max: nat)
    requires 0 < max && a < b < a + max
    ensures Slot(a, max) != Slot(b, max)
    decreases a
  {
    assert Slot(a, max) == Residue(a, max) && Slot(b, max) == Residue(b, max);
    if a >= max {
      var c, d := a - max, b - max;
      SlotsDiffer(c, d, max);
      assert Slot(c, max) == Residue(c, max) && Slot(d, max) == Residue(d, max);
    } else if b >= max {
      assert Residue(b, max) == Residue(b - max, max) == b - max;
    }
  }

  lemma NextSlot(t: nat, max: nat)
    requires 0 < max
    ensures Slot(t + 1, max) == if Slot(t, max) + 1 >= max then 0 else Slot(t, max) + 1
  {
    NextResidue(t, max);
  }

  lemma {:induction false} NextResidue(t: nat, max: nat)
    requires 0 < max
    ensures Residue(t + 1, max) == if Residue(t, max) + 1 >= max then 0 else Residue(t, max) + 1
    decreases t
  {
    if t >= max {
      NextResidue(t - max, max);
    }
  }

  lemma LapSlot(t: nat, max: nat)
    requires 0 < max
    ensures Slot(t + max, max) == Slot(t, max)
  {
    assert Residue(t + max, max) == Residue(t, max);
  }

  /** Wrapping the ticket counter at 2^64 does not move its slot: the capacity is a power of two. */
  lemma WrappedSlot(t: nat, max: nat)
    requires IsPow2(max) && max <= WORD
    ensures Slot(t % WORD, max) == Slot(t, max)
  {
    SlotIsModulo(t % WORD, max);
    SlotIsModulo(t, max);
    WrapKeepsSlot(t, max);
  }

  // ---- every step keeps the invariant

  lemma InitialInv<T>(capacity: nat)
    requires CapacityAccepted(capacity)
    ensures Inv(Initial<T>(capacity))
  {
    PowerOfTwoTest(capacity);
    var q := Initial<T>(capacity);
    CountZero(q.pcs, IsAdmitted);
    CountZero(q.pcs, IsRefusing);
  }

  /** One producer moves to another program counter. */
  lemma MovePc<T>(q: Queue<T>, p: Pid, pc: EnqueuePc<T>)
    requires p in q.pcs
    ensures |q.pcs[p := pc]| == |q.pcs|
    ensures Count(q.pcs[p := pc], IsAdmitted) == Count(q.pcs, IsAdmitted) - One(q.pcs[p].Admitted?) + One(pc.Admitted?)
    ensures Count(q.pcs[p := pc], IsRefusing) == Count(q.pcs, IsRefusing) - One(q.pcs[p].Refusing?) + One(pc.Refusing?)
    ensures Count(q.pcs, IsRefusing) <= |q.pcs| - One(!q.pcs[p].Refusing?)
    ensures q.pcs[p].Admitted? ==> Count(q.pcs, IsAdmitted) > 0
    ensures q.pcs[p].Refusing? ==> Count(q.pcs, IsRefusing) > 0
  {
    CountUpdate(q.pcs, p, pc, IsAdmitted);
    CountUpdate(q.pcs, p, pc, IsRefusing);
    CountBound(q.pcs, IsAdmitted, p);
    CountBound(q.pcs, IsRefusing, p);
    assert q.pcs[p := pc].Keys == q.pcs.Keys;
  }

  lemma AddNoWrap(count: nat)
    requires count + 1 < WORD
    ensures AddWord(count, 1) == count + 1
  {
  }

  lemma SubNoWrap(count: nat)
    requires 0 < count < WORD
    ensures SubWord(count, 1) == count - 1
  {
  }

  /** Steps that touch no slot and no ticket. */
  lemma SlotsKept<T>(q: Queue<T>, q': Queue<T>)
    requires Counters(q) && Slots(q)
    requires q'.order == q.order && q'.holder == q.holder && q'.taken == q.taken && q'.consumer == q.consumer
    requires q'.mem.buffer == q.mem.buffer && q'.mem.max == q.mem.max && q'.mem.tail == q.mem.tail
    ensures Slots(q')
  {
  }

  /** Steps that neither issue nor publish a ticket. */
  lemma TicketsKept<T>(q: Queue<T>, q': Queue<T>)
    requires Tickets(q)
    requires q'.order == q.order && q'.holder == q.holder && q'.taken == q.taken
    requires forall p :: p in q.pcs && q.pcs[p].InFlight() ==>
               p in q'.pcs && q'.pcs[p].InFlight() && q'.pcs[p].ticket == q.pcs[p].ticket
    requires forall p :: p in q'.pcs && q'.pcs[p].InFlight() ==>
               && p in q.pcs && q.pcs[p].InFlight() && q'.pcs[p].ticket == q.pcs[p].ticket
               && q'.pcs[p].obj == q.pcs[p].obj && q'.pcs[p].head == q.pcs[p].head
    requires forall p :: p in q'.pcs && q'.pcs[p].Published? ==> p in q.pcs && q.pcs[p] == q'.pcs[p]
    ensures Tickets(q')
  {
  }

  /** A producer that holds nothing comes or goes. */
  lemma ComeAndGo<T>(pcs: map<Pid, EnqueuePc<T>>, p: Pid, obj: T)
    ensures p !in pcs ==> |pcs[p := Entered(obj)]| == |pcs| + 1
    ensures p !in pcs ==> Count(pcs[p := Entered(obj)], IsAdmitted) == Count(pcs, IsAdmitted)
    ensures p !in pcs ==> Count(pcs[p := Entered(obj)], IsRefusing) == Count(pcs, IsRefusing)
    ensures p in pcs ==> |pcs - {p}| == |pcs| - 1
    ensures p in pcs && !pcs[p].Admitted? ==> Count(pcs - {p}, IsAdmitted) == Count(pcs, IsAdmitted)
    ensures p in pcs && !pcs[p].Refusing? ==> Count(pcs - {p}, IsRefusing) == Count(pcs, IsRefusing)
  {
    CountUpdate(pcs, p, Entered(obj), IsAdmitted);
    CountUpdate(pcs, p, Entered(obj), IsRefusing);
    CountRemove(pcs, p, IsAdmitted);
    CountRemove(pcs, p, IsRefusing);
    assert (pcs - {p}).Keys == pcs.Keys - {p};
  }

  lemma EnterKeepsCounters<T>(q: Queue<T>, p: Pid, obj: T, q': Queue<T>)
    requires Counters(q) && Enabled(q, Enter(p, obj)) && q' == Apply(q, Enter(p, obj))
    ensures Counters(q')
  {
    ComeAndGo(q.pcs, p, obj);
  }

  lemma EnterKeepsInv<T>(q: Queue<T>, p: Pid, obj: T, q': Queue<T>)
    requires Inv(q) && Enabled(q, Enter(p, obj)) && q' == Apply(q, Enter(p, obj))
    ensures Inv(q')
  {
    EnterKeepsCounters(q, p, obj, q');
    SlotsKept(q, q');
    TicketsKept(q, q');
  }

  lemma AddCountKeepsTickets<T>(q: Queue<T>, p: Pid, q': Queue<T>)
    requires Inv(q) && Enabled(q, AddCount(p)) && q' == Apply(q, AddCount(p))
    ensures Tickets(q')
  {
    TicketsKept(q, q');
  }

  lemma AddCountKeepsInv<T>(q: Queue<T>, p: Pid, q': Queue<T>)
    requires Inv(q) && Enabled(q, AddCount(p)) && q' == Apply(q, AddCount(p))
    ensures Inv(q')
  {
    MovePc(q, p, q'.pcs[p]);
    AddNoWrap(q.mem.count);
    AddCountKeepsTickets(q, p, q');
    SlotsKept(q, q');
  }

  lemma SubCountKeepsTickets<T>(q: Queue<T>, p: Pid, q': Queue<T>)
    requires Inv(q) && Enabled(q, SubCount(p)) && q' == Apply(q, SubCount(p))
    ensures Tickets(q')
  {
    TicketsKept(q, q');
  }

  lemma SubCountKeepsInv<T>(q: Queue<T>, p: Pid, q': Queue<T>)
    requires Inv(q) && Enabled(q, SubCount(p)) && q' == Apply(q, SubCount(p))
    ensures Inv(q')
  {
    MovePc(q, p, q'.pcs[p]);
    SubNoWrap(q.mem.count);
    SlotsKept(q, q');
    SubCountKeepsTickets(q, p, q');
  }

  lemma CheckSlotKeepsTickets<T>(q: Queue<T>, p: Pid, q': Queue<T>)
    requires Inv(q) && Enabled(q, CheckSlot(p)) && q' == Apply(q, CheckSlot(p))
    ensures Tickets(q')
  {
    TicketsKept(q, q');
  }

  lemma CheckSlotKeepsInv<T>(q: Queue<T>, p: Pid, q': Queue<T>)
    requires Inv(q) && Enabled(q, CheckSlot(p)) && q' == Apply(q, CheckSlot(p))
    ensures Inv(q')
  {
    MovePc(q, p, q'.pcs[p]);
    SlotsKept(q, q');
    CheckSlotKeepsTickets(q, p, q');
  }

  lemma ReturnKeepsTickets<T>(q: Queue<T>, p: Pid, q': Queue<T>)
    requires Inv(q) && Enabled(q, Return(p)) && q' == Apply(q, Return(p))
    ensures Tickets(q')
  {
    TicketsKept(q, q');
  }

  lemma ReturnKeepsCounters<T>(q: Queue<T>, p: Pid, q': Queue<T>)
    requires Inv(q) && Enabled(q, Return(p)) && q' == Apply(q, Return(p))
    ensures Counters(q')
  {
    ComeAndGo(q.pcs, p, q.pcs[p].obj);
  }

  lemma ReturnKeepsInv<T>(q: Queue<T>, p: Pid, q': Queue<T>)
    requires Inv(q) && Enabled(q, Return(p)) && q' == Apply(q, Return(p))
    ensures Inv(q')
  {
    ReturnKeepsCounters(q, p, q');
    ReturnKeepsTickets(q, p, q');
    SlotsKept(q, q');
  }

  lemma AddHeadKeepsTickets<T>(q: Queue<T>, p: Pid, q': Queue<T>)
    requires Inv(q) && Enabled(q, AddHead(p)) && q' == Apply(q, AddHead(p))
    ensures Tickets(q')
  {
  }

  lemma AddHeadKeepsSlots<T>(q: Queue<T>, p: Pid, q': Queue<T>)
    requires Inv(q) && Enabled(q, AddHead(p)) && q' == Apply(q, AddHead(p))
    ensures Slots(q')
  {
  }

  lemma NextHead(n: nat)
    ensures AddWord(n % WORD, 1) == (n + 1) % WORD
  {
  }

  lemma AddHeadKeepsInv<T>(q: Queue<T>, p: Pid, q': Queue<T>)
    requires Inv(q) && Enabled(q, AddHead(p)) && q' == Apply(q, AddHead(p))
    ensures Inv(q')
  {
    MovePc(q, p, q'.pcs[p]);
    AddHeadKeepsTickets(q, p, q');
    AddHeadKeepsSlots(q, p, q');
    NextHead(|q.order|);
  }

  lemma PublishKeepsTickets<T>(q: Queue<T>, p: Pid, q': Queue<T>)
    requires Inv(q) && Enabled(q, Publish(p)) && q' == Apply(q, Publish(p))
    ensures Tickets(q')
  {
  }

  /** In one lap only the ticket itself has its slot. */
  lemma LapDiffers(from: nat, own: nat, max: nat)
    requires 0 < max && from <= own < from + max
    ensures forall t: nat {:trigger Slot(t, max)} :: from <= t < from + max && t != own ==>
            Slot(t, max) != Slot(own, max)
  {
    forall t: nat | from <= t < from + max && t != own
      ensures Slot(t, max) != Slot(own, max)
    {
      SlotsDiffer(if t < own then t else own, if t < own then own else t, max);
    }
  }

  lemma PublishKeepsSlots<T>(q: Queue<T>, p: Pid, q': Queue<T>)
    requires Inv(q) && Enabled(q, Publish(p)) && q' == Apply(q, Publish(p))
    ensures Slots(q')
  {
    var own, max := q.pcs[p].ticket, q.mem.max;
    WrappedSlot(own, max);
    LapDiffers(q.Released(), own, max);
  }

  lemma PublishKeepsCounters<T>(q: Queue<T>, p: Pid, q': Queue<T>)
    requires Inv(q) && Enabled(q, Publish(p)) && q' == Apply(q, Publish(p))
    ensures Counters(q')
  {
    MovePc(q, p, q'.pcs[p]);
    assert q'.order == q.order && q'.Released() == q.Released() && q'.mem == q.mem.(buffer := q'.mem.buffer);
  }

  lemma PublishKeepsInv<T>(q: Queue<T>, p: Pid, q': Queue<T>)
    requires Inv(q) && Enabled(q, Publish(p)) && q' == Apply(q, Publish(p))
    ensures Inv(q')
  {
    PublishKeepsCounters(q, p, q');
    PublishKeepsTickets(q, p, q');
    PublishKeepsSlots(q, p, q');
  }

  /** The consumer gets the object of the oldest untaken ticket, or nothing. */
  lemma PollTakesOldest<T>(q: Queue<T>)
    requires Inv(q) && Enabled(q, Poll)
    ensures q.mem.buffer[q.mem.tail] ==
            if q.taken < |q.order| && q.taken !in q.holder then Some(q.order[q.taken]) else None
  {
    assert q.mem.tail == Slot(q.taken, q.mem.max);
  }

  lemma PollKeepsSlots<T>(q: Queue<T>, q': Queue<T>)
    requires Inv(q) && Enabled(q, Poll) && q' == Apply(q, Poll)
    ensures Slots(q')
  {
    PollTakesOldest(q);
    LapDiffers(q.taken, q.taken, q.mem.max);
  }

  lemma PollKeepsTickets<T>(q: Queue<T>, q': Queue<T>)
    requires Inv(q) && Enabled(q, Poll) && q' == Apply(q, Poll)
    ensures Tickets(q')
  {
    PollTakesOldest(q);
  }

  lemma PollKeepsInv<T>(q: Queue<T>, q': Queue<T>)
    requires Inv(q) && Enabled(q, Poll) && q' == Apply(q, Poll)
    ensures Inv(q')
  {
    PollTakesOldest(q);
    PollKeepsTickets(q, q');
    PollKeepsSlots(q, q');
  }

  lemma ReleaseKeepsSlots<T>(q: Queue<T>, q': Queue<T>)
    requires Inv(q) && Enabled(q, Release) && q' == Apply(q, Release)
    ensures Slots(q')
  {
    LapSlot(q.Released(), q.mem.max);
    assert q'.Released() == q.Released() + 1;
  }

  lemma ReleaseKeepsCounters<T>(q: Queue<T>, q': Queue<T>)
    requires Inv(q) && Enabled(q, Release) && q' == Apply(q, Release)
    ensures Counters(q')
  {
    CountBound(q.pcs, IsRefusing, 0);
    SubNoWrap(q.mem.count);
    NextSlot(q.Released(), q.mem.max);
  }

  lemma ReleaseKeepsInv<T>(q: Queue<T>, q': Queue<T>)
    requires Inv(q) && Enabled(q, Release) && q' == Apply(q, Release)
    ensures Inv(q')
  {
    ReleaseKeepsCounters(q, q');
    ReleaseKeepsSlots(q, q');
    TicketsKept(q, q');
  }

  lemma StepKeepsInv<T>(q: Queue<T>, a: Action<T>)
    requires Inv(q) && Enabled(q, a)
    ensures Inv(Apply(q, a))
  {
    var q' := Apply(q, a);
    match a
    case Enter(p, obj) => EnterKeepsInv(q, p, obj, q');
    case AddCount(p) => AddCountKeepsInv(q, p, q');
    case SubCount(p) => SubCountKeepsInv(q, p, q');
    case AddHead(p) => AddHeadKeepsInv(q, p, q');
    case CheckSlot(p) => CheckSlotKeepsInv(q, p, q');
    case Publish(p) => PublishKeepsInv(q, p, q');
    case Return(p) => ReturnKeepsInv(q, p, q');
    case Poll => PollKeepsInv(q, q');
    case Release => ReleaseKeepsInv(q, q');
  }

  // ---- what the queue promises

  /** What each operation's C assert demands at that operation. */
  ghost predicate AssertHolds<T>(q: Queue<T>, a: Action<T>)
    requires WellFormed(q.mem) && Enabled(q, a)
  {
    match a
    case CheckSlot(p) => q.mem.buffer[q.pcs[p].head % q.mem.max] == None
    case Publish(p) => q.mem.buffer[q.pcs[p].head % q.mem.max] == None
    case Release => q.mem.count > 0
    case _ => true
  }

  lemma OwnSlotEmpty<T>(q: Queue<T>, p: Pid)
    requires Inv(q) && p in q.pcs && q.pcs[p].InFlight()
    ensures Slot(q.pcs[p].head, q.mem.max) == Slot(q.pcs[p].ticket, q.mem.max) == q.pcs[p].head % q.mem.max
    ensures q.mem.buffer[Slot(q.pcs[p].ticket, q.mem.max)] == None
  {
    WrappedSlot(q.pcs[p].ticket, q.mem.max);
    SlotIsModulo(q.pcs[p].head, q.mem.max);
  }

  lemma AssertsHold<T>(q: Queue<T>, a: Action<T>)
    requires Inv(q) && Enabled(q, a)
    ensures AssertHolds(q, a)
  {
    if a.CheckSlot? || a.Publish? {
      OwnSlotEmpty(q, a.p);
    }
  }

  /** Two producers past the ticket counter never write the same slot, though `head` wraps at 2^64. */
  lemma SlotsExclusive<T>(q: Queue<T>, p: Pid, r: Pid)
    requires Inv(q) && p in q.pcs && r in q.pcs && p != r && q.pcs[p].InFlight() && q.pcs[r].InFlight()
    ensures q.pcs[p].head % q.mem.max != q.pcs[r].head % q.mem.max
  {
    OwnSlotEmpty(q, p);
    OwnSlotEmpty(q, r);
    var a, b := q.pcs[p].ticket, q.pcs[r].ticket;
    SlotsDiffer(if a < b then a else b, if a < b then b else a, q.mem.max);
  }

  ghost predicate Step<T>(q: Queue<T>, a: Action<T>, q': Queue<T>) {
    WellFormed(q.mem) && Enabled(q, a) && q' == Apply(q, a)
  }

  ghost predicate IsRun<T>(run: seq<Queue<T>>, acts: seq<Action<T>>) {
    && |run| == |acts| + 1
    && (exists capacity :: CapacityAccepted(capacity) && run[0] == Initial(capacity))
    && forall i :: 0 <= i < |acts| ==> StepAt(run, acts, i)
  }

  ghost predicate StepAt<T>(run: seq<Queue<T>>, acts: seq<Action<T>>, i: nat)
    requires i < |acts| && |run| == |acts| + 1
  {
    Step(run[i], acts[i], run[i + 1])
  }

  lemma StepOfRun<T>(run: seq<Queue<T>>, acts: seq<Action<T>>, k: nat, i: nat)
    requires IsRun(run, acts) && i == k + 1 < |run|
    ensures Step(run[k], acts[k], run[i])
  {
    assert StepAt(run, acts, k);
  }

  lemma {:induction false} RunKeepsInv<T>(run: seq<Queue<T>>, acts: seq<Action<T>>, i: nat)
    requires IsRun(run, acts) && i < |run|
    ensures Inv(run[i])
  {
    if i == 0 {
      var capacity :| CapacityAccepted(capacity) && run[0] == Initial(capacity);
      InitialInv<T>(capacity);
    } else {
      var k := i - 1;
      RunKeepsInv(run, acts, k);
      StepOfRun(run, acts, k, i);
      StepKeepsInv(run[k], acts[k]);
    }
  }

  /** The objects the consumer took during the first n steps of a run. */
  ghost function Dequeued<T>(run: seq<Queue<T>>, acts: seq<Action<T>>, n: nat): seq<T>
    requires IsRun(run, acts) && n <= |acts|
  {
    if n == 0 then []
    else if acts[n - 1].Poll? && run[n].consumer.Took? then Dequeued(run, acts, n - 1) + [run[n].consumer.item]
    else Dequeued(run, acts, n - 1)
  }

  lemma StepOutput<T>(q: Queue<T>, a: Action<T>, q': Queue<T>)
    requires Inv(q) && Step(q, a, q')
    ensures q.order <= q'.order && q'.taken <= |q'.order|
    ensures if a.Poll? && q'.consumer.Took? then
              q.taken < |q.order| && q'.taken == q.taken + 1 && q'.consumer.item == q.order[q.taken]
            else
              q'.taken == q.taken
  {
    if a.Poll? {
      PollTakesOldest(q);
    }
  }

  lemma RunStepOutput<T>(run: seq<Queue<T>>, acts: seq<Action<T>>, k: nat, i: nat)
    requires IsRun(run, acts) && i == k + 1 < |run|
    ensures run[k].order <= run[i].order && run[i].taken <= |run[i].order|
    ensures if acts[k].Poll? && run[i].consumer.Took? then
              run[k].taken < |run[k].order| && run[i].taken == run[k].taken + 1
                && run[i].consumer.item == run[k].order[run[k].taken]
            else
              run[i].taken == run[k].taken
  {
    RunKeepsInv(run, acts, k);
    StepOfRun(run, acts, k, i);
    StepOutput(run[k], acts[k], run[i]);
  }

  /** Every run dequeues exactly the oldest issued tickets' objects, each once, in ticket order. */
  lemma {:induction false} DequeuesInTicketOrder<T>(run: seq<Queue<T>>, acts: seq<Action<T>>, n: nat)
    requires IsRun(run, acts) && n <= |acts|
    ensures run[n].taken <= |run[n].order|
    ensures Dequeued(run, acts, n) == run[n].order[..run[n].taken]
  {
    if n > 0 {
      var k := n - 1;
      DequeuesInTicketOrder(run, acts, k);
      RunStepOutput(run, acts, k, n);
    }
  }

  lemma StepTickets<T>(q: Queue<T>, a: Action<T>, q': Queue<T>, p: Pid, bound: nat)
    requires Step(q, a, q') && bound <= |q.order|
    requires p in q.pcs && q.pcs[p].HasTicket() ==> q.pcs[p].ticket >= bound
    ensures |q.order| <= |q'.order|
    ensures p in q'.pcs && q'.pcs[p].HasTicket() ==> q'.pcs[p].ticket >= bound
  {
  }

  /** An enqueue begun after state i gets a later ticket than every enqueue already ticketed in state i,
      in particular than every enqueue that had returned. */
  lemma {:induction false} LaterEnqueueLaterTicket<T>(run: seq<Queue<T>>, acts: seq<Action<T>>, i: nat, j: nat, p: Pid)
    requires IsRun(run, acts) && i <= j < |run| && p !in run[i].pcs
    ensures |run[i].order| <= |run[j].order|
    ensures p in run[j].pcs && run[j].pcs[p].HasTicket() ==> run[j].pcs[p].ticket >= |run[i].order|
    decreases j
  {
    if i < j {
      var k := j - 1;
      LaterEnqueueLaterTicket(run, acts, i, k, p);
      StepOfRun(run, acts, k, j);
      StepTickets(run[k], acts[k], run[j], p, |run[i].order|);
    }
  }

  lemma {:induction false} IssuedGrow<T>(run: seq<Queue<T>>, acts: seq<Action<T>>, i: nat, j: nat)
    requires IsRun(run, acts) && i <= j < |run|
    ensures run[i].order <= run[j].order
    decreases j
  {
    if i < j {
      var k := j - 1;
      IssuedGrow(run, acts, i, k);
      RunStepOutput(run, acts, k, j);
    }
  }

  lemma TicketObject<T>(run: seq<Queue<T>>, acts: seq<Action<T>>, i: nat, p: Pid)
    requires IsRun(run, acts) && i < |run| && p in run[i].pcs && run[i].pcs[p].HasTicket()
    ensures run[i].pcs[p].ticket < |run[i].order| && run[i].order[run[i].pcs[p].ticket] == run[i].pcs[p].obj
  {
    RunKeepsInv(run, acts, i);
  }

  /** Order across calls. One enqueue is published in state i, where r has not begun the other. Whatever the consumer
      has taken after n steps, the later object is among it only behind the earlier one, each at its own ticket's
      place. */
  lemma EarlierCallFirst<T>(run: seq<Queue<T>>, acts: seq<Action<T>>, i: nat, p: Pid, j: nat, r: Pid, n: nat)
    requires IsRun(run, acts) && i <= j <= n <= |acts|
    requires p in run[i].pcs && run[i].pcs[p].Published? && r !in run[i].pcs
    requires r in run[j].pcs && run[j].pcs[r].HasTicket()
    ensures var first, second, out := run[i].pcs[p].ticket, run[j].pcs[r].ticket, Dequeued(run, acts, n);
            && first < second
            && (first < |out| ==> out[first] == run[i].pcs[p].obj)
            && (second < |out| ==> out[second] == run[j].pcs[r].obj)
  {
    TicketObject(run, acts, i, p);
    TicketObject(run, acts, j, r);
    LaterEnqueueLaterTicket(run, acts, i, j, r);
    IssuedGrow(run, acts, i, n);
    IssuedGrow(run, acts, j, n);
    DequeuesInTicketOrder(run, acts, n);
  }

  /** With no producer between its ticket and its publication, an empty answer means an empty queue. */
  lemma EmptyAnswerIsEmpty<T>(q: Queue<T>)
    requires Inv(q) && Enabled(q, Poll)
    requires forall p :: p in q.pcs ==> !q.pcs[p].InFlight()
    ensures Apply(q, Poll).consumer.Polling? <==> q.taken == |q.order|
  {
    PollTakesOldest(q);
  }

  // ---- when an enqueue is refused

  /** Slots in use or promised: issued and not yet released, or counted and about to be ticketed. */
  function Claimed<T>(q: Queue<T>): int {
    |q.order| - q.Released() + Count(q.pcs, IsAdmitted)
  }

  /** An enqueue is refused if and only if the claimed slots and the other calls being refused together reach the
      capacity. */
  lemma RefusedExactly<T>(q: Queue<T>, p: Pid)
    requires Inv(q) && Enabled(q, AddCount(p))
    ensures Apply(q, AddCount(p)).pcs[p].Refusing? <==> Claimed(q) + Count(q.pcs, IsRefusing) >= q.mem.max
    ensures (forall r :: r in q.pcs ==> !q.pcs[r].Refusing?) ==>
              (Apply(q, AddCount(p)).pcs[p].Refusing? <==> Claimed(q) == q.mem.max)
  {
    CountZero(q.pcs, IsRefusing);
  }

  /** Capacity two: threads 1 and 2 fill the ring, 3 is refused, the consumer frees a slot, and 4 comes before 3 has
      undone its increment. */
  function Crowding(k: nat): Action<nat> {
    if k == 0 then Enter(1, 10)
    else if k == 1 then AddCount(1)
    else if k == 2 then AddHead(1)
    else if k == 3 then CheckSlot(1)
    else if k == 4 then Publish(1)
    else if k == 5 then Enter(2, 20)
    else if k == 6 then AddCount(2)
    else if k == 7 then Enter(3, 30)
    else if k == 8 then AddCount(3)
    else if k == 9 then Poll
    else if k == 10 then Release
    else Enter(4, 40)
  }

  function Crowd(k: nat): Queue<nat> {
    var q := Initial<nat>(2);
    var one := Queue(Memory(2, 1, 1, 0, [None, None]), map[1 := Checked(10, 0, 0)], Polling, [10], 0, map[0 := 1]);
    if k == 0 then q
    else if k == 1 then q.(pcs := map[1 := Entered(10)])
    else if k == 2 then q.(pcs := map[1 := Admitted(10)], mem := q.mem.(count := 1))
    else if k == 3 then one.(pcs := map[1 := Ticketed(10, 0, 0)])
    else if k == 4 then one
    else Crowded(k, one.(mem := one.mem.(buffer := [Some(10), None]), holder := map[]))
  }

  function Crowded(k: nat, full: Queue<nat>): Queue<nat> {
    var first := map[1 := Published(10, 0)];
    var second := first[2 := Admitted(20)];
    var third := second[3 := Refusing(30)];
    var three := full.(mem := full.mem.(count := 3), pcs := third);
    if k == 5 then full.(pcs := first)
    else if k == 6 then full.(pcs := first[2 := Entered(20)])
    else if k == 7 then full.(mem := full.mem.(count := 2), pcs := second)
    else if k == 8 then full.(mem := full.mem.(count := 2), pcs := second[3 := Entered(30)])
    else if k == 9 then three
    else if k == 10 then three.(mem := three.mem.(buffer := [None, None]), consumer := Took(10), taken := 1)
    else
      var freed := three.(mem := Memory(2, 2, 1, 1, [None, None]), consumer := Polling, taken := 1);
      if k == 11 then freed else freed.(pcs := third[4 := Entered(40)])
  }

  lemma FirstEnters(k: nat)
    requires k < 3
    ensures Step(Crowd(k), Crowding(k), Crowd(k + 1))
  {
    assert Crowd(0).mem.buffer == [None, None];
  }

  lemma FirstPublishes(k: nat)
    requires k == 4
    ensures Step(Crowd(k), Crowding(k), Crowd(k + 1))
  {
    assert Residue(0, 2) == 0;
  }

  lemma OthersEnter(k: nat)
    requires k == 3 || 5 <= k < 9
    ensures Step(Crowd(k), Crowding(k), Crowd(k + 1))
  {
  }

  lemma SlotFreed(k: nat)
    requires 9 <= k < 12
    ensures Step(Crowd(k), Crowding(k), Crowd(k + 1))
  {
  }

  /** A refusal does not mean a full ring: a reachable state in which a slot is free and the next enqueue is refused. */
  lemma RefusedWithFreeSlot()
    ensures exists run: seq<Queue<nat>>, acts :: IsRun(run, acts) && Crowds(run[|acts|], 4)
  {
    var run, acts := seq(13, k requires 0 <= k < 13 => Crowd(k)), seq(12, k requires 0 <= k < 12 => Crowding(k));
    forall k | 0 <= k < 12
      ensures StepAt(run, acts, k)
    {
      if k < 3 {
        FirstEnters(k);
      } else if k == 4 {
        FirstPublishes(k);
      } else if k < 9 {
        OthersEnter(k);
      } else {
        SlotFreed(k);
      }
    }
    PowerOfTwoTest(2);
    assert CapacityAccepted(2) && run[0] == Initial(2);
    assert Having(run[12].pcs, IsAdmitted) == {2};
    assert IsRun(run, acts) && Crowds(run[|acts|], 4);
  }

  ghost predicate Crowds<T>(q: Queue<T>, p: Pid) {
    WellFormed(q.mem) && Enabled(q, AddCount(p)) && Claimed(q) < q.mem.max && Apply(q, AddCount(p)).pcs[p].Refusing?
  }
}

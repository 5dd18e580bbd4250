/** Ownership of the one-shot wakers that Haskell offers to C. */
module Waker {
  import opened Messages

  type Address = nat  // a StablePtr; the runtime may hand the value out again once it has been consumed

  /** A Haskell thread in awaitOneShot. */
  datatype Client =
    | Offering(offer: nat, addr: Address)       // about to register
    | Blocked(offer: nat, addr: Address)        // in takeMVar
    | Unregistering(offer: nat, addr: Address)  // interrupted
    | Freeing(offer: nat, addr: Address)        // owns the pointer again
  {
    predicate Owns() {
      Offering? || Freeing?
    }

    predicate Waits() {
      Blocked? || Unregistering?
    }
  }

  /** Who is responsible for a live pointer: the thread that made it, the stored waiter that a thread registered, or
      the C thread that detached it. */
  datatype Place = WithThread(p: Pid) | Stored(p: Pid) | Detached(c: Pid)

  datatype Token = Token(offer: nat, place: Place)

  /** `cell` is what one stream direction, or a header block, stores. `exclusive`: a lock admits one client at a time
      (streams). `latching`: once a waiter has been detached no other is accepted (header blocks, whose ready flag
      stays set). `live` has every unconsumed pointer, `home` the pointer of every unconsumed offer; `fired` and
      `freed` count what C and Haskell did to each offer; consuming a dead pointer, or one that is not the consumer's
      own, is a `fault`. */
  datatype State = State(
    exclusive: bool,
    latching: bool,
    clients: map<Pid, Client>,
    cell: Option<Address>,
    latched: bool,
    inFlight: map<Pid, Address>,
    live: map<Address, Token>,
    home: map<nat, Address>,
    next: nat,
    fired: multiset<nat>,
    freed: multiset<nat>,
    fault: bool)

  datatype Action =
    | Create(p: Pid, addr: Address)
    | Register(p: Pid, willing: bool)
    | Interrupt(p: Pid)
    | Awake(p: Pid)
    | Unregister(p: Pid)
    | Free(p: Pid)
    | Detach(c: Pid)
    | Fire(c: Pid)

  predicate Enabled(s: State, a: Action) {
    match a
    case Create(p, addr) => p !in s.clients && addr !in s.live && (s.exclusive ==> s.clients == map[])
    case Register(p, _) => p in s.clients && s.clients[p].Offering?
    case Interrupt(p) => p in s.clients && s.clients[p].Blocked?
    case Awake(p) => p in s.clients && s.clients[p].Blocked? && s.clients[p].offer in s.fired
    case Unregister(p) => p in s.clients && s.clients[p].Unregistering?
    case Free(p) => p in s.clients && s.clients[p].Freeing?
    case Detach(c) => s.cell.Some? && c !in s.inFlight
    case Fire(c) => c in s.inFlight
  }

  function Placed(live: map<Address, Token>, addr: Address, place: Place): map<Address, Token> {
    if addr in live then live[addr := live[addr].(place := place)] else live
  }

  /** The pointer is consumed by its rightful owner. */
  predicate Rightful(live: map<Address, Token>, addr: Address, place: Place) {
    addr in live && live[addr].place == place
  }

  function Apply(s: State, a: Action): State
    requires Enabled(s, a)
  {
    match a
    case Create(p, addr) =>
      s.(clients := s.clients[p := Offering(s.next, addr)],
         live := s.live[addr := Token(s.next, WithThread(p))],
         home := s.home[s.next := addr],
         next := s.next + 1)
    case Register(p, willing) =>
      var me := s.clients[p];
      if willing && s.cell.None? && !s.latched then
        s.(cell := Some(me.addr),
           live := Placed(s.live, me.addr, Stored(p)),
           clients := s.clients[p := Blocked(me.offer, me.addr)])
      else
        s.(clients := s.clients[p := Freeing(me.offer, me.addr)])
    case Interrupt(p) =>
      s.(clients := s.clients[p := Unregistering(s.clients[p].offer, s.clients[p].addr)])
    case Awake(p) =>
      s.(clients := s.clients - {p})
    case Unregister(p) =>
      var me := s.clients[p];
      if s.cell == Some(me.addr) then
        s.(cell := None,
           live := Placed(s.live, me.addr, WithThread(p)),
           clients := s.clients[p := Freeing(me.offer, me.addr)])
      else
        s.(clients := s.clients - {p})
    case Free(p) =>
      var me := s.clients[p];
      var s' := s.(clients := s.clients - {p});
      if me.addr in s.live then
        s'.(live := s.live - {me.addr},
            home := s.home - {s.live[me.addr].offer},
            freed := s.freed + multiset{s.live[me.addr].offer},
            fault := s.fault || s.live[me.addr] != Token(me.offer, WithThread(p)))
      else
        s'.(fault := true)
    case Detach(c) =>
      s.(cell := None,
         live := Placed(s.live, s.cell.value, Detached(c)),
         inFlight := s.inFlight[c := s.cell.value],
         latched := s.latched || s.latching)
    case Fire(c) =>
      var addr := s.inFlight[c];
      var s' := s.(inFlight := s.inFlight - {c});
      if addr in s.live then
        s'.(live := s.live - {addr},
            home := s.home - {s.live[addr].offer},
            fired := s.fired + multiset{s.live[addr].offer},
            fault := s.fault || s.live[addr].place != Detached(c))
      else
        s'.(fault := true)
  }

  function Initial(exclusive: bool, latching: bool): State {
    State(exclusive, latching, map[], None, false, map[], map[], map[], 0, multiset{}, multiset{}, false)
  }

  // ---- the invariant

  /** An offer was consumed exactly once, or it has not been consumed and one live pointer is its own. */
  ghost predicate Counted(live: map<Address, Token>, home: map<nat, Address>, next: nat, fired: multiset<nat>,
                          freed: multiset<nat>) {
    && (forall addr :: addr in live ==> live[addr].offer in home && home[live[addr].offer] == addr)
    && (forall offer :: offer in home ==> home[offer] in live && live[home[offer]].offer == offer)
    && (forall offer: nat :: fired[offer] + freed[offer] == if offer < next && offer !in home then 1 else 0)
    && (forall offer :: offer in home ==> offer < next)
  }

  /** Each place that claims a pointer has it, and each live pointer is where its token says. */
  ghost predicate Linear(clients: map<Pid, Client>, cell: Option<Address>, inFlight: map<Pid, Address>,
                         live: map<Address, Token>) {
    && (forall p :: p in clients && clients[p].Owns() ==>
          clients[p].addr in live && live[clients[p].addr] == Token(clients[p].offer, WithThread(p)))
    && (forall c :: c in inFlight ==> Rightful(live, inFlight[c], Detached(c)))
    && (cell.Some? ==> cell.value in live && live[cell.value].place.Stored?)
    && (forall addr :: addr in live ==> InPlace(clients, cell, inFlight, addr, live[addr]))
  }

  predicate InPlace(clients: map<Pid, Client>, cell: Option<Address>, inFlight: map<Pid, Address>, addr: Address,
                    token: Token) {
    match token.place
    case WithThread(p) => p in clients && clients[p].Owns() && clients[p].addr == addr
    case Stored(p) =>
      p in clients && clients[p].Waits() && clients[p].addr == addr && clients[p].offer == token.offer
        && cell == Some(addr)
    case Detached(c) => c in inFlight && inFlight[c] == addr
  }

  /** A waiting thread's offer was fired, or its pointer is still live and with C. */
  ghost predicate Awaited(clients: map<Pid, Client>, live: map<Address, Token>, fired: multiset<nat>) {
    forall p :: p in clients && clients[p].Waits() ==> clients[p].offer in fired || WithC(live, clients[p])
  }

  predicate WithC(live: map<Address, Token>, me: Client) {
    me.addr in live && live[me.addr].offer == me.offer && !live[me.addr].place.WithThread?
  }

  /** Offers tell threads apart, and under the lock there is one thread. */
  ghost predicate Apart(exclusive: bool, clients: map<Pid, Client>, next: nat) {
    && (forall p :: p in clients ==> clients[p].offer < next)
    && (forall p, r :: p in clients && r in clients && p != r ==> clients[p].offer != clients[r].offer && !exclusive)
  }

  /** What rules out a second thread in the way of the first. */
  ghost predicate Guarded(s: State) {
    && (s.exclusive || s.latching)
    && Apart(s.exclusive, s.clients, s.next)
    && (s.latched ==> s.cell.None?)
    && (s.latching && !s.latched ==> s.inFlight == map[] && s.fired == multiset{})
  }

  ghost predicate Inv(s: State) {
    && !s.fault
    && Counted(s.live, s.home, s.next, s.fired, s.freed)
    && Linear(s.clients, s.cell, s.inFlight, s.live)
    && Awaited(s.clients, s.live, s.fired)
    && Guarded(s)
  }

  lemma StartInv(exclusive: bool, latching: bool)
    requires exclusive || latching
    ensures Inv(Initial(exclusive, latching))
  {
  }

  // ---- counting

  lemma CountedCreate(live: map<Address, Token>, home: map<nat, Address>, next: nat, fired: multiset<nat>,
                      freed: multiset<nat>,
                      addr: Address, place: Place)
    requires Counted(live, home, next, fired, freed) && addr !in live
    ensures Counted(live[addr := Token(next, place)], home[next := addr], next + 1, fired, freed)
  {
  }

  lemma CountedPlaced(live: map<Address, Token>, home: map<nat, Address>, next: nat, fired: multiset<nat>,
                      freed: multiset<nat>,
                      addr: Address, place: Place)
    requires Counted(live, home, next, fired, freed)
    ensures Counted(Placed(live, addr, place), home, next, fired, freed)
  {
  }

  lemma CountedConsume(live: map<Address, Token>, home: map<nat, Address>, next: nat, fired: multiset<nat>,
                       freed: multiset<nat>, addr: Address)
    requires Counted(live, home, next, fired, freed) && addr in live
    ensures var offer := live[addr].offer;
            && Counted(live - {addr}, home - {offer}, next, fired + multiset{offer}, freed)
            && Counted(live - {addr}, home - {offer}, next, fired, freed + multiset{offer})
  {
    var offer := live[addr].offer;
    assert offer in home && offer < next;
  }

  // ---- places

  lemma LinearCreate(clients: map<Pid, Client>, cell: Option<Address>, inFlight: map<Pid, Address>,
                     live: map<Address, Token>,
                     p: Pid, addr: Address, offer: nat)
    requires Linear(clients, cell, inFlight, live) && p !in clients && addr !in live
    ensures Linear(clients[p := Offering(offer, addr)], cell, inFlight, live[addr := Token(offer, WithThread(p))])
  {
  }

  /** A thread moves on with its pointer where it was. */
  lemma LinearMove(clients: map<Pid, Client>, cell: Option<Address>, inFlight: map<Pid, Address>,
                   live: map<Address, Token>,
                   p: Pid, pc: Client)
    requires Linear(clients, cell, inFlight, live) && p in clients
    requires pc.offer == clients[p].offer && pc.addr == clients[p].addr && (pc.Owns() <==> clients[p].Owns())
    ensures Linear(clients[p := pc], cell, inFlight, live)
  {
  }

  lemma LinearStore(clients: map<Pid, Client>, cell: Option<Address>, inFlight: map<Pid, Address>,
                    live: map<Address, Token>, p: Pid)
    requires Linear(clients, cell, inFlight, live) && p in clients && clients[p].Owns() && cell.None?
    ensures var me := clients[p];
            Linear(clients[p := Blocked(me.offer, me.addr)], Some(me.addr), inFlight, Placed(live, me.addr, Stored(p)))
  {
  }

  lemma LinearReturn(clients: map<Pid, Client>, cell: Option<Address>, inFlight: map<Pid, Address>,
                     live: map<Address, Token>, p: Pid)
    requires Linear(clients, cell, inFlight, live) && p in clients && cell == Some(clients[p].addr)
    requires cell.value in live && live[cell.value].place == Stored(p)
    ensures var me := clients[p];
            Linear(clients[p := Freeing(me.offer, me.addr)], None, inFlight, Placed(live, me.addr, WithThread(p)))
  {
  }

  /** A waiting thread gives up its interest in a pointer that is not stored. */
  lemma LinearLeave(clients: map<Pid, Client>, cell: Option<Address>, inFlight: map<Pid, Address>,
                    live: map<Address, Token>, p: Pid)
    requires Linear(clients, cell, inFlight, live) && p in clients && clients[p].Waits()
    requires cell == Some(clients[p].addr) ==> live[clients[p].addr].offer != clients[p].offer
    ensures Linear(clients - {p}, cell, inFlight, live)
  {
  }

  lemma LinearFree(clients: map<Pid, Client>, cell: Option<Address>, inFlight: map<Pid, Address>,
                   live: map<Address, Token>, p: Pid)
    requires Linear(clients, cell, inFlight, live) && p in clients && clients[p].Owns()
    ensures Linear(clients - {p}, cell, inFlight, live - {clients[p].addr})
  {
    var addr := clients[p].addr;
    forall r | r in clients && r != p && clients[r].Owns()
      ensures clients[r].addr != addr
    {
      assert live[clients[r].addr].place == WithThread(r);
    }
    forall c | c in inFlight
      ensures inFlight[c] != addr
    {
      assert Rightful(live, inFlight[c], Detached(c));
    }
  }

  lemma LinearDetach(clients: map<Pid, Client>, cell: Option<Address>, inFlight: map<Pid, Address>,
                     live: map<Address, Token>, c: Pid)
    requires Linear(clients, cell, inFlight, live) && cell.Some? && c !in inFlight
    ensures Linear(clients, None, inFlight[c := cell.value], Placed(live, cell.value, Detached(c)))
  {
    forall d | d in inFlight
      ensures inFlight[d] != cell.value
    {
      assert Rightful(live, inFlight[d], Detached(d));
    }
  }

  lemma LinearFire(clients: map<Pid, Client>, cell: Option<Address>, inFlight: map<Pid, Address>,
                   live: map<Address, Token>, c: Pid)
    requires Linear(clients, cell, inFlight, live) && c in inFlight
    ensures Linear(clients, cell, inFlight - {c}, live - {inFlight[c]})
  {
    var addr := inFlight[c];
    assert Rightful(live, addr, Detached(c));
    forall d | d in inFlight && d != c
      ensures inFlight[d] != addr
    {
      assert Rightful(live, inFlight[d], Detached(d));
    }
  }

  // ---- threads

  lemma ApartMove(exclusive: bool, clients: map<Pid, Client>, next: nat, p: Pid, pc: Client)
    requires Apart(exclusive, clients, next) && p in clients && pc.offer == clients[p].offer
    ensures Apart(exclusive, clients[p := pc], next)
  {
  }

  lemma AwaitedMove(clients: map<Pid, Client>, live: map<Address, Token>, fired: multiset<nat>, p: Pid, pc: Client)
    requires Awaited(clients, live, fired)
    requires pc.Waits() ==> pc.offer in fired || WithC(live, pc)
    ensures Awaited(clients[p := pc], live, fired)
  {
  }

  lemma ApartCreate(exclusive: bool, clients: map<Pid, Client>, next: nat, p: Pid, addr: Address)
    requires Apart(exclusive, clients, next) && p !in clients && (exclusive ==> clients == map[])
    ensures Apart(exclusive, clients[p := Offering(next, addr)], next + 1)
  {
  }

  lemma AwaitedCreate(clients: map<Pid, Client>, live: map<Address, Token>, fired: multiset<nat>, addr: Address,
                      token: Token)
    requires Awaited(clients, live, fired) && addr !in live
    ensures Awaited(clients, live[addr := token], fired)
  {
  }

  lemma AwaitedPlaced(clients: map<Pid, Client>, live: map<Address, Token>, fired: multiset<nat>, addr: Address,
                      place: Place)
    requires Awaited(clients, live, fired) && addr in live
    requires place.WithThread? ==> live[addr].place == Stored(place.p)
    requires place.WithThread? ==> forall r :: r in clients && clients[r].Waits() ==>
             live[addr].offer != clients[r].offer
    ensures Awaited(clients, Placed(live, addr, place), fired)
  {
  }

  // ---- each step

  lemma CreateKeepsInv(s: State, p: Pid, addr: Address, s': State)
    requires Inv(s) && Enabled(s, Create(p, addr)) && s' == Apply(s, Create(p, addr))
    ensures Inv(s')
  {
    CountedCreate(s.live, s.home, s.next, s.fired, s.freed, addr, WithThread(p));
    LinearCreate(s.clients, s.cell, s.inFlight, s.live, p, addr, s.next);
    ApartCreate(s.exclusive, s.clients, s.next, p, addr);
    AwaitedCreate(s.clients, s.live, s.fired, addr, s'.live[addr]);
    AwaitedMove(s.clients, s'.live, s.fired, p, s'.clients[p]);
  }

  lemma RegisterKeepsInv(s: State, p: Pid, willing: bool, s': State)
    requires Inv(s) && Enabled(s, Register(p, willing)) && s' == Apply(s, Register(p, willing))
    ensures Inv(s')
  {
    var me := s.clients[p];
    ApartMove(s.exclusive, s.clients, s.next, p, s'.clients[p]);
    if s'.cell != s.cell {
      AwaitedPlaced(s.clients, s.live, s.fired, me.addr, Stored(p));
      AwaitedMove(s.clients, s'.live, s.fired, p, s'.clients[p]);
      CountedPlaced(s.live, s.home, s.next, s.fired, s.freed, me.addr, Stored(p));
      LinearStore(s.clients, s.cell, s.inFlight, s.live, p);
    } else {
      AwaitedMove(s.clients, s.live, s.fired, p, s'.clients[p]);
      LinearMove(s.clients, s.cell, s.inFlight, s.live, p, s'.clients[p]);
    }
  }

  lemma InterruptKeepsInv(s: State, p: Pid, s': State)
    requires Inv(s) && Enabled(s, Interrupt(p)) && s' == Apply(s, Interrupt(p))
    ensures Inv(s')
  {
    ApartMove(s.exclusive, s.clients, s.next, p, s'.clients[p]);
    AwaitedMove(s.clients, s.live, s.fired, p, s'.clients[p]);
    LinearMove(s.clients, s.cell, s.inFlight, s.live, p, s'.clients[p]);
  }

  /** A thread returns from takeMVar because its own offer was fired, so nothing of it is stored. */
  lemma AwakeKeepsInv(s: State, p: Pid, s': State)
    requires Inv(s) && Enabled(s, Awake(p)) && s' == Apply(s, Awake(p))
    ensures Inv(s')
  {
    assert s.clients[p].offer !in s.home;
    LinearLeave(s.clients, s.cell, s.inFlight, s.live, p);
  }

  /** A stored waiter with this thread's address is this thread's own, even though addresses are handed out again. */
  lemma OwnWaiter(s: State, p: Pid)
    requires Inv(s) && p in s.clients && s.clients[p].Waits() && s.cell == Some(s.clients[p].addr)
    ensures s.live[s.cell.value] == Token(s.clients[p].offer, Stored(p))
  {
    var token := s.live[s.cell.value];
    assert InPlace(s.clients, s.cell, s.inFlight, s.cell.value, token);
    var q := token.place.p;
    assert q in s.clients && s.clients[q].offer == token.offer;
    if !s.exclusive {
      assert WithC(s.live, s.clients[p]);
    }
  }

  lemma UnregisterKeepsInv(s: State, p: Pid, s': State)
    requires Inv(s) && Enabled(s, Unregister(p)) && s' == Apply(s, Unregister(p))
    ensures Inv(s')
  {
    var me := s.clients[p];
    if s.cell == Some(me.addr) {
      OwnWaiter(s, p);
      ApartMove(s.exclusive, s.clients, s.next, p, s'.clients[p]);
      AwaitedMove(s.clients, s.live, s.fired, p, s'.clients[p]);
      AwaitedPlaced(s'.clients, s.live, s.fired, me.addr, WithThread(p));
      CountedPlaced(s.live, s.home, s.next, s.fired, s.freed, me.addr, WithThread(p));
      LinearReturn(s.clients, s.cell, s.inFlight, s.live, p);
    } else {
      LinearLeave(s.clients, s.cell, s.inFlight, s.live, p);
    }
  }

  lemma FreeKeepsInv(s: State, p: Pid, s': State)
    requires Inv(s) && Enabled(s, Free(p)) && s' == Apply(s, Free(p))
    ensures Inv(s')
  {
    CountedConsume(s.live, s.home, s.next, s.fired, s.freed, s.clients[p].addr);
    LinearFree(s.clients, s.cell, s.inFlight, s.live, p);
  }

  lemma DetachKeepsInv(s: State, c: Pid, s': State)
    requires Inv(s) && Enabled(s, Detach(c)) && s' == Apply(s, Detach(c))
    ensures Inv(s')
  {
    CountedPlaced(s.live, s.home, s.next, s.fired, s.freed, s.cell.value, Detached(c));
    LinearDetach(s.clients, s.cell, s.inFlight, s.live, c);
  }

  lemma FireKeepsInv(s: State, c: Pid, s': State)
    requires Inv(s) && Enabled(s, Fire(c)) && s' == Apply(s, Fire(c))
    ensures Inv(s')
  {
    assert Rightful(s.live, s.inFlight[c], Detached(c));
    CountedConsume(s.live, s.home, s.next, s.fired, s.freed, s.inFlight[c]);
    LinearFire(s.clients, s.cell, s.inFlight, s.live, c);
  }

  lemma StepKeepsInv(s: State, a: Action, s': State)
    requires Inv(s) && Enabled(s, a) && s' == Apply(s, a)
    ensures Inv(s')
  {
    match a
    case Create(p, addr) => CreateKeepsInv(s, p, addr, s');
    case Register(p, willing) => RegisterKeepsInv(s, p, willing, s');
    case Interrupt(p) => InterruptKeepsInv(s, p, s');
    case Awake(p) => AwakeKeepsInv(s, p, s');
    case Unregister(p) => UnregisterKeepsInv(s, p, s');
    case Free(p) => FreeKeepsInv(s, p, s');
    case Detach(c) => DetachKeepsInv(s, c, s');
    case Fire(c) => FireKeepsInv(s, c, s');
  }

  // ---- runs

  ghost predicate StepAt(run: seq<State>, acts: seq<Action>, i: nat)
    requires i < |acts| && |run| == |acts| + 1
  {
    Enabled(run[i], acts[i]) && run[i + 1] == Apply(run[i], acts[i])
  }

  ghost predicate IsRun(exclusive: bool, latching: bool, run: seq<State>, acts: seq<Action>) {
    && |run| == |acts| + 1 && run[0] == Initial(exclusive, latching)
    && forall i :: 0 <= i < |acts| ==> StepAt(run, acts, i)
  }

  lemma StepOfRun(exclusive: bool, latching: bool, run: seq<State>, acts: seq<Action>, k: nat, i: nat)
    requires IsRun(exclusive, latching, run, acts) && i == k + 1 < |run|
    ensures Enabled(run[k], acts[k]) && run[i] == Apply(run[k], acts[k])
  {
    assert StepAt(run, acts, k);
  }

  lemma {:induction false} RunKeepsInv(exclusive: bool, latching: bool, run: seq<State>, acts: seq<Action>, i: nat)
    requires IsRun(exclusive, latching, run, acts) && i < |run| && (exclusive || latching)
    ensures Inv(run[i])
  {
    if i == 0 {
      StartInv(exclusive, latching);
    } else {
      var k := i - 1;
      RunKeepsInv(exclusive, latching, run, acts, k);
      StepOfRun(exclusive, latching, run, acts, k, i);
      StepKeepsInv(run[k], acts[k], run[i]);
    }
  }

  /** Every pointer offered is consumed at most once, by its one rightful owner; and exactly once when no thread, no
      stored waiter and no C thread is left holding it. */
  lemma ConsumedOnce(exclusive: bool, latching: bool, run: seq<State>, acts: seq<Action>, i: nat)
    requires IsRun(exclusive, latching, run, acts) && i < |run| && (exclusive || latching)
    ensures !run[i].fault
    ensures forall offer: nat :: run[i].fired[offer] + run[i].freed[offer] <= 1
    ensures run[i].clients == map[] && run[i].cell.None? && run[i].inFlight == map[] ==>
              forall offer: nat :: offer < run[i].next ==> run[i].fired[offer] + run[i].freed[offer] == 1
  {
    RunKeepsInv(exclusive, latching, run, acts, i);
    NothingLeft(run[i]);
  }

  lemma NothingLeft(s: State)
    requires Inv(s)
    ensures forall offer: nat :: s.fired[offer] + s.freed[offer] <= 1
    ensures s.clients == map[] && s.cell.None? && s.inFlight == map[] ==>
              forall offer: nat :: offer < s.next ==> s.fired[offer] + s.freed[offer] == 1
  {
    if s.clients == map[] && s.cell.None? && s.inFlight == map[] {
      forall offer | offer in s.home
        ensures s.clients != map[] || s.cell.Some? || s.inFlight != map[]
      {
        LiveIsSomewhere(s, s.home[offer]);
      }
    }
  }

  lemma LiveIsSomewhere(s: State, addr: Address)
    requires Inv(s) && addr in s.live
    ensures s.clients != map[] || s.cell.Some? || s.inFlight != map[]
  {
    assert InPlace(s.clients, s.cell, s.inFlight, addr, s.live[addr]);
  }

  /** A blocked thread's pointer was fired, so that it can return, or is stored, or is held by a C thread about to fire
      it; it is never freed underneath the thread. */
  lemma WaiterNeverLost(exclusive: bool, latching: bool, run: seq<State>, acts: seq<Action>, i: nat, p: Pid)
    requires IsRun(exclusive, latching, run, acts) && i < |run| && (exclusive || latching)
    requires p in run[i].clients && run[i].clients[p].Blocked?
    ensures var s, me := run[i], run[i].clients[p];
            && s.freed[me.offer] == 0
            && (|| s.fired[me.offer] == 1
                || s.cell == Some(me.addr)
                || exists c :: c in s.inFlight && s.inFlight[c] == me.addr)
  {
    RunKeepsInv(exclusive, latching, run, acts, i);
    BlockedIsHeld(run[i], p);
  }

  lemma BlockedIsHeld(s: State, p: Pid)
    requires Inv(s) && p in s.clients && s.clients[p].Blocked?
    ensures s.freed[s.clients[p].offer] == 0
    ensures s.fired[s.clients[p].offer] == 1 || s.cell == Some(s.clients[p].addr)
            || exists c :: c in s.inFlight && s.inFlight[c] == s.clients[p].addr
  {
    var me := s.clients[p];
    if me.offer !in s.fired {
      var token := s.live[me.addr];
      assert InPlace(s.clients, s.cell, s.inFlight, me.addr, token);
      assert token.offer in s.home;
      if token.place.Detached? {
        assert s.inFlight[token.place.c] == me.addr;
      }
    }
  }

  ghost predicate Safe(exclusive: bool, latching: bool) {
    forall run: seq<State>, acts, i :: IsRun(exclusive, latching, run, acts) && 0 <= i < |run| ==> !run[i].fault
  }

  /** Thread 0 is interrupted after its waker was fired; the runtime hands its pointer value to thread 1. */
  function Scenario(k: nat): Action {
    if k == 0 then Create(0, 7)
    else if k == 1 then Register(0, true)
    else if k == 2 then Detach(9)
    else if k == 3 then Fire(9)
    else if k == 4 then Interrupt(0)
    else if k == 5 then Create(1, 7)
    else if k == 6 then Register(1, true)
    else if k == 7 then Unregister(0)
    else Free(0)
  }

  function Stage(k: nat): State {
    var s := Initial(false, false);
    if k == 0 then s
    else if k == 1 then s.(next := 1, clients := map[0 := Offering(0, 7)], live := map[7 := Token(0, WithThread(0))],
                           home := map[0 := 7])
    else if k == 2 then s.(next := 1, clients := map[0 := Blocked(0, 7)], live := map[7 := Token(0, Stored(0))],
                           home := map[0 := 7], cell := Some(7))
    else if k == 3 then s.(next := 1, clients := map[0 := Blocked(0, 7)], live := map[7 := Token(0, Detached(9))],
                           home := map[0 := 7], inFlight := map[9 := 7])
    else
      var t := s.(next := 1, fired := multiset{0}, clients := map[0 := Blocked(0, 7)]);
      if k == 4 then t
      else if k == 5 then t.(clients := map[0 := Unregistering(0, 7)])
      else
        var u := t.(next := 2, home := map[1 := 7], clients := map[0 := Unregistering(0, 7), 1 := Blocked(1, 7)]);
        if k == 6 then u.(clients := map[0 := Unregistering(0, 7), 1 := Offering(1, 7)],
                          live := map[7 := Token(1, WithThread(1))])
        else if k == 7 then u.(live := map[7 := Token(1, Stored(1))], cell := Some(7))
        else if k == 8 then u.(clients := map[0 := Freeing(0, 7), 1 := Blocked(1, 7)],
                               live := map[7 := Token(1, WithThread(0))])
        else u.(clients := map[1 := Blocked(1, 7)], home := map[], freed := multiset{1}, fault := true)
  }

  lemma FirstWait(k: nat)
    requires k < 2
    ensures Enabled(Stage(k), Scenario(k)) && Apply(Stage(k), Scenario(k)) == Stage(k + 1)
  {
  }

  lemma FirstWake(k: nat)
    requires 2 <= k < 4
    ensures Enabled(Stage(k), Scenario(k)) && Apply(Stage(k), Scenario(k)) == Stage(k + 1)
  {
  }

  lemma SecondWait(k: nat)
    requires 4 <= k < 7
    ensures Enabled(Stage(k), Scenario(k)) && Apply(Stage(k), Scenario(k)) == Stage(k + 1)
  {
  }

  lemma WrongfulReturn(k: nat)
    requires 7 <= k < 9
    ensures Enabled(Stage(k), Scenario(k)) && Apply(Stage(k), Scenario(k)) == Stage(k + 1)
  {
  }

  /** awaitOneShot alone is not enough: with neither the lock nor the latch, thread 0 takes back and frees the waiter of
      thread 1, which stays blocked on a pointer that will never be fired. */
  lemma Unguarded()
    ensures !Safe(false, false)
  {
    var run, acts := seq(10, k requires 0 <= k < 10 => Stage(k)), seq(9, k requires 0 <= k < 9 => Scenario(k));
    forall k | 0 <= k < 9
      ensures StepAt(run, acts, k)
    {
      if k < 2 {
        FirstWait(k);
      } else if k < 4 {
        FirstWake(k);
      } else if k < 7 {
        SecondWait(k);
      } else {
        WrongfulReturn(k);
      }
    }
    assert IsRun(false, false, run, acts) && run[9].fault;
  }

  /** The exact condition: ownership is linear on every run if and only if one of the two guards is in place. */
  lemma SafeIffGuarded(exclusive: bool, latching: bool)
    ensures Safe(exclusive, latching) <==> exclusive || latching
  {
    if exclusive || latching {
      forall run: seq<State>, acts, i | IsRun(exclusive, latching, run, acts) && 0 <= i < |run|
        ensures !run[i].fault
      {
        RunKeepsInv(exclusive, latching, run, acts, i);
      }
    } else {
      Unguarded();
    }
  }

  // ---- the result waker

  /** hs_easy_data: the agent stores one result and fires the caller's waker; the finalizer releases what was not
      fired. */
  class EasyData {
    var completed: bool
    var curlCode: int
    var responseCode: int
    var wakerFired: bool
    const hasWaker: bool
    ghost var puts: nat      // hs_try_putmvar calls on the pointer
    ghost var releases: nat  // hs_free_stable_ptr calls on the pointer

    ghost predicate Valid()
      reads this
    {
      puts == (if wakerFired && hasWaker then 1 else 0) && (wakerFired ==> completed)
    }

    constructor (hasWaker: bool)
      ensures Valid() && this.hasWaker == hasWaker && !completed && !wakerFired && releases == 0
      ensures curlCode == CURLE_OK && responseCode == 0
    {
      this.hasWaker := hasWaker;
      completed, wakerFired, curlCode, responseCode := false, false, CURLE_OK, 0;
      puts, releases := 0, 0;
    }

    /** The first result stays, with the response code libcurl knew then, if any. */
    method SetResult(code: int, response: Option<int>)
      requires Valid()
      modifies this
      ensures Valid() && completed && wakerFired == old(wakerFired) && releases == old(releases) && puts == old(puts)
      ensures curlCode == if old(completed) then old(curlCode) else code
      ensures responseCode == if old(completed) || response.None? then old(responseCode) else response.value
    {
      if completed {
        return;
      }
      curlCode := code;
      if response.Some? {
        responseCode := response.value;
      }
      completed := true;
    }

    /** Fires at most once, and only after a result. */
    method Wake()
      requires Valid()
      modifies this
      ensures Valid() && completed == old(completed) && releases == old(releases)
      ensures curlCode == old(curlCode) && responseCode == old(responseCode)
      ensures wakerFired == (old(wakerFired) || completed)
    {
      if !completed {
        return;
      }
      if wakerFired {
        return;
      }
      wakerFired := true;
      if hasWaker {
        puts := puts + 1;
      }
    }

    /** At the end of its life the pointer has been consumed exactly once, by the agent or here. */
    method Destroy()
      requires Valid() && releases == 0
      modifies this
      ensures hasWaker ==> puts + releases == 1
      ensures releases == if hasWaker && !old(wakerFired) then 1 else 0
    {
      if hasWaker && !wakerFired {
        releases := releases + 1;
      }
    }
  }
}

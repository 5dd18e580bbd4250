/** The queue as the C struct: its words and buffer updated in place by the operations of the state machine. */
module MpscRing {
  import opened Facets
  import opened Words
  import opened Messages
  import opened Mpsc

  /** The i-th slot counted from the tail. */
  function Position(tail: nat, i: nat, max: nat): (slot: nat)
    requires max > 0
    ensures slot < max
  {
    Slot(tail + i, max)
  }

  function NextTail(tail: nat, max: nat): nat {
    if tail + 1 >= max then 0 else tail + 1
  }

  class Ring<T> {
    var count: nat
    var head: nat
    var tail: nat
    const max: nat
    const buffer: array<Option<T>>

    /** What the shared words hold. */
    ghost function View(): Memory<T>
      reads this, buffer
    {
      Memory(max, count, head, tail, buffer[..])
    }

    ghost predicate Shaped()
      reads this
    {
      max == buffer.Length && IsPow2(max) && max < WORD && tail < max && count < WORD && head < WORD
    }

    /** A ring with no thread inside it: `items` from the tail up, every other slot empty. */
    ghost predicate Holds(items: seq<T>)
      reads this, buffer
    {
      && Shaped() && count == |items| <= max
      && forall facet :: Shown(facet) && facet.Slots? ==>
          Slot(head, max) == Position(tail, |items|, max) && Filled(tail, buffer[..], items)
    }

    static ghost predicate Filled(tail: nat, slots: seq<Option<T>>, items: seq<T>) {
      && |slots| > 0
      && (forall i :: 0 <= i < |slots| ==>
            slots[Position(tail, i, |slots|)] == if i < |items| then Some(items[i]) else None)
    }

    /** mpscq_create: refuses a capacity that is not a power of two of at least two slots. */
    static method Create(capacity: nat, memory: bool) returns (ring: Ring?<T>)
      ensures ring != null <==> CapacityAccepted(capacity) && memory
      ensures ring != null ==> fresh(ring) && fresh(ring.buffer)
      ensures ring != null ==> ring.View() == Initial<T>(capacity).mem && ring.Holds([])
    {
      if capacity < 2 || And(capacity, capacity - 1) != 0 || capacity > SIZE_MAX / 8 {
        return null;
      }
      if !memory {
        return null;
      }
      PowerOfTwoTest(capacity);
      ring := new Ring(capacity);
      for index := 0 to capacity
        invariant ring.max == capacity && ring.Shaped() && ring.count == 0 && ring.head == 0 && ring.tail == 0
        invariant fresh(ring) && fresh(ring.buffer)
        invariant forall i :: 0 <= i < index ==> ring.buffer[i] == None
      {
        ring.buffer[index] := None;
      }
      assert ring.buffer[..] == seq(capacity, _ => None);
    }

    constructor (capacity: nat)
      requires IsPow2(capacity) && capacity < WORD
      ensures max == capacity && Shaped() && count == 0 && head == 0 && tail == 0 && fresh(buffer)
    {
      count, head, tail := 0, 0, 0;
      max := capacity;
      buffer := new Option<T>[capacity];
    }

    // ---- one method per atomic operation

    method FetchAddCount() returns (before: nat)
      requires Shaped()
      modifies this`count
      ensures Shaped() && before == old(count)
      ensures View() == Mpsc.FetchAddCount(old(View()))
    {
      before := count;
      count := AddWord(count, 1);
    }

    method FetchSubCount() returns (before: nat)
      requires Shaped()
      modifies this`count
      ensures Shaped() && before == old(count)
      ensures View() == Mpsc.FetchSubCount(old(View()))
    {
      before := count;
      count := SubWord(count, 1);
    }

    method FetchAddHead() returns (before: nat)
      requires Shaped()
      modifies this`head
      ensures Shaped() && before == old(head)
      ensures View() == Mpsc.FetchAddHead(old(View()))
    {
      before := head;
      head := AddWord(head, 1);
    }

    method ExchangeIn(position: nat, obj: T) returns (before: Option<T>)
      requires Shaped()
      modifies buffer
      ensures Shaped() && before == old(buffer[Slot(position, max)])
      ensures View() == Store(old(View()), position, obj)
    {
      SlotIsModulo(position, max);
      before := buffer[position % max];
      buffer[position % max] := Some(obj);
    }

    method ExchangeOut() returns (before: Option<T>)
      requires Shaped()
      modifies buffer
      ensures Shaped() && before == old(buffer[tail])
      ensures View() == Clear(old(View()))
    {
      before := buffer[tail];
      buffer[tail] := None;
    }

    // ---- whole calls with no other thread inside

    method Enqueue(obj: T, ghost items: seq<T>) returns (accepted: bool)
      requires Holds(items)
      modifies this`count, this`head, buffer
      ensures accepted <==> |items| < max
      ensures Holds(if accepted then items + [obj] else items)
    {
      assert Shown(Slots);
      AddNoWrap(count);
      var before := FetchAddCount();
      if before >= max {
        SubNoWrap(count);
        var _ := FetchSubCount();
        return false;
      }
      NextPosition(tail, |items|, head, max);
      var position := FetchAddHead();
      Place(position, obj, items);
      accepted := true;
    }

    /** The store of an admitted producer, with both asserts. */
    method Place(position: nat, obj: T, ghost items: seq<T>)
      requires Shaped() && Filled(tail, buffer[..], items) && |items| < max
      requires Slot(position, max) == Position(tail, |items|, max)
      modifies buffer
      ensures Shaped() && Filled(tail, buffer[..], items + [obj])
    {
      assert buffer[..][Position(tail, |items|, max)] == None;
      FillNext(tail, buffer[..], items, obj);
      assert buffer[Slot(position, max)] == None;
      var displaced := ExchangeIn(position, obj);
      assert displaced == None;
    }

    static lemma FillNext(tail: nat, slots: seq<Option<T>>, items: seq<T>, obj: T)
      requires Filled(tail, slots, items) && |items| < |slots|
      ensures Filled(tail, slots[Position(tail, |items|, |slots|) := Some(obj)], items + [obj])
    {
      forall i | 0 <= i < |slots| && i != |items|
        ensures Position(tail, i, |slots|) != Position(tail, |items|, |slots|)
      {
        PositionsDiffer(tail, i, |items|, |slots|);
      }
    }

    method Dequeue(ghost items: seq<T>) returns (taken: Option<T>)
      requires Holds(items)
      modifies this, buffer
      ensures taken == (if items == [] then None else Some(items[0]))
      ensures Holds(if items == [] then [] else items[1..])
    {
      assert Shown(Slots);
      LapPosition(tail, max);
      assert buffer[..][Position(tail, 0, max)] == if 0 < |items| then Some(items[0]) else None;
      ghost var slots := buffer[..];
      taken := ExchangeOut();
      if taken == None {
        assert buffer[..] == slots;
        return;
      }
      TakeFirst(tail, slots, items);
      Advance(tail, |items| - 1, max);
      StepTail(items[1..]);
    }

    /** The consumer's tail step and decrement after a successful exchange. */
    method StepTail(ghost rest: seq<T>)
      requires Shaped() && count == |rest| + 1
      requires Slot(head, max) == Position(NextTail(tail, max), |rest|, max) && |rest| <= max
      requires Filled(NextTail(tail, max), buffer[..], rest)
      modifies this`tail, this`count
      ensures Holds(rest)
    {
      tail := NextTail(tail, max);
      SubNoWrap(count);
      var r := FetchSubCount();
      assert r > 0;
    }

    static lemma TakeFirst(tail: nat, slots: seq<Option<T>>, items: seq<T>)
      requires 0 < |items| <= |slots| && tail < |slots| && Filled(tail, slots, items)
      ensures Filled(NextTail(tail, |slots|), slots[tail := None], items[1..])
    {
      var max := |slots|;
      var next := NextTail(tail, max);
      LapPosition(tail, max);
      forall i | 0 <= i < max
        ensures slots[tail := None][Position(next, i, max)] == if i < |items[1..]| then Some(items[1..][i]) else None
      {
        Advance(tail, i, max);
        if i + 1 < max {
          PositionsDiffer(tail, 0, i + 1, max);
        }
      }
    }
  }

  lemma PositionsDiffer(tail: nat, i: nat, j: nat, max: nat)
    requires i < max && j < max && i != j
    ensures Position(tail, i, max) != Position(tail, j, max)
  {
    SlotsDiffer(tail + if i < j then i else j, tail + if i < j then j else i, max);
  }

  lemma LapPosition(tail: nat, max: nat)
    requires tail < max
    ensures Position(tail, 0, max) == Position(tail, max, max) == tail
  {
    LapSlot(tail, max);
    assert Slot(tail, max) == Residue(tail, max);
  }

  /** The wrapped head names the slot just past the live items, before and after its increment. */
  lemma NextPosition(tail: nat, live: nat, head: nat, max: nat)
    requires IsPow2(max) && max < WORD && head < WORD && Slot(head, max) == Position(tail, live, max)
    ensures Slot(AddWord(head, 1), max) == Position(tail, live + 1, max)
  {
    NextSlot(head, max);
    NextSlot(tail + live, max);
    WrappedSlot(head + 1, max);
  }

  lemma {:induction false} ShiftResidue(base: nat, i: nat, max: nat)
    requires 0 < max
    ensures Residue(Residue(base, max) + i, max) == Residue(base + i, max)
    decreases base
  {
    if base >= max {
      ShiftResidue(base - max, i, max);
      assert Residue(base + i, max) == Residue(base + i - max, max);
    }
  }

  /** Counting from the advanced tail skips the slot just emptied. */
  lemma Advance(tail: nat, i: nat, max: nat)
    requires tail < max
    ensures Position(NextTail(tail, max), i, max) == Position(tail, i + 1, max)
  {
    var next := NextTail(tail, max);
    NextSlot(tail, max);
    assert Slot(tail, max) == tail by {
      LapPosition(tail, max);
    }
    ShiftResidue(tail + 1, i, max);
    assert Residue(tail + 1, max) == next;
    assert tail + 1 + i == tail + (i + 1);
  }
}

/** The agent's transfer registry: a chained hash table re-linked in place. */
module Registry {
  import opened Facets
  import opened Words
  import opened HashId
  import opened Messages

  const INITIAL_BUCKET_COUNT: nat := 64

  class Transfer {
    const sub: Submission
    var active: bool
    var next: Transfer?

    constructor (sub: Submission)
      ensures this.sub == sub && !active && next == null
    {
      this.sub := sub;
      active := false;
      next := null;
    }
  }

  /** The bucket of an ID in a table of n buckets. */
  type Placement = (nat, nat) -> nat

  ghost predicate InRange(place: Placement) {
    forall id: nat, n: nat :: IsPow2(n) ==> place(id, n) < n
  }

  /** The hash masked with the bucket count less one. */
  function Bucket(id: nat, bucketCount: nat): nat {
    if bucketCount == 0 then 0 else And(HashTransferId(id), bucketCount - 1)
  }

  /** The mask is a modulus, so it selects a bucket in range, because bucket counts are powers of two. */
  lemma BucketIsModulus(id: nat, bucketCount: nat)
    requires IsPow2(bucketCount)
    ensures Bucket(id, bucketCount) == HashTransferId(id) % bucketCount < bucketCount
  {
    MaskIsModulo(HashTransferId(id), bucketCount);
  }

  lemma BucketInRange()
    ensures InRange(Bucket)
  {
    forall id: nat, n: nat | IsPow2(n)
      ensures Bucket(id, n) < n
    {
      BucketIsModulus(id, n);
    }
  }

  /** `chain` lists, in order, the nodes reached from `head` through `next`. */
  ghost predicate Linked(head: Transfer?, chain: seq<Transfer>)
    reads chain`next
  {
    if |chain| == 0 then
      head == null
    else
      && head == chain[0]
      && chain[|chain| - 1].next == null
      && forall i, j :: 0 <= i && j == i + 1 && j < |chain| ==> chain[i].next == chain[j]
  }

  lemma LinkedTail(head: Transfer?, chain: seq<Transfer>)
    requires Linked(head, chain) && |chain| > 0
    ensures head == chain[0] && Linked(chain[0].next, chain[1..])
  {
    if |chain| > 1 {
      assert chain[0].next == chain[1];
    }
  }

  lemma LinkedCons(head: Transfer, chain: seq<Transfer>)
    requires Linked(head.next, chain)
    ensures Linked(head, [head] + chain)
  {
  }

  ghost function Elements(chain: seq<Transfer>): set<Transfer> {
    set t | t in chain
  }

  ghost function Nodes(table: seq<seq<Transfer>>): set<Transfer> {
    set b, t | 0 <= b < |table| && t in table[b] :: t
  }

  ghost predicate NoDuplicates(chain: seq<Transfer>) {
    forall i, j :: 0 <= i < j < |chain| ==> chain[i] != chain[j]
  }

  /** Every chain lists distinct nodes, each in the bucket of its ID. */
  ghost predicate Placed(place: Placement, table: seq<seq<Transfer>>) {
    && |table| > 0
    && (forall b :: 0 <= b < |table| ==> NoDuplicates(table[b]))
    && (forall b, t :: 0 <= b < |table| && t in table[b] ==> place(t.sub.id, |table|) == b)
  }

  /** From bucket `low` up, the array's heads start the chains of the table. */
  ghost predicate Rows(buckets: array<Transfer?>, table: seq<seq<Transfer>>, low: nat)
    reads buckets, Nodes(table)`next
  {
    buckets.Length == |table| && forall b :: low <= b < |table| ==> RowLinked(buckets[b], table, b)
  }

  ghost predicate RowLinked(head: Transfer?, table: seq<seq<Transfer>>, b: nat)
    requires b < |table|
    reads Nodes(table)`next
  {
    assert Elements(table[b]) <= Nodes(table);
    Linked(head, table[b])
  }

  ghost function Prepend(place: Placement, t: Transfer, table: seq<seq<Transfer>>): seq<seq<Transfer>>
    requires |table| > 0 && place(t.sub.id, |table|) < |table|
  {
    var bucket := place(t.sub.id, |table|);
    table[bucket := [t] + table[bucket]]
  }

  lemma PrependNode(place: Placement, t: Transfer, table: seq<seq<Transfer>>)
    requires Placed(place, table) && place(t.sub.id, |table|) < |table| && t !in Nodes(table)
    ensures Placed(place, Prepend(place, t, table))
    ensures Nodes(Prepend(place, t, table)) == Nodes(table) + {t}
  {
    var after := Prepend(place, t, table);
    var bucket := place(t.sub.id, |table|);
    assert t !in table[bucket];
    assert forall b, u :: 0 <= b < |table| ==> (u in after[b] <==> u in table[b] || (b == bucket && u == t));
    assert t in after[bucket];
    forall u | u in Nodes(table)
      ensures u in Nodes(after)
    {
      var b :| 0 <= b < |table| && u in table[b];
      assert u in after[b];
    }
  }

  lemma OwnBucket(place: Placement, t: Transfer, table: seq<seq<Transfer>>)
    requires Placed(place, table) && t in Nodes(table)
    ensures place(t.sub.id, |table|) < |table|
    ensures t in table[place(t.sub.id, |table|)]
  {
  }

  /** Push one node on the front of its bucket. */
  method Hook(place: Placement, t: Transfer, buckets: array<Transfer?>, ghost table: seq<seq<Transfer>>)
    returns (ghost after: seq<seq<Transfer>>)
    requires InRange(place) && IsPow2(buckets.Length)
    requires Rows(buckets, table, 0) && Placed(place, table) && t !in Nodes(table)
    modifies buckets, t`next
    ensures place(t.sub.id, |table|) < |table|
    ensures after == Prepend(place, t, table) && Rows(buckets, after, 0)
  {
    var bucket := place(t.sub.id, buckets.Length);
    assert forall b :: 0 <= b < |table| ==> t !in table[b];
    assert Linked(buckets[bucket], table[bucket]);
    t.next := buckets[bucket];
    buckets[bucket] := t;
    LinkedCons(t, table[bucket]);
    after := Prepend(place, t, table);
    forall b | 0 <= b < |table|
      ensures Linked(buckets[b], after[b])
    {
      assert b != bucket ==> Linked(buckets[b], table[b]);
    }
  }

  /** Inner loop of a resize: re-link one old chain, node by node, into the new buckets. */
  method MoveChain(place: Placement, head: Transfer?, ghost chain: seq<Transfer>, grown: array<Transfer?>,
                   ghost table: seq<seq<Transfer>>)
    returns (ghost after: seq<seq<Transfer>>)
    requires Linked(head, chain) && NoDuplicates(chain) && Elements(chain) !! Nodes(table)
    requires InRange(place) && IsPow2(grown.Length) && Rows(grown, table, 0) && Placed(place, table)
    modifies grown, chain`next
    ensures Rows(grown, after, 0) && Placed(place, after)
    ensures Nodes(after) == Nodes(table) + Elements(chain)
  {
    after := table;
    ghost var done := 0;
    var t := head;
    assert chain[done..] == chain;
    while t != null
      invariant done <= |chain| && Linked(t, chain[done..])
      invariant Rows(grown, after, 0) && Placed(place, after)
      invariant Nodes(after) == Nodes(table) + Elements(chain[..done])
      decreases |chain| - done
    {
      LinkedTail(t, chain[done..]);
      assert chain[done..][1..] == chain[done + 1..];
      assert chain[..done + 1] == chain[..done] + [t];
      var next := t.next;
      PrependReady(place, t, after, grown.Length);
      after := Hook(place, t, grown, after);
      done := done + 1;
      t := next;
    }
    assert chain[..done] == chain;
  }

  method MoveRow(place: Placement, buckets: array<Transfer?>, ghost chains: seq<seq<Transfer>>, index: nat,
                 grown: array<Transfer?>, ghost table: seq<seq<Transfer>>)
    returns (ghost after: seq<seq<Transfer>>)
    requires index < |chains| && buckets != grown
    requires Placed(place, chains) && Rows(buckets, chains, index)
    requires InRange(place) && IsPow2(grown.Length) && Rows(grown, table, 0) && Placed(place, table)
    requires Nodes(table) == Nodes(chains[..index])
    modifies grown, Nodes(chains)`next
    ensures Rows(buckets, chains, index + 1)
    ensures Rows(grown, after, 0) && Placed(place, after)
    ensures Nodes(after) == Nodes(chains[..index + 1])
  {
    NextRow(place, chains, index);
    assert Linked(buckets[index], chains[index]);
    assert forall t :: t in chains[index] ==> t in Nodes(chains);
    ghost var heads := buckets[..];
    assert forall b :: index < b < |chains| ==> Linked(heads[b], chains[b]);
    after := MoveChain(place, buckets[index], chains[index], grown, table);
    forall b | index < b < |chains|
      ensures Linked(buckets[b], chains[b])
    {
      assert old(Linked(heads[b], chains[b]));
      forall k | 0 <= k < |chains[b]|
        ensures chains[b][k].next == old(chains[b][k].next)
      {
        assert chains[b][k] in chains[b];
        assert chains[b][k] !in chains[index];
      }
    }
  }

  /** Outer loop of a resize: every old chain in turn. */
  method MoveAll(place: Placement, buckets: array<Transfer?>, ghost chains: seq<seq<Transfer>>, grown: array<Transfer?>)
    returns (ghost table: seq<seq<Transfer>>)
    requires InRange(place) && buckets != grown && IsPow2(grown.Length)
    requires Placed(place, chains) && Rows(buckets, chains, 0)
    requires forall b :: 0 <= b < grown.Length ==> grown[b] == null
    modifies grown, Nodes(chains)`next
    ensures Rows(grown, table, 0) && Placed(place, table)
    ensures Nodes(table) == Nodes(chains)
  {
    table := seq(grown.Length, _ => []);
    for index := 0 to buckets.Length
      invariant Rows(buckets, chains, index)
      invariant Rows(grown, table, 0) && Placed(place, table)
      invariant Nodes(table) == Nodes(chains[..index])
    {
      table := MoveRow(place, buckets, chains, index, grown, table);
    }
    assert chains[..|chains|] == chains;
  }

  lemma PrependReady(place: Placement, t: Transfer, table: seq<seq<Transfer>>, n: nat)
    requires InRange(place) && IsPow2(n) && |table| == n && Placed(place, table) && t !in Nodes(table)
    ensures place(t.sub.id, n) < n
    ensures Placed(place, Prepend(place, t, table))
    ensures Nodes(Prepend(place, t, table)) == Nodes(table) + {t}
  {
    PrependNode(place, t, table);
  }

  lemma NextRow(place: Placement, table: seq<seq<Transfer>>, index: nat)
    requires Placed(place, table) && index < |table|
    ensures Elements(table[index]) !! Nodes(table[..index])
    ensures Nodes(table[..index + 1]) == Nodes(table[..index]) + Elements(table[index])
    ensures forall b, t :: 0 <= b < |table| && b != index && t in table[index] ==> t !in table[b]
  {
    forall b, t | 0 <= b < |table| && b != index && t in table[index]
      ensures t !in table[b]
    {
      assert place(t.sub.id, |table|) == index;
    }
  }

  /** Walk one chain for an ID. */
  method Search(head: Transfer?, ghost chain: seq<Transfer>, id: nat) returns (t: Transfer?)
    requires Linked(head, chain)
    ensures t == null ==> forall u :: u in chain ==> u.sub.id != id
    ensures t != null ==> t in chain && t.sub.id == id
  {
    ghost var i := 0;
    t := head;
    assert chain[i..] == chain;
    while t != null
      invariant 0 <= i <= |chain| && Linked(t, chain[i..])
      invariant forall j :: 0 <= j < i ==> chain[j].sub.id != id
      decreases |chain| - i
    {
      LinkedTail(t, chain[i..]);
      assert chain[i..][1..] == chain[i + 1..] && t == chain[i];
      if t.sub.id == id {
        return t;
      }
      t := t.next;
      i := i + 1;
    }
  }

  /** Walk a chain with a cursor to the link that holds the first match. */
  method FindLink(head: Transfer?, ghost chain: seq<Transfer>, id: nat)
    returns (previous: Transfer?, cursor: Transfer?, ghost i: nat)
    requires Linked(head, chain)
    ensures cursor == null ==> forall u :: u in chain ==> u.sub.id != id
    ensures cursor != null ==>
              i < |chain| && cursor == chain[i] && cursor.sub.id == id
                && previous == (if i == 0 then null else chain[i - 1])
  {
    i := 0;
    previous := null;
    cursor := head;
    assert chain[i..] == chain;
    while cursor != null && cursor.sub.id != id
      invariant 0 <= i <= |chain| && Linked(cursor, chain[i..])
      invariant previous == (if i == 0 then null else chain[i - 1])
      invariant forall j :: 0 <= j < i ==> chain[j].sub.id != id
      decreases |chain| - i
    {
      LinkedTail(cursor, chain[i..]);
      assert chain[i..][1..] == chain[i + 1..] && cursor == chain[i];
      previous := cursor;
      cursor := cursor.next;
      i := i + 1;
    }
    if cursor != null {
      LinkedTail(cursor, chain[i..]);
    }
  }

  /** Store the successor in the link that pointed at chain[i]. */
  method Splice(buckets: array<Transfer?>, bucket: nat, previous: Transfer?, removed: Transfer,
                ghost chain: seq<Transfer>, ghost i: nat)
    requires bucket < buckets.Length && Linked(buckets[bucket], chain) && NoDuplicates(chain)
    requires i < |chain| && removed == chain[i] && previous == (if i == 0 then null else chain[i - 1])
    modifies buckets, chain`next
    ensures removed.next == null
    ensures Linked(buckets[bucket], chain[..i] + chain[i + 1..])
    ensures forall b :: 0 <= b < buckets.Length && b != bucket ==> buckets[b] == old(buckets[b])
  {
    assert chain[i] in chain;
    if previous == null {
      buckets[bucket] := removed.next;
    } else {
      assert chain[i - 1] in chain;
      previous.next := removed.next;
    }
    removed.next := null;
  }

  /** Unlink the first node with this ID from its bucket. */
  method Unlink(place: Placement, buckets: array<Transfer?>, ghost table: seq<seq<Transfer>>, bucket: nat, id: nat)
    returns (removed: Transfer?, ghost after: seq<seq<Transfer>>)
    requires Placed(place, table) && Rows(buckets, table, 0) && bucket < |table|
    modifies buckets, Nodes(table)`next
    ensures Placed(place, after) && Rows(buckets, after, 0)
    ensures removed == null ==> after == table && forall u :: u in table[bucket] ==> u.sub.id != id
    ensures removed != null ==>
              removed in Nodes(table) && removed.sub.id == id && removed.next == null
                && Nodes(after) == Nodes(table) - {removed}
  {
    assert Linked(buckets[bucket], table[bucket]);
    ghost var i;
    var previous;
    previous, removed, i := FindLink(buckets[bucket], table[bucket], id);
    if removed == null {
      return null, table;
    }
    assert forall t :: t in table[bucket] ==> t in Nodes(table);
    NextRow(place, table, bucket);
    RemoveNode(place, table, bucket, i);
    after := table[bucket := table[bucket][..i] + table[bucket][i + 1..]];
    Splice(buckets, bucket, previous, removed, table[bucket], i);
    forall b | 0 <= b < |table| && b != bucket
      ensures Linked(buckets[b], table[b])
    {
      assert old(Linked(buckets[b], table[b]));
      forall k | 0 <= k < |table[b]|
        ensures table[b][k].next == old(table[b][k].next)
      {
        assert table[b][k] in table[b];
        assert table[b][k] !in table[bucket];
      }
    }
  }

  lemma RemoveNode(place: Placement, table: seq<seq<Transfer>>, bucket: nat, i: nat)
    requires Placed(place, table) && bucket < |table| && i < |table[bucket]|
    ensures var after := table[bucket := table[bucket][..i] + table[bucket][i + 1..]];
            Placed(place, after) && Nodes(after) == Nodes(table) - {table[bucket][i]}
  {
    var removed := table[bucket][i];
    var after := table[bucket := table[bucket][..i] + table[bucket][i + 1..]];
    assert removed in table[bucket];
    NextRow(place, table, bucket);
    forall b | 0 <= b < |after|
      ensures removed !in after[b]
    {
      if b == bucket {
        assert forall k :: 0 <= k < |after[b]| ==> after[b][k] == table[b][if k < i then k else k + 1];
      }
    }
    forall u
      ensures u in Nodes(after) <==> u in Nodes(table) && u != removed
    {
      if u in Nodes(table) && u != removed {
        var b :| 0 <= b < |table| && u in table[b];
        assert u in after[b];
      }
      if u in Nodes(after) {
        var b :| 0 <= b < |after| && u in after[b];
        assert u in table[b];
      }
    }
  }

  lemma ClearRow(place: Placement, table: seq<seq<Transfer>>, index: nat)
    requires Placed(place, table) && index < |table|
    ensures Placed(place, table[index := []])
    ensures Nodes(table[index := []]) == Nodes(table) - Elements(table[index])
  {
    var after := table[index := []];
    NextRow(place, table, index);
    forall u
      ensures u in Nodes(after) <==> u in Nodes(table) && u !in table[index]
    {
      if u in Nodes(table) && u !in table[index] {
        var b :| 0 <= b < |table| && u in table[b];
        assert u in after[b];
      }
      if u in Nodes(after) {
        var b :| 0 <= b < |after| && u in after[b];
        assert u in table[b];
      }
    }
  }

  /** Take a whole chain out of its bucket. */
  method ClearBucket(buckets: array<Transfer?>, ghost table: seq<seq<Transfer>>, index: nat) returns (head: Transfer?)
    requires Rows(buckets, table, 0) && index < |table|
    modifies buckets
    ensures Linked(head, table[index])
    ensures Rows(buckets, table[index := []], 0)
  {
    head := buckets[index];
    assert RowLinked(head, table, index);
    assert forall b :: 0 <= b < |table| && b != index ==> RowLinked(buckets[b], table, b);
    buckets[index] := null;
    forall b | 0 <= b < |table| && b != index
      ensures Linked(buckets[b], table[b])
    {
      assert RowLinked(buckets[b], table, b);
    }
  }

  class TransferRegistry {
    const place: Placement
    var buckets: array?<Transfer?>  // null once destroyed
    var count: nat
    ghost var chains: seq<seq<Transfer>>
    ghost var nodes: set<Transfer>
    ghost var contents: map<nat, Transfer>

    ghost predicate Valid()
      reads this, buckets, nodes`next
    {
      count == |contents| && ValidShape()
    }

    /** Everything but the node count, which shutdown resets only after its walk. */
    ghost predicate ValidShape()
      reads this, buckets, nodes`next
    {
      && (buckets == null ==> contents == map[])
      && (buckets != null ==> buckets.Length == |chains|)
      && forall facet :: Shown(facet) && facet.Table? ==> Agree(nodes, contents) && (buckets != null ==> ValidTable())
    }

    static ghost predicate Agree(nodes: set<Transfer>, contents: map<nat, Transfer>) {
      && (forall t :: t in nodes ==> t.sub.id in contents && contents[t.sub.id] == t)
      && (forall id :: id in contents ==> contents[id] in nodes && contents[id].sub.id == id)
    }

    static lemma AddEntry(nodes: set<Transfer>, contents: map<nat, Transfer>, t: Transfer)
      requires Agree(nodes, contents) && t.sub.id !in contents
      ensures t !in nodes && Agree(nodes + {t}, contents[t.sub.id := t])
      ensures |contents[t.sub.id := t]| == |contents| + 1
    {
    }

    static ghost function Outside(contents: map<nat, Transfer>, chain: seq<Transfer>): map<nat, Transfer> {
      map id | id in contents && contents[id] !in chain :: contents[id]
    }

    static lemma DropChain(nodes: set<Transfer>, contents: map<nat, Transfer>, chain: seq<Transfer>)
      requires Agree(nodes, contents)
      ensures Agree(nodes - Elements(chain), Outside(contents, chain))
    {
    }

    static lemma MissingEntry(contents: map<nat, Transfer>, id: nat)
      requires id !in contents
      ensures contents - {id} == contents
    {
    }

    static lemma DropEntry(nodes: set<Transfer>, contents: map<nat, Transfer>, t: Transfer)
      requires Agree(nodes, contents) && t in nodes
      ensures Agree(nodes - {t}, contents - {t.sub.id})
      ensures |contents - {t.sub.id}| == |contents| - 1
    {
      assert (contents - {t.sub.id}).Keys == contents.Keys - {t.sub.id};
    }

    ghost predicate ValidTable()
      requires buckets != null
      reads this, buckets, nodes`next
    {
      && InRange(place) && IsPow2(buckets.Length) && buckets.Length <= SIZE_MAX
      && Placed(place, chains) && Nodes(chains) == nodes
      && Rows(buckets, chains, 0)
    }

    /** Marking a transfer active or not does not concern the registry. */
    twostate lemma Undisturbed()
      requires old(Valid()) && unchanged(this) && (buckets != null ==> unchanged(buckets))
      requires forall t :: t in nodes ==> t.next == old(t.next)
      ensures Valid()
    {
    }

    constructor (place: Placement)
      requires InRange(place)
      ensures this.place == place
      ensures Valid() && buckets != null && contents == map[] && nodes == {} && fresh(buckets)
    {
      this.place := place;
      buckets := new Transfer?[INITIAL_BUCKET_COUNT](_ => null);
      count := 0;
      chains := seq(INITIAL_BUCKET_COUNT, _ => []);
      nodes := {};
      contents := map[];
      new;
      assert IsPow2(8) && IsPow2(64);
      assert Nodes(chains) == {};
      assert ValidTable();
    }

    method Find(id: nat) returns (t: Transfer?)
      requires Valid()
      ensures t == (if id in contents then contents[id] else null)
    {
      if buckets == null {
        return null;
      }
      assert Shown(Table);
      var bucket := place(id, buckets.Length);
      assert Linked(buckets[bucket], chains[bucket]);
      t := Search(buckets[bucket], chains[bucket], id);
      if id in contents {
        OwnBucket(place, contents[id], chains);
      }
      assert forall u :: u in chains[bucket] ==> u in Nodes(chains);
    }

    /** Allocation of the larger bucket array may fail; the mapping is the same either way. */
    method Resize(memory: bool)
      requires Valid() && buckets != null
      modifies this, nodes`next
      ensures Valid() && contents == old(contents) && nodes == old(nodes)
      ensures buckets == old(buckets) || (fresh(buckets) && buckets != null)
      ensures buckets.Length == if memory && old(buckets.Length) <= SIZE_MAX / 2 then 2 * old(buckets.Length)
              else old(buckets.Length)
    {
      assert Shown(Table);
      if buckets.Length > SIZE_MAX / 2 || !memory {
        return;
      }
      var grown := new Transfer?[2 * buckets.Length](_ => null);
      ghost var table := MoveAll(place, buckets, chains, grown);
      Install(grown, table, nodes, contents, count);
    }

    method Install(heads: array<Transfer?>, ghost table: seq<seq<Transfer>>, ghost members: set<Transfer>,
                   ghost mapping: map<nat, Transfer>, size: nat)
      requires size == |mapping| && Agree(members, mapping)
      requires InRange(place) && IsPow2(heads.Length) && heads.Length <= SIZE_MAX
      requires Placed(place, table) && Nodes(table) == members && Rows(heads, table, 0)
      modifies this
      ensures Valid() && buckets == heads && contents == mapping && nodes == members
    {
      nodes := members;
      contents := mapping;
      chains := table;
      count := size;
      buckets := heads;
      assert Rows(heads, table, 0);
      assert ValidTable();
    }

    /** Rejects a duplicate ID without touching the older entry. */
    method Insert(t: Transfer, memory: bool) returns (inserted: bool)
      requires Valid()
      modifies this, buckets, nodes`next, t`next
      ensures Valid()
      ensures inserted <==> old(buckets) != null && t.sub.id !in old(contents)
      ensures contents == if inserted then old(contents)[t.sub.id := t] else old(contents)
      ensures nodes == if inserted then old(nodes) + {t} else old(nodes)
      ensures buckets == null <==> old(buckets) == null
      ensures buckets == old(buckets) || fresh(buckets)
    {
      var existing := Find(t.sub.id);
      if buckets == null || existing != null {
        return false;
      }
      if buckets.Length <= SIZE_MAX / 2 && count >= buckets.Length * 2 {
        Resize(memory);
      }
      Push(t);
      inserted := true;
    }

    method Push(t: Transfer)
      requires Valid() && buckets != null && t.sub.id !in contents
      modifies this, buckets, t`next
      ensures Valid() && buckets == old(buckets)
      ensures contents == old(contents)[t.sub.id := t]
      ensures nodes == old(nodes) + {t}
    {
      assert Shown(Table);
      AddEntry(nodes, contents, t);
      ghost var table := Hook(place, t, buckets, chains);
      PrependNode(place, t, chains);
      Install(buckets, table, nodes + {t}, contents[t.sub.id := t], count + 1);
    }

    /** Unlinks the node of an ID, wherever it is in its chain. */
    method Remove(id: nat) returns (removed: Transfer?)
      requires Valid()
      modifies this, buckets, nodes`next
      ensures Valid() && buckets == old(buckets)
      ensures removed == (if id in old(contents) then old(contents)[id] else null)
      ensures removed != null ==> removed.next == null
      ensures contents == old(contents) - {id}
      ensures nodes == old(nodes) - (if removed == null then {} else {removed})
    {
      if buckets == null {
        return null;
      }
      assert Shown(Table);
      if id in contents {
        OwnBucket(place, contents[id], chains);
      }
      removed := RemoveFrom(place(id, buckets.Length), id);
    }

    method RemoveFrom(bucket: nat, id: nat) returns (removed: Transfer?)
      requires Valid() && buckets != null && bucket < |chains|
      requires id in contents ==> contents[id] in chains[bucket]
      modifies this, buckets, nodes`next
      ensures Valid() && buckets == old(buckets)
      ensures removed == (if id in old(contents) then old(contents)[id] else null)
      ensures removed != null ==> removed.next == null
      ensures contents == old(contents) - {id}
      ensures nodes == old(nodes) - (if removed == null then {} else {removed})
    {
      ghost var members, mapping := nodes, contents;
      ghost var table;
      removed, table := UnlinkFrom(bucket, id);
      if removed == null {
        MissingEntry(mapping, id);
        Install(buckets, table, members, mapping, count);
      } else {
        DropEntry(members, mapping, removed);
        Install(buckets, table, members - {removed}, mapping - {id}, count - 1);
      }
    }

    /** The chain is relinked; the count and the ghost state are not brought up to date yet. */
    method UnlinkFrom(bucket: nat, id: nat) returns (removed: Transfer?, ghost table: seq<seq<Transfer>>)
      requires Valid() && buckets != null && bucket < |chains|
      requires id in contents ==> contents[id] in chains[bucket]
      modifies buckets, nodes`next
      ensures Agree(nodes, contents) && InRange(place) && IsPow2(buckets.Length) && buckets.Length <= SIZE_MAX
      ensures Placed(place, table) && Rows(buckets, table, 0)
      ensures Nodes(table) == nodes - (if removed == null then {} else {removed})
      ensures removed == (if id in contents then contents[id] else null)
      ensures removed != null ==> removed in nodes && removed.sub.id == id && removed.next == null
    {
      assert Shown(Table);
      removed, table := Unlink(place, buckets, chains, bucket, id);
    }

    /** Shutdown takes each bucket's whole chain and leaves the node count for `Destroy`. */
    method Detach(index: nat) returns (head: Transfer?, ghost chain: seq<Transfer>)
      requires ValidShape() && buckets != null && index < buckets.Length
      modifies this, buckets
      ensures ValidShape() && buckets == old(buckets)
      ensures chain == old(chains)[index] && chains == old(chains)[index := []]
      ensures Linked(head, chain) && NoDuplicates(chain)
      ensures Elements(chain) <= old(nodes) && nodes == old(nodes) - Elements(chain)
      ensures contents == Outside(old(contents), chain)
    {
      head, chain := DetachFrom(index);
      DropChain(nodes, contents, chain);
      nodes := nodes - Elements(chain);
      contents := Outside(contents, chain);
      chains := chains[index := []];
      assert ValidTable();
    }

    /** The bucket is emptied; the ghost state is not brought up to date yet. */
    method DetachFrom(index: nat) returns (head: Transfer?, ghost chain: seq<Transfer>)
      requires ValidShape() && buckets != null && index < buckets.Length
      modifies buckets
      ensures Agree(nodes, contents) && InRange(place) && IsPow2(buckets.Length) && buckets.Length <= SIZE_MAX
      ensures chain == chains[index] && Linked(head, chain) && NoDuplicates(chain) && Elements(chain) <= nodes
      ensures Placed(place, chains[index := []]) && Rows(buckets, chains[index := []], 0)
      ensures Nodes(chains[index := []]) == nodes - Elements(chain)
    {
      assert Shown(Table);
      chain := chains[index];
      assert Elements(chain) <= Nodes(chains);
      ClearRow(place, chains, index);
      head := ClearBucket(buckets, chains, index);
    }

    /** A table of empty chains holds nothing. */
    ghost method EmptyTable()
      requires ValidShape() && buckets != null && (forall b :: 0 <= b < |chains| ==> chains[b] == [])
      ensures nodes == {} && contents == map[]
    {
      assert Shown(Table);
      assert nodes == {};
      assert contents.Keys == {};
    }

    /** Once every chain has been detached. */
    method Destroy()
      requires ValidShape() && buckets != null && (forall b :: 0 <= b < |chains| ==> chains[b] == [])
      modifies this
      ensures Valid() && buckets == null && contents == map[] && nodes == {}
    {
      EmptyTable();
      assert Shown(Table);
      buckets := null;
      count := 0;
    }
  }
}

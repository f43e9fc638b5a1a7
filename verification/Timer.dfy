/**
  The deadline queue: an indexed binary min-heap of intrusive nodes
  (src/kcpmux_timer.c).  A node belongs to the heap, to the due list that an
  update is dispatching, or to neither; `heapIndex` is the back-pointer that
  makes rescheduling and removal possible without a search.
 */
module Timer {

  type Int64 = x: int | -0x8000_0000_0000_0000 <= x < 0x8000_0000_0000_0000

  const SIZE_MAX := 0xFFFF_FFFF_FFFF_FFFF
  const ENTRY_SIZE := 8

  /** Below this many nodes only the allocator can refuse room for another. */
  const AFFORDABLE := SIZE_MAX / ENTRY_SIZE / 2

  const INVALID_INDEX := -1

  datatype NodeState = Idle | InHeap | Due | Running

  datatype Status = OK | OutOfMemory | InvalidParam

  /** Nodes fire by deadline, ties broken by order of insertion. */
  datatype Key = Key(deadline: int, sequence: nat)

  predicate Before(a: Key, b: Key) {
    if a.deadline != b.deadline then a.deadline < b.deadline else a.sequence < b.sequence
  }

  function Parent(i: int): int {
    (i - 1) / 2
  }

  class Node {
    var heapIndex: int
    var deadline: Int64
    var sequence: nat
    var state: NodeState
    var registered: bool  // the node has an owner

    constructor ()
      ensures heapIndex == INVALID_INDEX && deadline == 0 && sequence == 0
      ensures state == Idle && registered
    {
      heapIndex, deadline, sequence := INVALID_INDEX, 0, 0;
      state, registered := Idle, true;
    }

    function Rank(): Key
      reads this`deadline, this`sequence
    {
      Key(deadline, sequence)
    }
  }

  ghost predicate Distinct<T>(s: seq<T>) {
    forall i, j | 0 <= i < j < |s| :: s[i] != s[j]
  }

  /** The elements of `s` appear in the order of their positions `at`. */
  ghost predicate Ascending<T>(s: seq<T>, at: map<T, int>) {
    && (forall i | 0 <= i < |s| :: s[i] in at)
    && (forall i, j | 0 <= i < j < |s| :: at[s[i]] < at[s[j]])
  }

  /** The due list after an unlink. */
  function Without<T(==)>(s: seq<T>, x: T): (r: seq<T>)
    ensures x !in r
    ensures forall y | y in r :: y in s
    ensures forall y | y in s && y != x :: y in r
    ensures x !in s ==> r == s
  {
    if s == [] then [] else if s[0] == x then Without(s[1..], x) else [s[0]] + Without(s[1..], x)
  }

  lemma {:induction false} WithoutIsShorter<T>(s: seq<T>, x: T)
    ensures if x in s then |Without(s, x)| < |s| else |Without(s, x)| == |s|
  {
    if s != [] {
      WithoutIsShorter(s[1..], x);
    }
  }

  lemma {:induction false} WithoutKeepsDistinct<T>(s: seq<T>, x: T)
    requires Distinct(s)
    ensures Distinct(Without(s, x))
  {
    if s != [] {
      WithoutKeepsDistinct(s[1..], x);
      assert s[0] !in s[1..];
    }
  }

  lemma AscendingGrows<T>(x: T, s: seq<T>, at: map<T, int>)
    requires x in at && Ascending(s, at) && forall j | 0 <= j < |s| :: at[x] < at[s[j]]
    ensures Ascending([x] + s, at)
  {
  }

  lemma {:induction false} WithoutKeepsAscending<T>(s: seq<T>, x: T, at: map<T, int>)
    requires Ascending(s, at)
    ensures Ascending(Without(s, x), at)
  {
    if s != [] {
      WithoutKeepsAscending(s[1..], x, at);
      var r := Without(s[1..], x);
      forall j | 0 <= j < |r| ensures r[j] in at && at[s[0]] < at[r[j]] {
        assert r[j] in s[1..];
      }
      AscendingGrows(s[0], r, at);
    }
  }

  // Heap order on the keys listed by position; a sift is a series of exchanges.

  function Exchange<T>(s: seq<T>, i: nat, j: nat): (r: seq<T>)
    requires i < |s| && j < |s|
  {
    s[i := s[j]][j := s[i]]
  }

  ghost predicate HeapOrder(ks: seq<Key>) {
    forall i | 0 < i < |ks| :: !Before(ks[i], ks[Parent(i)])
  }

  /** Heap order, except between position `k` and its children. */
  ghost predicate OrderBelow(ks: seq<Key>, k: nat) {
    && (forall i | 0 < i < |ks| && Parent(i) != k :: !Before(ks[i], ks[Parent(i)]))
    && (forall i | 0 < i < |ks| && Parent(i) == k && 0 < k :: !Before(ks[i], ks[Parent(k)]))
  }

  /** Heap order, except between position `k` and its parent or children. */
  ghost predicate OrderAround(ks: seq<Key>, k: nat) {
    && (forall i | 0 < i < |ks| && i != k && Parent(i) != k :: !Before(ks[i], ks[Parent(i)]))
    && (forall i | 0 < i < |ks| && Parent(i) == k && 0 < k :: !Before(ks[i], ks[Parent(k)]))
  }

  ghost predicate OverChildren(ks: seq<Key>, k: nat)
    requires k < |ks|
  {
    forall i | 0 < i < |ks| && Parent(i) == k :: !Before(ks[i], ks[k])
  }

  lemma ExchangeUp(ks: seq<Key>, k: nat)
    requires 0 < k < |ks| && OrderAround(ks, k) && Before(ks[k], ks[Parent(k)])
    ensures OrderAround(Exchange(ks, k, Parent(k)), Parent(k))
    ensures OverChildren(Exchange(ks, k, Parent(k)), Parent(k))
  {
    var p := Parent(k);
    var r := Exchange(ks, k, p);
    forall i | 0 < i < |ks| && Parent(i) == p ensures !Before(r[i], r[p]) {
      if i != k { assert !Before(ks[i], ks[p]); }
    }
    forall i | 0 < i < |ks| && i != p && Parent(i) != p ensures !Before(r[i], r[Parent(i)]) {
      if Parent(i) == k { assert !Before(ks[i], ks[p]); }
    }
    forall i | 0 < i < |ks| && Parent(i) == p && 0 < p ensures !Before(r[i], r[Parent(p)]) {
      assert !Before(ks[p], ks[Parent(p)]);
      if i != k { assert !Before(ks[i], ks[p]); }
    }
  }

  /** `c` is the child of `k` that fires first. */
  ghost predicate FirstChild(ks: seq<Key>, k: nat, c: nat) {
    && k < c < |ks| && (c == 2 * k + 1 || c == 2 * k + 2)
    && !Before(ks[2 * k + 1], ks[c])
    && (2 * k + 2 < |ks| ==> !Before(ks[2 * k + 2], ks[c]))
  }

  lemma ExchangeDown(ks: seq<Key>, k: nat, c: nat)
    requires FirstChild(ks, k, c) && OrderBelow(ks, k) && Before(ks[c], ks[k])
    ensures OrderBelow(Exchange(ks, k, c), c)
  {
    var r := Exchange(ks, k, c);
    assert Parent(c) == k;
    forall i | 0 < i < |ks| && Parent(i) != c ensures !Before(r[i], r[Parent(i)]) {
      if i == k {
        assert !Before(ks[c], ks[Parent(k)]);
      } else if Parent(i) == k {
        assert i == 2 * k + 1 || i == 2 * k + 2;
      }
    }
    forall i | 0 < i < |ks| && Parent(i) == c ensures !Before(r[i], r[k]) {
      assert !Before(ks[i], ks[c]);
    }
  }

  lemma SettleUp(ks: seq<Key>, k: nat)
    requires k < |ks| && OrderAround(ks, k)
    requires k == 0 || !Before(ks[k], ks[Parent(k)])
    ensures OrderBelow(ks, k)
    ensures OverChildren(ks, k) ==> HeapOrder(ks)
  {
  }

  lemma SettleDown(ks: seq<Key>, k: nat, c: nat)
    requires k < |ks| && OrderBelow(ks, k)
    requires 2 * k + 1 < |ks| ==> FirstChild(ks, k, c) && !Before(ks[c], ks[k])
    ensures HeapOrder(ks)
  {
    forall i | 0 < i < |ks| && Parent(i) == k ensures !Before(ks[i], ks[k]) {
      assert i == 2 * k + 1 || i == 2 * k + 2;
    }
  }

  lemma RekeyDisturbsAround(ks: seq<Key>, k: nat, key: Key)
    requires HeapOrder(ks) && k < |ks|
    ensures OrderAround(ks[k := key], k)
  {
    forall i | 0 < i < |ks| && Parent(i) == k && 0 < k ensures !Before(ks[i], ks[Parent(k)]) {
      assert !Before(ks[i], ks[k]);
    }
  }

  lemma AppendDisturbsAround(ks: seq<Key>, key: Key)
    requires HeapOrder(ks)
    ensures OrderAround(ks + [key], |ks|)
  {
  }

  lemma LastHasNoChildren(ks: seq<Key>)
    requires ks != [] && OrderBelow(ks, |ks| - 1)
    ensures HeapOrder(ks)
  {
  }

  /** The last element takes the place of the one at `k`. */
  function LastInto<T>(s: seq<T>, k: nat): (r: seq<T>)
    requires k < |s|
  {
    var n := |s| - 1;
    if k < n then s[..n][k := s[n]] else s[..n]
  }

  lemma LastIntoDisturbsAround(ks: seq<Key>, k: nat)
    requires HeapOrder(ks) && k < |ks|
    ensures if k < |ks| - 1 then OrderAround(LastInto(ks, k), k) else HeapOrder(LastInto(ks, k))
  {
    var n := |ks| - 1;
    assert HeapOrder(ks[..n]);
    if k < n {
      RekeyDisturbsAround(ks[..n], k, ks[n]);
    }
  }

  /** Nothing in a heap fires before its root, and whatever has another key fires after it. */
  lemma {:induction false} RootFiresFirst(ks: seq<Key>, i: nat)
    requires HeapOrder(ks) && i < |ks|
    ensures !Before(ks[i], ks[0])
    ensures ks[i] != ks[0] ==> Before(ks[0], ks[i])
    ensures ks[0].deadline < ks[i].deadline || (ks[0].deadline == ks[i].deadline && ks[0].sequence <= ks[i].sequence)
    decreases i
  {
    if i != 0 {
      RootFiresFirst(ks, Parent(i));
      assert !Before(ks[i], ks[Parent(i)]);
    }
  }

  class Manager {
    var heap: array<Node?>  // its length is the capacity
    var size: nat
    var nextSequence: nat
    var due: seq<Node>
    ghost var items: seq<Node>  // the heap by position
    ghost var ranks: seq<Key>  // and the keys of its nodes
    var nodes: set<Node>  // every node this manager may be asked about

    /** Back-pointers agree with the array, and the heap holds exactly the nodes that say so. */
    ghost predicate Linked()
      reads this, heap, nodes
    {
      && |items| == size <= heap.Length
      && (forall i | 0 <= i < size :: heap[i] == items[i])
      && (forall i | 0 <= i < size :: items[i] in nodes)
      && (forall i | 0 <= i < size :: items[i].state == InHeap && items[i].heapIndex == i)
      && |ranks| == size && (forall i | 0 <= i < size :: ranks[i] == items[i].Rank())
      && (forall n | n in nodes && n.state == InHeap :: n in items)
    }

    ghost predicate Stamped()
      reads this`nodes, this`nextSequence, nodes`state, nodes`sequence
    {
      && (forall n | n in nodes && n.state == InHeap :: n.sequence < nextSequence)
      && (forall n, m | n in nodes && m in nodes && n != m && n.state == InHeap && m.state == InHeap ::
            n.sequence != m.sequence)
    }

    ghost predicate DueLinked()
      reads this`nodes, this`due, nodes`state
    {
      && (forall n | n in due :: n in nodes && n.state == Due)
      && Distinct(due)
      && (forall n | n in nodes && n.state == Due :: n in due)
    }

    ghost predicate Valid()
      reads this, heap, nodes
    {
      Linked() && Stamped() && DueLinked() && HeapOrder(ranks)
    }

    constructor ()
      ensures Valid() && size == 0 && due == [] && nodes == {} && nextSequence == 0
      ensures heap.Length == 0 && fresh(heap)
    {
      heap := new Node?[0];
      size, nextSequence, due, nodes, items, ranks := 0, 0, [], {}, [], [];
    }

    method Set(index: nat, node: Node)
      requires index < heap.Length
      modifies heap, node`heapIndex
      ensures heap[index] == node && node.heapIndex == index
      ensures forall i | 0 <= i < heap.Length && i != index :: heap[i] == old(heap[i])
    {
      heap[index] := node;
      node.heapIndex := index;
    }

    /** Linked, except that the array has a hole at `hole` where `items` has its element. */
    ghost predicate LinkedAround(hole: nat)
      reads this, heap, nodes
    {
      && hole < |items| == size <= heap.Length
      && (forall i | 0 <= i < size :: items[i] in nodes && items[i].state == InHeap)
      && (forall i | 0 <= i < size && i != hole :: heap[i] == items[i] && items[i].heapIndex == i)
      && (forall i | 0 <= i < size && i != hole :: items[i] != items[hole])
      && |ranks| == size && (forall i | 0 <= i < size :: ranks[i] == items[i].Rank())
      && (forall n | n in nodes && n.state == InHeap :: n in items)
    }

    /** One step of a sift: the element at `other` moves into the hole. */
    method MoveHole(hole: nat, other: nat)
      requires LinkedAround(hole) && other < size && other != hole
      modifies this`items, this`ranks, heap, nodes`heapIndex
      ensures LinkedAround(other)
      ensures items == Exchange(old(items), hole, other)
      ensures ranks == Exchange(old(ranks), hole, other)
    {
      Set(hole, heap[other]);
      items, ranks := Exchange(items, hole, other), Exchange(ranks, hole, other);
      forall n | n in nodes && n.state == InHeap ensures n in items {
        var i :| 0 <= i < size && old(items)[i] == n;
        assert items[if i == hole then other else if i == other then hole else i] == n;
      }
    }

    method FillHole(hole: nat, node: Node)
      requires LinkedAround(hole) && node == items[hole]
      modifies heap, nodes`heapIndex
      ensures Linked()
    {
      Set(hole, node);
    }

    method SiftUp(start: nat) returns (index: nat)
      requires Linked() && start < size && OrderAround(ranks, start)
      modifies this`items, this`ranks, heap, nodes`heapIndex
      ensures Linked() && index <= start && items[index] == old(items[start])
      ensures OrderBelow(ranks, index)
      ensures index != start ==> HeapOrder(ranks)
    {
      var node := heap[start];
      index := start;
      while index > 0
        invariant index <= start && LinkedAround(index) && items[index] == node
        invariant OrderAround(ranks, index)
        invariant index != start ==> OverChildren(ranks, index)
      {
        var parent := (index - 1) / 2;
        if !Before(node.Rank(), heap[parent].Rank()) {
          break;
        }
        ExchangeUp(ranks, index);
        MoveHole(index, parent);
        index := parent;
      }
      SettleUp(ranks, index);
      FillHole(index, node);
    }

    /** The child to compare with the hole's element: either it may move up, or the hole may be filled. */
    method SmallerChild(hole: nat) returns (child: nat)
      requires LinkedAround(hole) && 2 * hole + 1 < size && OrderBelow(ranks, hole)
      ensures hole < child < size
      ensures if Before(heap[child].Rank(), items[hole].Rank())
              then OrderBelow(Exchange(ranks, hole, child), child) else HeapOrder(ranks)
    {
      var left := hole * 2 + 1;
      var right := left + 1;
      child := left;
      if right < size && Before(heap[right].Rank(), heap[left].Rank()) {
        child := right;
      }
      assert FirstChild(ranks, hole, child);
      if Before(ranks[child], ranks[hole]) {
        ExchangeDown(ranks, hole, child);
      } else {
        SettleDown(ranks, hole, child);
      }
    }

    method SiftDown(start: nat)
      requires Linked() && start < size && OrderBelow(ranks, start)
      modifies this`items, this`ranks, heap, nodes`heapIndex
      ensures Linked() && HeapOrder(ranks)
    {
      var node := heap[start];
      var index := start;
      while true
        invariant LinkedAround(index) && items[index] == node
        invariant OrderBelow(ranks, index)
        decreases size - index
      {
        if index * 2 + 1 >= size {
          SettleDown(ranks, index, 0);
          break;
        }
        var child := SmallerChild(index);
        if !Before(heap[child].Rank(), node.Rank()) {
          break;
        }
        MoveHole(index, child);
        index := child;
      }
      FillHole(index, node);
    }

    /** Restores heap order after the key at `index` changed. */
    method Resettle(index: nat)
      requires Linked() && index < size && OrderAround(ranks, index)
      modifies this`items, this`ranks, heap, nodes`heapIndex
      ensures Linked() && HeapOrder(ranks)
    {
      var at := SiftUp(index);
      SiftDown(at);
    }

    /** Unlinks the node at `index`, putting the last one in its place. */
    method Unlink(index: nat) returns (removed: Node)
      requires Linked() && index < size
      modifies this`size, this`items, this`ranks, heap, nodes`heapIndex, {items[index]}`state
      ensures Linked() && size == old(size) - 1
      ensures removed == old(items)[index] && removed.state == Idle
      ensures ranks == LastInto(old(ranks), index)
    {
      removed := heap[index];
      size := size - 1;
      var last := heap[size];
      removed.state := Idle;
      items, ranks := LastInto(items, index), LastInto(ranks, index);
      if index < size {
        Set(index, last);
      }
    }

    method RemoveAt(index: nat) returns (removed: Node)
      requires Linked() && HeapOrder(ranks) && index < size
      modifies this`size, this`items, this`ranks, heap, nodes`heapIndex, {items[index]}`state
      ensures Linked() && HeapOrder(ranks) && size == old(size) - 1
      ensures removed == old(items)[index] && removed.state == Idle && removed.heapIndex == INVALID_INDEX
    {
      LastIntoDisturbsAround(ranks, index);
      removed := Unlink(index);
      if index < size {
        Resettle(index);
      }
      heap[size] := null;
      removed.heapIndex := INVALID_INDEX;
    }

    /**
      Grows the array by doubling so that it can hold `capacity` nodes.
      `allocates` says whether the allocator would serve the request.
     */
    method Reserve(capacity: nat, allocates: bool) returns (r: Status)
      requires Valid() && heap.Length <= SIZE_MAX && capacity <= SIZE_MAX
      modifies this`heap
      ensures Valid() && r != InvalidParam
      ensures capacity <= old(heap.Length) || (allocates && capacity < AFFORDABLE) ==> r == OK
      ensures !allocates && old(heap.Length) < capacity ==> r == OutOfMemory
      ensures capacity <= old(heap.Length) || r != OK ==> heap == old(heap)
      ensures r == OK ==> capacity <= heap.Length <= SIZE_MAX && (heap == old(heap) || fresh(heap))
    {
      if capacity <= heap.Length {
        return OK;
      }
      var newCapacity := if heap.Length != 0 then heap.Length else 8;
      while newCapacity < capacity
        invariant 0 < newCapacity <= SIZE_MAX && (newCapacity <= 8 || newCapacity < 2 * capacity)
      {
        if newCapacity > SIZE_MAX / 2 {
          newCapacity := capacity;
          break;
        }
        newCapacity := newCapacity * 2;
      }
      if newCapacity > SIZE_MAX / ENTRY_SIZE || !allocates {
        return OutOfMemory;
      }
      var grown := new Node?[newCapacity];
      forall i | 0 <= i < heap.Length {
        grown[i] := heap[i];
      }
      heap := grown;
      return OK;
    }

    /** Gives a node that is already in the heap another deadline; it keeps its place among equals. */
    method Reschedule(node: Node, deadline: Int64)
      requires Linked() && HeapOrder(ranks) && node in nodes && node.state == InHeap
      modifies this`items, this`ranks, heap, nodes`heapIndex, node`deadline
      ensures Linked() && HeapOrder(ranks) && node.deadline == deadline
    {
      var index := node.heapIndex;
      RekeyDisturbsAround(ranks, index, Key(deadline, node.sequence));
      node.deadline := deadline;
      ranks := ranks[index := node.Rank()];
      Resettle(index);
    }

    method UnlinkDue(node: Node)
      requires Valid() && node in nodes && node.state == Due
      modifies this`due, node`state
      ensures Valid() && due == Without(old(due), node) && node.state == Idle
    {
      WithoutKeepsDistinct(due, node);
      due := Without(due, node);
      node.state := Idle;
    }

    /** Stamps a node as the youngest. */
    method Stamp(node: Node, deadline: Int64)
      requires node.state != InHeap && Stamped()
      modifies this`nextSequence, node`deadline, node`sequence
      ensures Stamped() && nextSequence == old(nextSequence) + 1
      ensures node.Rank() == Key(deadline, old(nextSequence))
      ensures forall n | n in nodes && n.state == InHeap :: n.sequence < node.sequence
    {
      node.deadline := deadline;
      node.sequence := nextSequence;
      nextSequence := nextSequence + 1;
    }

    /** Links a node in as the last one. */
    method Append(node: Node)
      requires Linked() && size < heap.Length && node in nodes && node.state != InHeap
      modifies this`size, this`items, this`ranks, heap, node`state, node`heapIndex
      ensures Linked() && size == old(size) + 1 && node.state == InHeap
      ensures ranks == old(ranks) + [node.Rank()]
    {
      node.state := InHeap;
      Set(size, node);
      items, ranks := items + [node], ranks + [node.Rank()];
      size := size + 1;
    }

    /** Links a node in as the last one and lets it rise. */
    method Place(node: Node)
      requires Linked() && HeapOrder(ranks) && size < heap.Length && node in nodes && node.state != InHeap
      modifies this`size, this`items, this`ranks, heap, nodes`heapIndex, node`state
      ensures Linked() && HeapOrder(ranks) && size == old(size) + 1 && node.state == InHeap
    {
      AppendDisturbsAround(ranks, node.Rank());
      Append(node);
      var at := SiftUp(size - 1);
      if at == size - 1 {
        LastHasNoChildren(ranks);
      }
    }

    method Insert(node: Node, deadline: Int64)
      requires Valid() && size < heap.Length
      requires node in nodes && node.state != InHeap && node.state != Due
      modifies this`size, this`items, this`ranks, this`nextSequence, heap, nodes`heapIndex
      modifies node`deadline, node`sequence, node`state
      ensures Valid() && size == old(size) + 1 && nextSequence == old(nextSequence) + 1
      ensures node.state == InHeap && node.Rank() == Key(deadline, old(nextSequence))
    {
      Stamp(node, deadline);
      Place(node);
    }

    method Schedule(node: Node, deadline: Int64, allocates: bool) returns (r: Status)
      requires Valid() && node in nodes && heap.Length <= SIZE_MAX && (node.state != InHeap ==> size < SIZE_MAX)
      modifies this, heap, nodes`heapIndex, node`deadline, node`sequence, node`state
      ensures Valid() && nodes == old(nodes) && heap.Length <= SIZE_MAX
      ensures heap == old(heap) || fresh(heap)
      ensures old(node.state == InHeap || size < heap.Length) ==> r == OK && heap == old(heap)
      ensures r == OK ==>
        && node.state == InHeap && node.deadline == deadline
        && due == Without(old(due), node)
        && if old(node.state) == InHeap
           then node.sequence == old(node.sequence) && nextSequence == old(nextSequence) && size == old(size)
           else node.sequence == old(nextSequence) && nextSequence == old(nextSequence) + 1 && size == old(size) + 1
      ensures r != OK ==>
        && node.state == old(node.state) && node.deadline == old(node.deadline)
        && due == old(due) && size == old(size) && nextSequence == old(nextSequence)
    {
      if node.state == InHeap {
        Reschedule(node, deadline);
        return OK;
      }
      r := Reserve(size + 1, allocates);
      if r != OK {
        return r;
      }
      if node.state == Due {
        UnlinkDue(node);
      }
      Insert(node, deadline);
    }

    method Cancel(node: Node)
      requires Valid() && node in nodes
      modifies this`size, this`items, this`ranks, this`due, heap, nodes`heapIndex, node`state
      ensures Valid() && node.state == Idle && due == Without(old(due), node)
      ensures size == if old(node.state) == InHeap then old(size) - 1 else old(size)
    {
      if node.state == InHeap {
        var removed := RemoveAt(node.heapIndex);
      } else if node.state == Due {
        UnlinkDue(node);
      }
      node.state := Idle;
    }

    /** The root is the node that fires before every other scheduled one. */
    method Peek() returns (node: Node?)
      requires Valid()
      ensures node == null <==> size == 0
      ensures node != null ==> node == heap[0] && node in nodes && node.state == InHeap
      ensures node != null ==>
        forall n | n in nodes && n.state == InHeap && n != node ::
          && Before(node.Rank(), n.Rank())
          && (node.deadline < n.deadline || (node.deadline == n.deadline && node.sequence < n.sequence))
    {
      if size == 0 {
        return null;
      }
      node := heap[0];
      forall n | n in nodes && n.state == InHeap && n != node
        ensures Before(node.Rank(), n.Rank())
        ensures node.deadline < n.deadline || (node.deadline == n.deadline && node.sequence < n.sequence)
      {
        RootFiresFirst(ranks, n.heapIndex);
      }
    }

    /** Moves the root to the end of the due list. */
    method PopDue() returns (node: Node)
      requires Valid() && size > 0
      modifies this`size, this`items, this`ranks, this`due, heap, nodes`heapIndex, {items[0]}`state
      ensures Valid() && size == old(size) - 1
      ensures node == old(items)[0] && old(node.state) == InHeap && node.state == Due && due == old(due) + [node]
      ensures forall n | n in nodes && n.state == InHeap :: Before(node.Rank(), n.Rank())
    {
      hide Before, Valid;
      node := PopRoot();
      LinkDue(node);
    }

    method PopRoot() returns (node: Node)
      requires Valid() && size > 0
      modifies this`size, this`items, this`ranks, heap, nodes`heapIndex, {items[0]}`state
      ensures Valid() && size == old(size) - 1
      ensures node == old(items)[0] && node in nodes && old(node.state) == InHeap && node.state == Idle
      ensures forall n | n in nodes && n.state == InHeap :: Before(node.Rank(), n.Rank())
    {
      hide Before, HeapOrder;
      var root := Peek();
      node := RemoveAt(0);
    }

    method LinkDue(node: Node)
      requires Valid() && node in nodes && node.state == Idle
      modifies this`due, node`state
      ensures Valid() && node.state == Due && due == old(due) + [node]
    {
      hide HeapOrder;
      node.state := Due;
      due := due + [node];
    }

    ghost predicate DueInOrder()
      reads this`due, due`deadline, due`sequence
    {
      forall i, j | 0 <= i < j < |due| :: Before(due[i].Rank(), due[j].Rank())
    }

    ghost predicate DueBeforeHeap()
      reads this`due, this`nodes, due, nodes
    {
      forall n, m | n in due && m in nodes && m.state == InHeap :: Before(n.Rank(), m.Rank())
    }

    method CollectFirst() returns (node: Node)
      requires Valid() && DueInOrder() && DueBeforeHeap() && size > 0
      modifies this`size, this`items, this`ranks, this`due, heap, nodes`heapIndex, {items[0]}`state
      ensures Valid() && DueInOrder() && DueBeforeHeap() && size == old(size) - 1
      ensures node == old(items)[0] && old(node.state) == InHeap && due == old(due) + [node]
    {
      node := PopDue();
    }

    /** Moves exactly what is due at `now` to the due list, in firing order. */
    method CollectDue(now: int)
      requires Valid() && due == []
      modifies this`size, this`items, this`ranks, this`due, heap, nodes`heapIndex, nodes`state
      ensures Valid() && DueInOrder() && size <= old(size)
      ensures forall i, j | 0 <= i < j < |due| ::
        || due[i].deadline < due[j].deadline
        || (due[i].deadline == due[j].deadline && due[i].sequence < due[j].sequence)
      ensures forall n | n in nodes :: n in due <==> old(n.state) == InHeap && n.deadline <= now
      ensures forall n | n in nodes && n !in due :: n.state == old(n.state)
    {
      while size > 0 && heap[0].deadline <= now
        invariant Valid() && DueInOrder() && DueBeforeHeap() && size <= old(size)
        invariant forall n | n in nodes :: if n in due then old(n.state) == InHeap && n.deadline <= now else n.state == old(n.state)
        decreases size
      {
        var node := CollectFirst();
      }
      var root := Peek();
    }

    /** Hands out the first due node. */
    method StartFirst() returns (node: Node)
      requires Valid() && due != []
      modifies this`due, {due[0]}`state
      ensures Valid() && node == old(due)[0] && node.state == Running && due == old(due)[1..]
    {
      node := due[0];
      due := due[1..];
      node.state := Running;
      assert old(due) == [node] + due;
    }

    /** Takes charge of a new node. */
    method Adopt(node: Node)
      requires Valid() && node !in nodes && node.state == Idle
      modifies this`nodes
      ensures Valid() && nodes == old(nodes) + {node}
    {
      nodes := nodes + {node};
    }
  }
}

/**
  The engine's use of the deadline queue (src/kcpmux_engine.c): registration
  that reserves room for every owner, the one-shot host timer that follows the
  root, the operation bracket, and the dispatch loop of an update.
 */
module Scheduler {
  import opened Timer

  const TWO_64 := 0x1_0000_0000_0000_0000

  /** Conversion of a signed clock value to uint64_t. */
  function AsUnsigned(x: Int64): (u: nat)
    ensures u < TWO_64 && (u == x || u == x + TWO_64)
  {
    if x < 0 then x + TWO_64 else x
  }

  /** Subtraction of unsigned 64-bit values. */
  function SubtractUnsigned(a: nat, b: nat): (d: nat)
    requires a < TWO_64 && b < TWO_64
  {
    if b <= a then a - b else a - b + TWO_64
  }

  /** The delay asked from the host for a deadline, computed as the engine computes it. */
  function Delay(deadline: Int64, now: Int64): (delay: nat)
    ensures delay == if deadline <= now then 0 else deadline - now
  {
    if deadline <= now then 0 else SubtractUnsigned(AsUnsigned(deadline), AsUnsigned(now))
  }

  lemma {:induction false} DistinctFit<T>(s: seq<T>, bound: set<T>)
    requires Distinct(s) && forall x | x in s :: x in bound
    ensures |s| <= |bound|
  {
    if s != [] {
      assert s[0] !in s[1..];
      DistinctFit(s[1..], bound - {s[0]});
    }
  }

  /** What happens to nodes during an update: a callback is run, or one acts on a node. */
  datatype Happening<T> = Called(node: T) | Acted(node: T)

  /** The trace `t` takes the due list from `d` to `e`: calls take its head, and a node that is acted on leaves it. */
  ghost predicate Replays<T>(d: seq<T>, t: seq<Happening<T>>, e: seq<T>)
    decreases |t|
  {
    if t == [] then d == e
    else if t[0].Called? then d != [] && d[0] == t[0].node && Replays(d[1..], t[1..], e)
    else Replays(Without(d, t[0].node), t[1..], e)
  }

  /** The callbacks run, in order. */
  ghost function Calls<T>(t: seq<Happening<T>>): seq<T> {
    if t == [] then [] else (if t[0].Called? then [t[0].node] else []) + Calls(t[1..])
  }

  /** `n` was acted on before its callback had its turn. */
  ghost predicate ActedFirst<T>(t: seq<Happening<T>>, n: T) {
    t != [] && if t[0].node == n then t[0].Acted? else ActedFirst(t[1..], n)
  }

  lemma {:induction false} CallsJoin<T>(t: seq<Happening<T>>, u: seq<Happening<T>>)
    ensures Calls(t + u) == Calls(t) + Calls(u)
  {
    if t == [] {
      assert [] + u == u;
    } else {
      assert (t + u)[1..] == t[1..] + u;
      CallsJoin(t[1..], u);
    }
  }

  lemma {:induction false} ReplaysOn<T>(d: seq<T>, t: seq<Happening<T>>, e: seq<T>, u: seq<Happening<T>>, f: seq<T>)
    requires Replays(d, t, e) && Replays(e, u, f)
    ensures Replays(d, t + u, f)
    decreases |t|
  {
    if t == [] {
      assert [] + u == u;
    } else {
      assert (t + u)[1..] == t[1..] + u;
      if t[0].Called? {
        ReplaysOn(d[1..], t[1..], e, u, f);
      } else {
        ReplaysOn(Without(d, t[0].node), t[1..], e, u, f);
      }
    }
  }

  lemma OneActed<T>(d: seq<T>, n: T)
    ensures Replays(d, [Acted(n)], Without(d, n)) && Calls([Acted(n)]) == []
  {
  }

  lemma OneCalled<T>(d: seq<T>)
    requires d != []
    ensures Replays(d, [Called(d[0])], d[1..]) && Calls([Called(d[0])]) == [d[0]]
  {
  }

  lemma HeadCalled<T>(d: seq<T>, rest: seq<Happening<T>>, e: seq<T>, before: seq<Happening<T>>)
    requires d != [] && Replays(d[1..], rest, e) && Calls(rest) == []
    ensures var t := [Called(d[0])] + rest;
      Replays(d, t, e) && |Calls(t)| == 1 && before + t == before + [Called(d[0])] + rest
  {
    assert ([Called(d[0])] + rest)[1..] == rest;
  }

  lemma {:induction false} ReplayShrinks<T>(d: seq<T>, t: seq<Happening<T>>, e: seq<T>)
    requires Replays(d, t, e)
    ensures |e| + |Calls(t)| <= |d|
    decreases |t|
  {
    if t != [] {
      if t[0].Called? {
        ReplayShrinks(d[1..], t[1..], e);
      } else {
        WithoutIsShorter(d, t[0].node);
        ReplayShrinks(Without(d, t[0].node), t[1..], e);
      }
    }
  }

  /** Callbacks run in the order of the due list, each at most once. */
  lemma {:induction false} CallsInOrder<T>(d: seq<T>, t: seq<Happening<T>>, e: seq<T>, at: map<T, int>)
    requires Replays(d, t, e) && Ascending(d, at)
    ensures Ascending(Calls(t), at) && forall n | n in Calls(t) :: n in d
    decreases |t|
  {
    if t == [] {
    } else if t[0].Called? {
      CallsInOrder(d[1..], t[1..], e, at);
      var calls := Calls(t[1..]);
      forall j | 0 <= j < |calls| ensures at[d[0]] < at[calls[j]] {
        assert calls[j] in calls;
      }
      AscendingGrows(d[0], calls, at);
    } else {
      WithoutKeepsAscending(d, t[0].node, at);
      CallsInOrder(Without(d, t[0].node), t[1..], e, at);
    }
  }

  /** Once nothing is due any more, a node's callback has run if and only if nothing acted on it before its turn. */
  lemma {:induction false} RanUnlessActedOn<T>(d: seq<T>, t: seq<Happening<T>>, n: T)
    requires Replays(d, t, []) && Distinct(d) && n in d
    ensures n in Calls(t) <==> !ActedFirst(t, n)
    decreases |t|
  {
    if t == [] {
    } else if t[0].Called? {
      if n != d[0] {
        RanUnlessActedOn(d[1..], t[1..], n);
      }
    } else if n != t[0].node {
      WithoutKeepsDistinct(d, t[0].node);
      RanUnlessActedOn(Without(d, t[0].node), t[1..], n);
    } else {
      NeverRuns(Without(d, n), t[1..], [], n);
    }
  }

  lemma {:induction false} NeverRuns<T>(d: seq<T>, t: seq<Happening<T>>, e: seq<T>, n: T)
    requires Replays(d, t, e) && n !in d
    ensures n !in Calls(t)
    decreases |t|
  {
    if t != [] {
      NeverRuns(if t[0].Called? then d[1..] else Without(d, t[0].node), t[1..], e, n);
    }
  }

  class Scheduler {
    const timers: Manager
    var timerNodeCount: nat
    var armed: bool
    var armedDeadline: Int64
    var operationDepth: nat
    var dispatchCount: nat
    var requests: seq<nat>  // delays passed to set_timer, in order
    ghost var owners: set<Node>  // the registered nodes
    ghost var trace: seq<Happening<Node>>  // what updates have done

    /** Room is reserved for every registered node, and only those are ever scheduled. */
    ghost predicate Booked()
      reads this`timerNodeCount, this`owners, timers`heap
      reads timers`nodes, timers.nodes`registered, timers.nodes`state
    {
      && timerNodeCount == |owners| <= timers.heap.Length <= SIZE_MAX
      && owners <= timers.nodes
      && (forall n | n in timers.nodes :: n.registered <==> n in owners)
      && (forall n | n in timers.nodes && n.state != Idle :: n in owners)
    }

    ghost predicate Reserved()
      reads this`timerNodeCount, this`owners, timers, timers.heap, timers.nodes
    {
      timers.Valid() && Booked()
    }

    /** Outside operations the host timer is set for the root. */
    ghost predicate HostAgrees()
      requires timers.Valid()
      reads this, timers, timers.heap, timers.nodes
    {
      operationDepth == 0 && timers.size > 0 ==> armed && armedDeadline == timers.heap[0].deadline
    }

    constructor ()
      ensures Reserved() && HostAgrees() && fresh(timers) && fresh(timers.heap)
      ensures timers.nodes == {} && timers.due == [] && operationDepth == 0 && requests == []
    {
      timers := new Manager();
      timerNodeCount, armed, armedDeadline, operationDepth, dispatchCount, requests := 0, false, 0, 0, 0, [];
      owners, trace := {}, [];
    }

    /** Why scheduling cannot fail: an unscheduled registered node finds room. */
    lemma RoomForOneMore(node: Node)
      requires Reserved() && node in timers.nodes && node.registered
      ensures timers.size <= timerNodeCount
      ensures node.state != InHeap ==> timers.size < timerNodeCount
    {
      var items := timers.items;
      assert Distinct(items);
      DistinctFit(items, owners);
      if node.state != InHeap {
        assert node !in items;
        DistinctFit(items, owners - {node});
      }
    }

    lemma HeapFits()
      requires Reserved()
      ensures timers.size <= timerNodeCount <= timers.heap.Length
    {
      var items := timers.items;
      assert Distinct(items);
      DistinctFit(items, owners);
    }

    /** No node in the queue has an earlier deadline than the root. */
    lemma RootIsEarliest(node: Node)
      requires Reserved() && node in timers.nodes && node.state == InHeap
      ensures timers.size > 0 && timers.heap[0].deadline <= node.deadline
    {
      RootFiresFirst(timers.ranks, node.heapIndex);
    }

    method RearmTimer(now: Int64)
      requires timers.Valid()
      modifies this`armed, this`armedDeadline, this`requests
      ensures HostAgrees()
      ensures operationDepth > 0 || timers.size == 0 || old(armed && armedDeadline == timers.heap[0].deadline)
              ==> armed == old(armed) && armedDeadline == old(armedDeadline) && requests == old(requests)
      ensures operationDepth == 0 && timers.size > 0 && !old(armed && armedDeadline == timers.heap[0].deadline)
              ==> requests == old(requests) + [Delay(timers.heap[0].deadline, now)]
    {
      if operationDepth > 0 {
        return;
      }
      var root := timers.Peek();
      if root == null {
        return;
      }
      var deadline := root.deadline;
      if armed && armedDeadline == deadline {
        return;
      }
      armed := true;
      armedDeadline := deadline;
      requests := requests + [Delay(deadline, now)];
    }

    method Enlist(node: Node)
      requires Reserved() && timerNodeCount < timers.heap.Length
      requires node !in timers.nodes && node.state == Idle && node.registered
      modifies this`timerNodeCount, this`owners, timers`nodes
      ensures Reserved() && timers.nodes == old(timers.nodes) + {node} && timerNodeCount == old(timerNodeCount) + 1
      ensures owners == old(owners) + {node}
    {
      timers.Adopt(node);
      owners := owners + {node};
      timerNodeCount := timerNodeCount + 1;
    }

    /** Registration reserves the room that later scheduling will use. */
    method RegisterNode(allocates: bool) returns (r: Status, node: Node?)
      requires Reserved() && HostAgrees()
      modifies this`timerNodeCount, this`owners, timers`heap, timers`nodes
      ensures Reserved() && HostAgrees() && (timers.heap == old(timers.heap) || fresh(timers.heap))
      ensures if r == OK
              then node != null && fresh(node) && timers.nodes == old(timers.nodes) + {node}
                   && node.registered && node.state == Idle && node.deadline == 0 && owners == old(owners) + {node}
                   && timerNodeCount == old(timerNodeCount) + 1
              else node == null && owners == old(owners) && timers.nodes == old(timers.nodes) && timerNodeCount == old(timerNodeCount)
      ensures allocates && old(timerNodeCount) + 1 < AFFORDABLE ==> r == OK
    {
      node := null;
      if timerNodeCount > SIZE_MAX - 2 {
        return OutOfMemory, null;
      }
      r := timers.Reserve(timerNodeCount + 1, allocates);
      if r == OK {
        var added := new Node();
        Enlist(added);
        node := added;
      }
    }

    method Discharge(node: Node)
      requires Reserved() && node in timers.nodes && node.state == Idle && node.registered
      modifies this`timerNodeCount, this`owners, node`registered
      ensures Reserved() && !node.registered && timerNodeCount == old(timerNodeCount) - 1 && owners == old(owners) - {node}
    {
      node.registered := false;
      owners := owners - {node};
      if timerNodeCount > 0 {
        timerNodeCount := timerNodeCount - 1;
      }
    }

    method UnregisterNode(node: Node, now: Int64)
      requires Reserved() && HostAgrees() && node in timers.nodes
      modifies this`timerNodeCount, this`owners, this`armed, this`armedDeadline, this`requests
      modifies timers`size, timers`items, timers`ranks, timers`due, timers.heap, timers.nodes`heapIndex
      modifies node`state, node`registered
      ensures Reserved() && HostAgrees()
      ensures !node.registered && timers.due == Without(old(timers.due), node)
      ensures old(node.registered) ==> node.state == Idle && timerNodeCount == old(timerNodeCount) - 1
      ensures owners == if old(node.registered) then old(owners) - {node} else old(owners)
      ensures operationDepth > 0 ==> armed == old(armed) && requests == old(requests)
    {
      if !node.registered {
        return;
      }
      timers.Cancel(node);
      Discharge(node);
      RearmTimer(now);
    }

    /** A registered node is always scheduled, whatever the allocator would answer. */
    method ScheduleNode(node: Node, deadline: Int64, now: Int64, allocates: bool) returns (r: Status)
      requires Reserved() && HostAgrees() && node in timers.nodes
      modifies this`armed, this`armedDeadline, this`requests
      modifies timers, timers.heap, timers.nodes`heapIndex, node`deadline, node`sequence, node`state
      ensures Reserved() && timers.nodes == old(timers.nodes) && timers.heap == old(timers.heap)
      ensures r == if old(node.registered) then OK else InvalidParam
      ensures HostAgrees()
      ensures r == OK ==> node.state == InHeap && node.deadline == if deadline < now then now else deadline
      ensures r == OK ==> timers.due == Without(old(timers.due), node)
      ensures r != OK ==> timers.due == old(timers.due) && node.state == old(node.state) && node.deadline == old(node.deadline)
      ensures operationDepth > 0 ==> armed == old(armed) && requests == old(requests)
    {
      if !node.registered {
        return InvalidParam;
      }
      RoomForOneMore(node);
      r := timers.Schedule(node, if deadline < now then now else deadline, allocates);
      if r == OK {
        RearmTimer(now);
      }
    }

    method CancelNode(node: Node, now: Int64)
      requires Reserved() && HostAgrees() && node in timers.nodes
      modifies this`armed, this`armedDeadline, this`requests
      modifies timers`size, timers`items, timers`ranks, timers`due, timers.heap, timers.nodes`heapIndex, node`state
      ensures Reserved() && HostAgrees() && node.state == Idle && timers.due == Without(old(timers.due), node)
      ensures operationDepth > 0 ==> armed == old(armed) && requests == old(requests)
    {
      hide Before, HeapOrder, timers.Stamped, timers.DueLinked;
      timers.Cancel(node);
      RearmTimer(now);
    }

    method OperationEnter()
      modifies this`operationDepth
      ensures operationDepth == old(operationDepth) + 1
    {
      operationDepth := operationDepth + 1;
    }

    /** Only the outermost leave looks at the root again. */
    method OperationLeave(now: Int64)
      requires Reserved() && HostAgrees()
      modifies this`operationDepth, this`armed, this`armedDeadline, this`requests
      ensures Reserved() && HostAgrees()
      ensures operationDepth == if old(operationDepth) == 0 then 0 else old(operationDepth) - 1
      ensures old(operationDepth) == 1 && timers.size > 0 && !old(armed) ==>
        requests == old(requests) + [Delay(timers.heap[0].deadline, now)]
      ensures old(operationDepth) != 1 || timers.size == 0 ==> requests == old(requests)
    {
      if operationDepth == 0 {
        return;
      }
      operationDepth := operationDepth - 1;
      if operationDepth != 0 {
        return;
      }
      RearmTimer(now);
    }

    /** One thing a callback may do to a node. */
    method ActOn(node: Node, now: Int64)
      requires Reserved() && operationDepth > 0 && node in timers.nodes
      modifies this`timerNodeCount, this`owners, this`armed, this`armedDeadline, this`requests, this`trace
      modifies timers, timers.heap, timers.nodes`heapIndex, node
      ensures Reserved() && timers.nodes == old(timers.nodes) && timers.heap == old(timers.heap)
      ensures timers.due == Without(old(timers.due), node) && trace == old(trace) + [Acted(node)]
      ensures node.state != Running && armed == old(armed) && requests == old(requests)
    {
      var choice: nat, allocates: bool, deadline: Int64 := *, *, *;
      if choice == 0 {
        var r := ScheduleNode(node, deadline, now, allocates);
      } else if choice == 1 {
        CancelNode(node, now);
      } else {
        UnregisterNode(node, now);
      }
      trace := trace + [Acted(node)];
    }

    /** The trace grew by `t`, which accounts for the due list. */
    twostate predicate Traced(new t: seq<Happening<Node>>)
      reads this`trace, timers`due
    {
      trace == old(trace) + t && Replays(old(timers.due), t, timers.due)
    }

    /** One thing a callback may do: to any node, its own included, or register another. */
    method Act(now: Int64) returns (ghost t: seq<Happening<Node>>)
      requires Reserved() && operationDepth > 0
      modifies this`timerNodeCount, this`owners, this`armed, this`armedDeadline, this`requests, this`trace
      modifies timers, timers.heap, timers.nodes
      ensures Reserved() && old(timers.nodes) <= timers.nodes
      ensures fresh(timers.nodes - old(timers.nodes)) && (timers.heap == old(timers.heap) || fresh(timers.heap))
      ensures Traced(t) && Calls(t) == [] && armed == old(armed) && requests == old(requests)
      ensures forall n | n in timers.nodes && n.state == Running :: n in old(timers.nodes) && old(n.state) == Running
    {
      hide Before, HeapOrder, Replays, Calls, Without, Reserved;
      var another: bool, allocates: bool := *, *;
      NoReplay(timers.due);
      if another || timers.nodes == {} {
        var r, node := RegisterNode(allocates);
        t := [];
      } else {
        var node: Node :| node in timers.nodes;
        OneActed(timers.due, node);
        ActOn(node, now);
        t := [Acted(node)];
      }
    }

    /** A timeout callback: any number of such things. */
    method RunCallback(node: Node, now: Int64) returns (ghost t: seq<Happening<Node>>)
      requires Reserved() && operationDepth > 0
      requires forall n | n in timers.nodes && n.state == Running :: n == node
      modifies this`timerNodeCount, this`owners, this`armed, this`armedDeadline, this`requests, this`trace
      modifies timers, timers.heap, timers.nodes
      ensures Reserved() && old(timers.nodes) <= timers.nodes
      ensures fresh(timers.nodes - old(timers.nodes)) && (timers.heap == old(timers.heap) || fresh(timers.heap))
      ensures trace == old(trace) + [Called(node)] + t && Replays(old(timers.due), t, timers.due) && Calls(t) == []
      ensures armed == old(armed) && requests == old(requests)
      ensures forall n | n in timers.nodes && n.state == Running :: n == node
    {
      hide Before, HeapOrder, Replays, Calls;
      NoReplay(timers.due);
      trace, t := trace + [Called(node)], [];
      var steps: nat := *;
      while steps > 0
        invariant Reserved() && old(timers.nodes) <= timers.nodes
        invariant fresh(timers.nodes - old(timers.nodes)) && (timers.heap == old(timers.heap) || fresh(timers.heap))
        invariant trace == old(trace) + [Called(node)] + t && Replays(old(timers.due), t, timers.due) && Calls(t) == []
        invariant armed == old(armed) && requests == old(requests)
        invariant forall n | n in timers.nodes && n.state == Running :: n == node
      {
        ghost var due := timers.due;
        ghost var more := Act(now);
        ReplaysOn(old(timers.due), t, due, more, timers.due);
        CallsJoin(t, more);
        t := t + more;
        steps := steps - 1;
      }
    }

    static lemma NoReplay(d: seq<Node>)
      ensures Replays(d, [], d) && Calls<Node>([]) == []
    {
    }

    ghost predicate Quiet()
      reads timers, timers.nodes`state
    {
      timers.due == [] && forall n | n in timers.nodes :: n.state == Idle || n.state == InHeap
    }

    /** A node its callback did not reschedule is idle again. */
    method Finish(node: Node)
      requires Reserved() && node in timers.nodes
      modifies node`state
      ensures Reserved() && node.state == if old(node.state) == Running then Idle else old(node.state)
    {
      if node.state == Running {
        node.state := Idle;
      }
    }

    method Start() returns (node: Node)
      requires Reserved() && timers.due != []
      modifies timers`due, {timers.due[0]}`state
      ensures Reserved() && node == old(timers.due)[0] && node.state == Running && timers.due == old(timers.due)[1..]
      ensures node !in timers.due
    {
      node := timers.StartFirst();
    }

    /** Only a node that says so is due. */
    lemma NotDue(node: Node)
      requires Reserved() && node in timers.nodes && node.state != Due
      ensures node !in timers.due
    {
      hide HeapOrder, timers.Linked, timers.Stamped;
    }

    /** Runs the first due node's callback and settles its state. */
    method DispatchFirst(now: Int64) returns (ghost t: seq<Happening<Node>>)
      requires Reserved() && operationDepth > 0 && timers.due != []
      requires forall n | n in timers.nodes :: n.state != Running
      modifies this`timerNodeCount, this`owners, this`armed, this`armedDeadline, this`requests, this`dispatchCount
      modifies this`trace, timers, timers.heap, timers.nodes
      ensures Reserved() && old(timers.nodes) <= timers.nodes && dispatchCount == old(dispatchCount) + 1
      ensures fresh(timers.nodes - old(timers.nodes)) && (timers.heap == old(timers.heap) || fresh(timers.heap))
      ensures Traced(t) && |Calls(t)| == 1 && armed == old(armed) && requests == old(requests)
      ensures forall n | n in timers.nodes :: n.state != Running
    {
      hide Before, HeapOrder, Replays, Calls;
      var node := Start();
      dispatchCount := dispatchCount + 1;
      ghost var rest := RunCallback(node, now);
      t := [Called(node)] + rest;
      HeadCalled(old(timers.due), rest, timers.due, old(trace));
      Finish(node);
    }

    ghost function Positions(s: seq<Node>): (at: map<Node, int>)
      requires Distinct(s)
      ensures Ascending(s, at) && at.Keys == set n | n in s
      ensures forall i | 0 <= i < |s| :: at[s[i]] == i
    {
      map i | 0 <= i < |s| :: s[i] := i
    }

    /** Runs what is due, front to back, until nothing is. */
    method Dispatch(now: Int64) returns (ghost t: seq<Happening<Node>>)
      requires Reserved() && operationDepth > 0
      requires forall n | n in timers.nodes :: n.state != Running
      modifies this`timerNodeCount, this`owners, this`armed, this`armedDeadline, this`requests, this`dispatchCount
      modifies this`trace, timers, timers.heap, timers.nodes
      ensures Reserved() && Quiet() && armed == old(armed) && requests == old(requests)
      ensures old(timers.nodes) <= timers.nodes && fresh(timers.nodes - old(timers.nodes))
      ensures timers.heap == old(timers.heap) || fresh(timers.heap)
      ensures trace == old(trace) + t && Replays(old(timers.due), t, [])
      ensures dispatchCount == old(dispatchCount) + |Calls(t)|
    {
      hide Before, HeapOrder, Replays, Calls;
      NoReplay(timers.due);
      t := [];
      while timers.due != []
        invariant Reserved() && armed == old(armed) && requests == old(requests)
        invariant old(timers.nodes) <= timers.nodes && fresh(timers.nodes - old(timers.nodes))
        invariant timers.heap == old(timers.heap) || fresh(timers.heap)
        invariant Traced(t) && dispatchCount == old(dispatchCount) + |Calls(t)|
        invariant forall n | n in timers.nodes :: n.state != Running
        decreases |timers.due|
      {
        ghost var due := timers.due;
        ghost var more := DispatchFirst(now);
        ReplaysOn(old(timers.due), t, due, more, timers.due);
        CallsJoin(t, more);
        ReplayShrinks(due, more, timers.due);
        t := t + more;
      }
    }

    method Collect(now: Int64)
      requires Reserved() && Quiet()
      modifies timers`size, timers`items, timers`ranks, timers`due, timers.heap
      modifies timers.nodes`heapIndex, timers.nodes`state
      ensures Reserved() && timers.DueInOrder()
      ensures forall n | n in timers.nodes :: n in timers.due <==> old(n.state) == InHeap && n.deadline <= now
      ensures forall n | n in timers.due :: n in timers.nodes
      ensures forall n | n in timers.nodes :: n.state == if n in timers.due then Due else old(n.state)
      ensures forall n | n in timers.nodes :: n.state != Running
    {
      timers.CollectDue(now);
    }

    /** `s` lists what was due, in firing order. */
    twostate predicate IsSnapshot(new s: seq<Node>, now: Int64)
    {
      && (forall n | n in old(timers.nodes) :: n in s <==> old(n.state == InHeap && n.deadline <= now))
      && (forall i, j | 0 <= i < j < |s| ::
            && s[i] in old(timers.nodes) && s[j] in old(timers.nodes)
            && (|| old(s[i].deadline) < old(s[j].deadline)
                || (old(s[i].deadline) == old(s[j].deadline) && old(s[i].sequence) < old(s[j].sequence))))
    }

    /** Opens an update: the host's one-shot is spent, and what is due leaves the heap. */
    method BeginUpdate(now: Int64)
      requires Reserved() && Quiet() && operationDepth == 0
      modifies this`armed, this`operationDepth
      modifies timers`size, timers`items, timers`ranks, timers`due, timers.heap
      modifies timers.nodes`heapIndex, timers.nodes`state
      ensures Reserved() && operationDepth == 1 && !armed
      ensures IsSnapshot(timers.due, now) && forall n | n in timers.nodes :: n.state != Running
      ensures Distinct(timers.due) && forall n | n in timers.due :: n in timers.nodes && n.deadline <= now
      ensures forall n | n in timers.nodes :: n.state == if n in timers.due then Due else old(n.state)
    {
      hide HeapOrder;
      armed := false;
      Collect(now);
      OperationEnter();
    }

    /**
      One update.  `snapshot` is what was due on entry, in firing order, and the
      calls in the trace `t` are a subsequence of it, each node once.  A node's
      callback runs exactly if no earlier callback acted on the node.  A node
      rescheduled into the past waits for the zero-delay wakeup asked for here.
     */
    method Update(now: Int64, later: Int64) returns (ghost snapshot: seq<Node>, ghost t: seq<Happening<Node>>)
      requires Reserved() && HostAgrees() && Quiet() && operationDepth == 0 && now <= later
      modifies this, timers, timers.heap, timers.nodes
      ensures Reserved() && HostAgrees() && Quiet() && operationDepth == 0
      ensures old(timers.nodes) <= timers.nodes && fresh(timers.nodes - old(timers.nodes))
      ensures timers.heap == old(timers.heap) || fresh(timers.heap)
      ensures IsSnapshot(snapshot, now) && Distinct(snapshot) && trace == old(trace) + t
      ensures Ascending(Calls(t), Positions(snapshot)) && dispatchCount == old(dispatchCount) + |Calls(t)|
      ensures forall n | n in snapshot :: n in Calls(t) <==> !ActedFirst(t, n)
      ensures requests == old(requests) +
        if timers.size > 0 then [Delay(timers.heap[0].deadline, later)] else []
      ensures forall n | n in timers.nodes && n.state == InHeap && n.deadline <= now :: requests == old(requests) + [0]
    {
      hide IsSnapshot, Ascending, Positions, Distinct, HeapOrder, Replays, Calls, ActedFirst;
      snapshot, t := CollectAndRun(now);
      OperationLeave(later);
      var root := timers.Peek();
    }

    method CollectAndRun(now: Int64) returns (ghost snapshot: seq<Node>, ghost t: seq<Happening<Node>>)
      requires Reserved() && Quiet() && operationDepth == 0
      modifies this`timerNodeCount, this`owners, this`armed, this`armedDeadline, this`requests, this`trace
      modifies this`dispatchCount, this`operationDepth, timers, timers.heap, timers.nodes
      ensures Reserved() && Quiet() && operationDepth == 1 && !armed && requests == old(requests)
      ensures old(timers.nodes) <= timers.nodes && fresh(timers.nodes - old(timers.nodes))
      ensures timers.heap == old(timers.heap) || fresh(timers.heap)
      ensures IsSnapshot(snapshot, now) && Distinct(snapshot) && trace == old(trace) + t
      ensures Ascending(Calls(t), Positions(snapshot)) && dispatchCount == old(dispatchCount) + |Calls(t)|
      ensures forall n | n in snapshot :: n in Calls(t) <==> !ActedFirst(t, n)
    {
      hide Before, HeapOrder, Replays, Calls, ActedFirst;
      BeginUpdate(now);
      snapshot := timers.due;
      t := Dispatch(now);
      CallsInOrder(snapshot, t, [], Positions(snapshot));
      forall n | n in snapshot ensures n in Calls(t) <==> !ActedFirst(t, n) {
        RanUnlessActedOn(snapshot, t, n);
      }
    }

    // Every run.

    /** What holds whenever the host has control. */
    ghost predicate AtRest()
      reads this, timers, timers.heap, timers.nodes
    {
      Reserved() && HostAgrees() && Quiet()
    }

    /** One call on a node, inside an operation or not. */
    method UseNode(node: Node, now: Int64)
      requires AtRest() && node in timers.nodes
      modifies this, timers, timers.heap, timers.nodes`heapIndex, node
      ensures AtRest() && timers.nodes == old(timers.nodes) && timers.heap == old(timers.heap)
      ensures operationDepth == old(operationDepth)
    {
      hide Before, HeapOrder;
      var choice: nat, allocates: bool, deadline: Int64 := *, *, *;
      if choice == 0 {
        var r := ScheduleNode(node, deadline, now, allocates);
      } else if choice == 1 {
        CancelNode(node, now);
      } else {
        UnregisterNode(node, now);
      }
    }

    /** One thing the host or the application may do between updates, or an update. */
    method Use(now: Int64, later: Int64)
      requires AtRest() && now <= later
      modifies this, timers, timers.heap, timers.nodes
      ensures AtRest() && old(timers.nodes) <= timers.nodes
      ensures fresh(timers.nodes - old(timers.nodes)) && (timers.heap == old(timers.heap) || fresh(timers.heap))
    {
      hide Before, HeapOrder, IsSnapshot, Ascending, Positions, Calls, ActedFirst, Distinct, Without, timers.Linked;
      hide timers.Stamped, Reserved;
      var choice: nat, allocates: bool := *, *;
      if choice == 0 {
        var r, node := RegisterNode(allocates);
      } else if choice == 1 {
        OperationEnter();
      } else if choice == 2 {
        OperationLeave(now);
      } else if choice == 3 && operationDepth == 0 {
        var snapshot, t := Update(now, later);
      } else if timers.nodes != {} {
        var node: Node :| node in timers.nodes;
        UseNode(node, now);
      }
    }

    /** Any use whatever: whenever no operation is under way, the host timer is set for exactly the root's deadline. */
    method Run(times: seq<(Int64, Int64)>)
      requires AtRest() && forall i | 0 <= i < |times| :: times[i].0 <= times[i].1
      modifies this, timers, timers.heap, timers.nodes
      ensures AtRest() && timers.size <= timerNodeCount <= timers.heap.Length
    {
      for i := 0 to |times|
        invariant AtRest() && old(timers.nodes) <= timers.nodes
        invariant fresh(timers.nodes - old(timers.nodes)) && (timers.heap == old(timers.heap) || fresh(timers.heap))
      {
        Use(times[i].0, times[i].1);
      }
      HeapFits();
    }
  }
}

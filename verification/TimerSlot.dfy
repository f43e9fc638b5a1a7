/**
  The timer node embedded in a stream or a connection, as its owner uses it
  (src/kcpmux_engine.c): every call goes to the engine's scheduler, whose
  results the owner discards.
 */
module TimerSlot {
  import opened Timer
  import Scheduler
  import S = Stream

  /** How an owner sees its node: one that an update has collected is still pending. */
  function Seen(state: NodeState): NodeState {
    if state == Due then InHeap else state
  }

  class Slot {
    const scheduler: Scheduler.Scheduler
    const node: Node

    ghost function Alarm(): S.Alarm
      reads node`state, node`deadline
    {
      S.Alarm(Seen(node.state), node.deadline)
    }

    /** The node is one of the scheduler's, inside an operation. */
    ghost predicate Wired()
      reads scheduler, scheduler.timers, scheduler.timers.heap, scheduler.timers.nodes
    {
      scheduler.Reserved() && scheduler.operationDepth > 0 && node in scheduler.timers.nodes
    }

    /** Nothing but this node, and its place in the queues, has changed in the scheduler. */
    twostate predicate Local()
      reads scheduler, scheduler.timers, node`registered
    {
      && scheduler.owners ==
           (if old(node.registered) && !node.registered then old(scheduler.owners) - {node} else old(scheduler.owners))
      && (node.registered ==> old(node.registered))
      && scheduler.timers.nodes == old(scheduler.timers.nodes) && scheduler.timers.heap == old(scheduler.timers.heap)
      && scheduler.operationDepth == old(scheduler.operationDepth) && scheduler.armed == old(scheduler.armed)
      && scheduler.requests == old(scheduler.requests) && scheduler.trace == old(scheduler.trace)
      && scheduler.dispatchCount == old(scheduler.dispatchCount)
      && (scheduler.timers.due == old(scheduler.timers.due)
          || scheduler.timers.due == Without(old(scheduler.timers.due), node))
    }

    constructor (scheduler: Scheduler.Scheduler, node: Node)
      ensures this.scheduler == scheduler && this.node == node
    {
      this.scheduler, this.node := scheduler, node;
    }

    /** Scheduling a registered node succeeds, whatever the allocator answers. */
    method Schedule(when: Int64, now: Int64)
      requires Wired()
      modifies scheduler`armed, scheduler`armedDeadline, scheduler`requests, scheduler.timers, scheduler.timers.heap
      modifies scheduler.timers.nodes`heapIndex, node`deadline, node`sequence, node`state
      ensures Wired() && Local()
      ensures Alarm() == if node.registered then S.Alarm(InHeap, S.Max(when, now)) else old(Alarm())
    {
      hide scheduler.Reserved;
      var allocates: bool := *;
      var r := scheduler.ScheduleNode(node, when, now, allocates);
      assert node.registered ==> r == OK;
    }

    method Cancel(now: Int64)
      requires Wired()
      modifies scheduler`armed, scheduler`armedDeadline, scheduler`requests
      modifies scheduler.timers`size, scheduler.timers`items, scheduler.timers`ranks, scheduler.timers`due
      modifies scheduler.timers.heap, scheduler.timers.nodes`heapIndex, node`state
      ensures Wired() && Local() && Alarm() == old(Alarm()).(state := Idle)
    {
      hide scheduler.Reserved;
      scheduler.CancelNode(node, now);
    }

    method Release(now: Int64)
      requires Wired()
      modifies scheduler`timerNodeCount, scheduler`owners, scheduler`armed, scheduler`armedDeadline, scheduler`requests
      modifies scheduler.timers`size, scheduler.timers`items, scheduler.timers`ranks, scheduler.timers`due
      modifies scheduler.timers.heap, scheduler.timers.nodes`heapIndex, node`state, node`registered
      ensures Wired() && Local() && Alarm() == old(Alarm()).(state := Idle) && !node.registered
    {
      hide HeapOrder, scheduler.timers.Linked, scheduler.timers.Stamped, scheduler.timers.DueLinked;
      scheduler.UnregisterNode(node, now);
    }

    /** The dispatch loop takes the node, the first that is due, and is about to run its callback. */
    method Begin()
      requires Wired() && scheduler.timers.due != [] && scheduler.timers.due[0] == node
      modifies scheduler`dispatchCount, scheduler`trace, scheduler.timers`due, node`state
      ensures Wired() && old(Alarm()).state == InHeap && Alarm() == old(Alarm()).(state := Running)
      ensures scheduler.timers.due == old(scheduler.timers.due)[1..] && node !in scheduler.timers.due
      ensures scheduler.dispatchCount == old(scheduler.dispatchCount) + 1
      ensures scheduler.trace == old(scheduler.trace) + [Scheduler.Called(node)]
    {
      hide HeapOrder, scheduler.timers.Linked, scheduler.timers.Stamped;
      assert node.state == Due;
      var first := scheduler.Start();
      scheduler.dispatchCount := scheduler.dispatchCount + 1;
      scheduler.trace := scheduler.trace + [Scheduler.Called(node)];
    }

    /** A node that its callback left alone is idle again. */
    method End()
      requires Wired() && node !in scheduler.timers.due
      modifies node`state
      ensures Wired() && Alarm() == if old(Alarm()).state == Running then old(Alarm()).(state := Idle) else old(Alarm())
      ensures node.state == Idle || node.state == InHeap
    {
      hide HeapOrder, scheduler.timers.Linked, scheduler.timers.Stamped;
      assert node.state != Due;
      scheduler.Finish(node);
    }

    /** The node's callback ran, and nothing but this node changed in the scheduler. */
    twostate predicate Ran()
      reads scheduler, scheduler.timers, node`registered, node`state
    {
      && old(scheduler.timers.due) != [] && scheduler.timers.due == old(scheduler.timers.due)[1..]
      && scheduler.trace == old(scheduler.trace) + [Scheduler.Called(node)]
      && scheduler.dispatchCount == old(scheduler.dispatchCount) + 1
      && scheduler.timers.nodes == old(scheduler.timers.nodes) && scheduler.timers.heap == old(scheduler.timers.heap)
      && scheduler.operationDepth == old(scheduler.operationDepth)
      && scheduler.armed == old(scheduler.armed) && scheduler.requests == old(scheduler.requests)
      && scheduler.owners ==
           (if old(node.registered) && !node.registered then old(scheduler.owners) - {node} else old(scheduler.owners))
      && (node.state == Idle || node.state == InHeap)
    }
  }
}

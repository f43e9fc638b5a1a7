/**
  The engine at work: connection and stream objects updated in place, each with
  a timer node in one scheduler (src/kcpmux_engine.c, src/kcpmux_conn.c,
  src/kcpmux_stream.c).  Everything done here is done to the objects and, for
  the record, to an engine of values; the two are proved to agree.
 */
module Runtime {
  import opened Timer
  import opened TimerSlot
  import opened Address
  import S = Stream
  import Runs = StreamRuns
  import C = Conn
  import Steps = ConnSteps
  import E = Engine
  import Sched = Scheduler
  import Ids = StreamIds
  import StreamObject
  import ConnObject

  type Nodes = map<E.Owned, Node>

  /** No two owners share a node. */
  ghost predicate Injective(m: Nodes) {
    forall o, p | o in m && p in m && o != p :: m[o] != m[p]
  }

  lemma DropOwner(m: Nodes, o: E.Owned)
    requires Injective(m) && o in m
    ensures Injective(m - {o}) && forall n :: n in (m - {o}).Values <==> n in m.Values && n != m[o]
  {
    forall n | n in m.Values && n != m[o] ensures n in (m - {o}).Values {
      var p :| p in m && m[p] == n;
      assert p in m - {o};
    }
  }

  lemma AddOwner(m: Nodes, o: E.Owned, node: Node)
    requires Injective(m) && o !in m && node !in m.Values
    ensures Injective(m[o := node]) && forall n :: n in m[o := node].Values <==> n in m.Values || n == node
  {
    var after := m[o := node];
    forall n | n in m.Values || n == node ensures n in after.Values {
      if n == node {
        assert o in after && after[o] == n;
      } else {
        var p :| p in m && m[p] == n;
        assert p in after && after[p] == n;
      }
    }
  }

  ghost predicate Within<K, V>(m: map<K, V>, all: map<K, V>) {
    forall k | k in m :: k in all && m[k] == all[k]
  }

  lemma WithinItself<K, V>(m: map<K, V>, k: K)
    ensures Within(m, m) && Within(m - {k}, m)
  {
  }

  lemma WithinWithin<K, V>(m: map<K, V>, part: map<K, V>, all: map<K, V>)
    requires Within(m, part) && Within(part, all)
    ensures Within(m, all)
  {
  }

  lemma WithinValues<K, V>(m: map<K, V>, all: map<K, V>)
    requires Within(m, all)
    ensures m.Values <= all.Values
  {
  }

  type Conns = map<int, ConnObject.Conn>
  type Streams = map<E.Key, StreamObject.Stream>

  /** Every object has a node of its own, in this scheduler. */
  ghost predicate Wiring(conns: Conns, streams: Streams, nodeOf: Nodes, scheduler: Sched.Scheduler) {
    && Injective(nodeOf)
    && (forall id | id in conns :: E.OfConn(id) in nodeOf
          && conns[id].slot.node == nodeOf[E.OfConn(id)] && conns[id].slot.scheduler == scheduler)
    && (forall k | k in streams :: E.OfStream(k) in nodeOf
          && streams[k].slot.node == nodeOf[E.OfStream(k)] && streams[k].slot.scheduler == scheduler)
    && (forall o | o in nodeOf :: if o.OfConn? then o.id in conns else o.key in streams)
  }

  lemma DropStreamWiring(conns: Conns, streams: Streams, nodeOf: Nodes, scheduler: Sched.Scheduler, k: E.Key)
    requires Wiring(conns, streams, nodeOf, scheduler) && k in streams
    ensures Wiring(conns, streams - {k}, nodeOf - {E.OfStream(k)}, scheduler)
    ensures (nodeOf - {E.OfStream(k)}).Values == nodeOf.Values - {streams[k].slot.node} && E.OfStream(k) in nodeOf
    ensures streams[k].slot.node in nodeOf.Values
  {
    DropOwner(nodeOf, E.OfStream(k));
  }

  lemma DropConnWiring(conns: Conns, streams: Streams, nodeOf: Nodes, scheduler: Sched.Scheduler, id: int)
    requires Wiring(conns, streams, nodeOf, scheduler) && id in conns
    ensures Wiring(conns - {id}, streams, nodeOf - {E.OfConn(id)}, scheduler)
    ensures (nodeOf - {E.OfConn(id)}).Values == nodeOf.Values - {conns[id].slot.node} && E.OfConn(id) in nodeOf
    ensures conns[id].slot.node in nodeOf.Values
  {
    DropOwner(nodeOf, E.OfConn(id));
  }

  lemma WiredOwner(conns: Conns, streams: Streams, nodeOf: Nodes, scheduler: Sched.Scheduler, o: E.Owned)
    requires Wiring(conns, streams, nodeOf, scheduler)
    ensures (if o.OfConn? then o.id in conns else o.key in streams) ==> o in nodeOf
  {
  }

  lemma AddStreamWiring(
    conns: Conns, streams: Streams, nodeOf: Nodes, scheduler: Sched.Scheduler, k: E.Key, o: StreamObject.Stream)
    requires Wiring(conns, streams, nodeOf, scheduler) && k !in streams
    requires o.slot.scheduler == scheduler && o.slot.node !in nodeOf.Values
    ensures Wiring(conns, streams[k := o], nodeOf[E.OfStream(k) := o.slot.node], scheduler)
    ensures nodeOf[E.OfStream(k) := o.slot.node].Values == nodeOf.Values + {o.slot.node}
  {
    AddOwner(nodeOf, E.OfStream(k), o.slot.node);
  }

  lemma AddConnWiring(
    conns: Conns, streams: Streams, nodeOf: Nodes, scheduler: Sched.Scheduler, id: int, o: ConnObject.Conn)
    requires Wiring(conns, streams, nodeOf, scheduler) && id !in conns
    requires o.slot.scheduler == scheduler && o.slot.node !in nodeOf.Values
    ensures Wiring(conns[id := o], streams, nodeOf[E.OfConn(id) := o.slot.node], scheduler)
    ensures nodeOf[E.OfConn(id) := o.slot.node].Values == nodeOf.Values + {o.slot.node}
  {
    AddOwner(nodeOf, E.OfConn(id), o.slot.node);
  }

  /** There are as many nodes as owners. */
  lemma {:induction false} NodesCount(conns: Conns, streams: Streams, nodeOf: Nodes, scheduler: Sched.Scheduler)
    requires Wiring(conns, streams, nodeOf, scheduler)
    ensures |nodeOf.Values| == |conns| + |streams|
    decreases |conns| + |streams|
  {
    hide Wiring, E.Minus;
    if |conns| > 0 {
      var id := E.Inhabited(conns.Keys);
      DropConnWiring(conns, streams, nodeOf, scheduler, id);
      E.OneFewer(conns, id);
      MinusIs(conns, id);
      NodesCount(conns - {id}, streams, nodeOf - {E.OfConn(id)}, scheduler);
    } else if |streams| > 0 {
      var k := E.Inhabited(streams.Keys);
      DropStreamWiring(conns, streams, nodeOf, scheduler, k);
      E.OneFewer(streams, k);
      MinusIs(streams, k);
      NodesCount(conns, streams - {k}, nodeOf - {E.OfStream(k)}, scheduler);
    } else {
      NoOwners(conns, streams, nodeOf, scheduler);
    }
  }

  lemma MinusIs<K, V>(m: map<K, V>, k: K)
    ensures E.Minus(m, k) == m - {k}
  {
  }

  lemma NoOwners(conns: Conns, streams: Streams, nodeOf: Nodes, scheduler: Sched.Scheduler)
    requires Wiring(conns, streams, nodeOf, scheduler) && |conns| == 0 && |streams| == 0
    ensures nodeOf.Values == {}
  {
    assert forall o | o in nodeOf :: if o.OfConn? then o.id in conns.Keys else o.key in streams.Keys;
  }

  /** Nobody else has the node of owner `o`. */
  lemma OwnNode(conns: Conns, streams: Streams, nodeOf: Nodes, scheduler: Sched.Scheduler, o: E.Owned)
    requires Wiring(conns, streams, nodeOf, scheduler) && o in nodeOf
    ensures forall id | id in conns && E.OfConn(id) != o :: conns[id].slot.node != nodeOf[o]
    ensures forall k | k in streams && E.OfStream(k) != o :: streams[k].slot.node != nodeOf[o]
    ensures o.OfStream? ==> o.key in streams && streams[o.key].slot.node == nodeOf[o] && streams[o.key].slot.scheduler == scheduler
    ensures o.OfConn? ==> o.id in conns && conns[o.id].slot.node == nodeOf[o] && conns[o.id].slot.scheduler == scheduler
  {
  }

  /** The streams on record, without their serial numbers. */
  function Records(streams: E.Streams): map<E.Key, S.Stream> {
    map k | k in streams :: streams[k].s
  }

  lemma RecordsPut(streams: E.Streams, k: E.Key, serial: int, s: S.Stream)
    ensures Records(streams[k := E.Entry(serial, s)]) == Records(streams)[k := s]
  {
  }

  lemma RecordsDrop(streams: E.Streams, k: E.Key, s: S.Stream)
    requires k in streams
    ensures Records(E.Minus(streams, k)) == Records(streams) - {k} == Records(streams)[k := s] - {k}
  {
  }

  /** What a cascade leaves on record. */
  lemma CascadeRecords(
    all: E.Streams, left: E.Streams, id: int, queue: seq<E.Owner>, finals: map<int, S.Stream>, reason: S.Reason)
    requires E.Cascaded(all, left, id, {}, queue, finals, reason)
    ensures Records(left) == Records(all) - E.Own(all, id)
  {
    hide S.CloseInternal;
    forall k | k in left ensures k !in E.Own(all, id) {
      assert k.conn == id ==> k in E.Own(left, id);
    }
  }

  function OwnKeys(values: map<E.Key, S.Stream>, id: int): set<E.Key> {
    set k | k in values && k.conn == id
  }

  /** Live streams, with acceptable configurations. */
  ghost predicate Alive(values: map<E.Key, S.Stream>) {
    forall k | k in values :: !values[k].closed && S.Acceptable(values[k].config)
  }

  lemma OneOf(all: map<E.Key, S.Stream>, id: int, done: set<E.Key>, k: E.Key)
    requires Alive(all) && done <= OwnKeys(all, id) && k in OwnKeys(all, id) - done
    ensures k in all - done && !all[k].closed && S.Acceptable(all[k].config)
    ensures done + {k} <= OwnKeys(all, id) && OwnKeys(all, id) - done - {k} == OwnKeys(all, id) - (done + {k})
    ensures all - done - {k} == all - (done + {k})
  {
  }

  lemma NoneLeft<T>(all: set<T>, done: set<T>)
    requires done <= all && all - done == {}
    ensures done == all
  {
    forall x | x in all ensures x in done {
      assert x !in all - done;
    }
  }

  lemma PutThenDrop<K, V>(m: map<K, V>, k: K, v: V)
    ensures m[k := v] - {k} == E.Minus(m, k)
  {
  }

  lemma OwnOnRecord(streams: E.Streams, id: int)
    ensures OwnKeys(Records(streams), id) == E.Own(streams, id)
  {
  }

  /** Objects and records of a connection's streams part ways with it alike. */
  lemma StreamsFollow(
    was: E.Streams, streams: E.Streams, values: map<E.Key, S.Stream>, id: int, ended: bool, queue: seq<E.Owner>,
    finals: map<int, S.Stream>, reason: S.Reason)
    requires values == if ended then Records(was) - OwnKeys(Records(was), id) else Records(was)
    requires if ended then E.Cascaded(was, streams, id, {}, queue, finals, reason) else streams == was
    ensures values == Records(streams)
  {
    hide E.Cascaded, Records, OwnKeys;
    if ended {
      CascadeRecords(was, streams, id, queue, finals, reason);
      OwnOnRecord(was, id);
    }
  }

  class Runtime {
    const model: E.Engine
    const scheduler: Sched.Scheduler
    var conns: Conns
    var streams: Streams
    var nodeOf: Nodes  // whose callback a node runs

    constructor (firstId: int)
      requires 0 < firstId < ID_LIMIT / 2
      ensures AtRest() && conns == map[] && streams == map[] && scheduler.operationDepth == 0
      ensures fresh(model) && fresh(scheduler) && fresh(scheduler.timers) && fresh(scheduler.timers.heap)
      ensures scheduler.timers.nodes == {}
    {
      model := new E.Engine(firstId);
      scheduler := new Sched.Scheduler();
      conns, streams, nodeOf := map[], map[], map[];
      new;
      NobodyYet();
    }

    lemma NobodyYet()
      requires conns == map[] && streams == map[] && nodeOf == map[] && model.Inv() && model.clock == 0
      requires model.conns == map[] && model.streams == map[] && scheduler.Reserved() && scheduler.HostAgrees()
      requires scheduler.timers.due == [] && model.operationDepth == scheduler.operationDepth && scheduler.timers.nodes == {}
      ensures AtRest()
    {
      hide E.Engine.Inv, scheduler.timers.Valid, scheduler.HostAgrees;
      assert scheduler.owners == {};
    }

    ghost function ConnValues(): map<int, C.Conn>
      reads this`conns, conns.Values, (set id | id in conns :: conns[id].slot.node)`state
      reads (set id | id in conns :: conns[id].slot.node)`deadline, (set id | id in conns :: conns[id].slot.node)`registered
    {
      map id | id in conns :: conns[id].Value()
    }

    ghost function StreamValues(): map<E.Key, S.Stream>
      reads this`streams, streams.Values, (set k | k in streams :: streams[k].slot.node)`state
      reads (set k | k in streams :: streams[k].slot.node)`deadline, (set k | k in streams :: streams[k].slot.node)`registered
    {
      map k | k in streams :: streams[k].Value()
    }

    /** The objects have the values on record. */
    ghost predicate Agreed()
      reads this, model`conns, model`streams, conns.Values, streams.Values
      reads set id | id in conns :: conns[id].slot.node
      reads set k | k in streams :: streams[k].slot.node
    {
      ConnValues() == model.conns && StreamValues() == Records(model.streams)
    }

    /** The nodes registered are exactly those of the owners. */
    ghost predicate Wired()
      reads this, scheduler, scheduler.timers, scheduler.timers.heap, scheduler.timers.nodes
    {
      && scheduler.Reserved() && scheduler.owners == nodeOf.Values
      && Wiring(conns, streams, nodeOf, scheduler)
    }

    ghost predicate Ready()
      reads this, model, scheduler, scheduler.timers, scheduler.timers.heap, scheduler.timers.nodes
    {
      && model.Inv() && Wired()
      && model.operationDepth == scheduler.operationDepth && StreamObject.IsInt64(model.clock)
    }

    /** An operation on a stream object leaves all other owners alone. */
    method OperateOn(k: E.Key, o: StreamObject.Stream, m: StreamObject.Move)
      requires Wiring(conns, streams, nodeOf, scheduler) && k in streams && streams[k] == o && o.Wired()
      requires StreamObject.Possible(m)
      modifies o, scheduler, scheduler.timers, scheduler.timers.heap, scheduler.timers.nodes`heapIndex, o.slot.node
      ensures ConnValues() == old(ConnValues()) && StreamValues() == old(StreamValues())[k := o.Value()]
      ensures o.Wired() && o.slot.Local() && o.Value() == StreamObject.Moved(old(o.Value()), m)
    {
      hide StreamObject.Moved, StreamObject.Possible, StreamObject.Stream.Wired, StreamObject.Stream.Value, ConnValues, Slot.Wired, Wiring;
      WiredOwner(conns, streams, nodeOf, scheduler, E.OfStream(k));
      OwnNode(conns, streams, nodeOf, scheduler, E.OfStream(k));
      o.Make(m);
      forall l | l in streams && l != k ensures streams[l].Value() == old(streams[l].Value()) {
      }
    }

    lemma StreamOnRecord(k: E.Key)
      requires Agreed() && (k in streams || k in model.streams)
      ensures k in streams && k in model.streams && streams[k].Value() == model.streams[k].s
    {
      hide StreamObject.Stream.Value, ConnObject.Conn.Value;
      assert k in StreamValues() <==> k in streams;
      assert k in Records(model.streams) <==> k in model.streams;
      assert StreamValues()[k] == Records(model.streams)[k];
    }

    lemma StreamIsWired(k: E.Key)
      requires Wired() && scheduler.operationDepth > 0 && k in streams && S.Acceptable(streams[k].config)
      ensures streams[k].Wired() && streams[k].slot.scheduler == scheduler && streams[k].slot.node.registered
      ensures streams[k].slot.node in scheduler.timers.nodes
    {
      hide HeapOrder, scheduler.timers.Linked, scheduler.timers.Stamped, scheduler.timers.DueLinked;
      assert nodeOf[E.OfStream(k)] in nodeOf.Values;
    }

    /** An operation on a stream object, which is let go if it ends. */
    method StreamObjectMoves(k: E.Key, o: StreamObject.Stream, m: StreamObject.Move)
      requires Wired() && scheduler.operationDepth > 0 && k in streams && streams[k] == o
      requires StreamObject.Possible(m)
      requires S.Acceptable(o.config) && var s := StreamObject.Moved(o.Value(), m); s.registered == !s.closed
      modifies this`streams, this`nodeOf, o, scheduler, scheduler.timers, scheduler.timers.heap
      modifies scheduler.timers.nodes`heapIndex, o.slot.node
      ensures old(scheduler.timers.due) == [] ==> scheduler.timers.due == []
      ensures Wired() && scheduler.operationDepth == old(scheduler.operationDepth) && ConnValues() == old(ConnValues())
      ensures var s := StreamObject.Moved(old(o.Value()), m);
        StreamValues() == if s.closed then old(StreamValues())[k := s] - {k} else old(StreamValues())[k := s]
      ensures Fewer()
    {
      hide StreamObject.Moved, StreamObject.Possible, StreamObject.Stream.Value, ConnObject.Conn.Value, ConnValues, StreamValues, S.Acceptable, Slot.Wired;
      hide Wiring, scheduler.Reserved, Within;
      WithinItself(conns, 0);
      ValueOf(o);
      StreamIsWired(k);
      OperateOn(k, o, m);
      ValueOf(o);
      ReservedStill(o.slot);
      LetStreamGo(k, o);
    }

    /** Anything that happens to a stream but a firing. */
    method StreamStep(k: E.Key, op: Runs.Op, check: Int64)
      requires Ready() && Agreed() && k in streams && scheduler.operationDepth > 0
      requires !op.Fire? && k in model.streams && Runs.KcpBehaves(model.streams[k].s, op)
      modifies this`streams, this`nodeOf, model, streams[k], scheduler, scheduler.timers, scheduler.timers.heap
      modifies scheduler.timers.nodes`heapIndex, streams[k].slot.node
      ensures Ready() && Agreed()
      ensures old(scheduler.timers.due) == [] ==> scheduler.timers.due == []
      ensures scheduler.operationDepth == old(scheduler.operationDepth) && model.clock == old(model.clock) && Fewer()
      ensures model.conns == old(model.conns)
      ensures var s := Runs.Apply(
          old(model.streams)[k].s, Runs.Step(op, E.Up(model.conns, k.conn), model.clock, model.clock, check));
        if s.closed then model.streams == E.Minus(old(model.streams), k) && model.pendingBatch == Without(old(model.pendingBatch), k)
        else model.streams == old(model.streams)[k := E.Entry(old(model.streams)[k].serial, s)]
             && model.pendingBatch == E.Relisted(old(model.pendingBatch), k, s.inBatch)
    {
      hide Runs.Apply, Runs.KcpBehaves, StreamObject.Stream.Value, ConnObject.Conn.Value, E.Minus, Records;
      hide E.Engine.Inv, ConnValues, StreamValues, S.Acceptable, Wired, Fewer, Without, E.Relisted;
      var st := Runs.Step(op, E.Up(model.conns, k.conn), model.clock, model.clock, check);
      StreamOnRecord(k);
      model.RegisteredIffLive(k, st);
      ValueOf(streams[k]);
      RecordsPut(model.streams, k, model.streams[k].serial, Runs.Apply(model.streams[k].s, st));
      RecordsDrop(model.streams, k, Runs.Apply(model.streams[k].s, st));
      StreamObjectMoves(k, streams[k], StreamObject.Does(st));
      model.StreamStep(k, op, model.clock, check);
    }

    /** How the object's fields show in its value. */
    static lemma ValueOf(o: StreamObject.Stream)
      ensures var s := o.Value(); s.closed == o.closed && s.config == o.config && s.registered == o.slot.node.registered
      ensures o.Value().alarm.state == Idle ==> o.slot.node.state == Idle
      ensures o.Value().alarm.deadline == o.slot.node.deadline
    {
    }

    method DropStreamObject(k: E.Key)
      requires Wiring(conns, streams, nodeOf, scheduler) && k in streams
      modifies this`streams, this`nodeOf
      ensures Wiring(conns, streams, nodeOf, scheduler) && streams == old(streams) - {k}
      ensures nodeOf == old(nodeOf) - {E.OfStream(k)} && nodeOf.Values == old(nodeOf.Values) - {old(streams)[k].slot.node}
      ensures StreamValues() == old(StreamValues()) - {k} && ConnValues() == old(ConnValues())
    {
      hide Wiring, StreamObject.Stream.Value, ConnObject.Conn.Value;
      DropStreamWiring(conns, streams, nodeOf, scheduler, k);
      streams := streams - {k};
      nodeOf := nodeOf - {E.OfStream(k)};
    }

    /** An operation on a connection object leaves all other owners alone. */
    method ConnOperateOn(id: int, o: ConnObject.Conn, op: C.Op, clock: Int64)
      requires Wiring(conns, streams, nodeOf, scheduler) && id in conns && conns[id] == o && o.Wired() && !op.Firing?
      modifies o, scheduler, scheduler.timers, scheduler.timers.heap, scheduler.timers.nodes`heapIndex, o.slot.node
      ensures StreamValues() == old(StreamValues()) && ConnValues() == old(ConnValues())[id := o.Value()]
      ensures o.Wired() && o.slot.Local() && o.Value() == C.Apply(old(o.Value()), op, clock)
    {
      hide C.Apply, StreamValues, ConnObject.Conn.Value, Slot.Wired, Wiring;
      WiredOwner(conns, streams, nodeOf, scheduler, E.OfConn(id));
      OwnNode(conns, streams, nodeOf, scheduler, E.OfConn(id));
      o.Operate(op, clock);
      forall i | i in conns && i != id ensures conns[i].Value() == old(conns[i].Value()) {
      }
    }

    method DropConnObject(id: int)
      requires Wiring(conns, streams, nodeOf, scheduler) && id in conns
      modifies this`conns, this`nodeOf
      ensures Wiring(conns, streams, nodeOf, scheduler) && conns == old(conns) - {id}
      ensures nodeOf == old(nodeOf) - {E.OfConn(id)} && nodeOf.Values == old(nodeOf.Values) - {old(conns)[id].slot.node}
      ensures ConnValues() == old(ConnValues()) - {id} && StreamValues() == old(StreamValues())
    {
      hide Wiring, StreamObject.Stream.Value, ConnObject.Conn.Value;
      DropConnWiring(conns, streams, nodeOf, scheduler, id);
      conns := conns - {id};
      nodeOf := nodeOf - {E.OfConn(id)};
    }

    /** Finalises one stream object and lets it go. */
    method CloseStreamObject(k: E.Key, reason: S.Reason, clock: Int64)
      requires Wired() && scheduler.operationDepth > 0 && k in streams && S.Acceptable(streams[k].config)
      requires !streams[k].closed
      modifies this`streams, this`nodeOf, streams[k], scheduler, scheduler.timers, scheduler.timers.heap
      modifies scheduler.timers.nodes`heapIndex, streams[k].slot.node
      ensures Wired() && streams == old(streams) - {k} && scheduler.operationDepth == old(scheduler.operationDepth)
      ensures nodeOf == old(nodeOf) - {E.OfStream(k)}
      ensures StreamValues() == old(StreamValues()) - {k} && ConnValues() == old(ConnValues())
      ensures scheduler.timers.nodes == old(scheduler.timers.nodes) && scheduler.timers.heap == old(scheduler.timers.heap)
      ensures scheduler.timers.due == Without(old(scheduler.timers.due), old(streams)[k].slot.node)
      ensures scheduler.trace == old(scheduler.trace) + [Sched.Acted(old(streams)[k].slot.node)]
      ensures !old(streams)[k].slot.node.registered && scheduler.dispatchCount == old(scheduler.dispatchCount)
      ensures scheduler.armed == old(scheduler.armed) && scheduler.requests == old(scheduler.requests)
    {
      hide StreamObject.Stream.Value, ConnObject.Conn.Value, Wiring, scheduler.Reserved, S.Acceptable;
      hide Runs.Apply, Records, StreamValues, ConnValues;
      var o := streams[k];
      var st := Runs.Step(Runs.Finalise(reason), false, clock, clock, clock);
      StreamIsWired(k);
      Finalised(o, st);
      OperateOn(k, o, StreamObject.Does(st));
      ValueOf(o);
      scheduler.NotDue(o.slot.node);
      scheduler.trace := scheduler.trace + [Sched.Acted(o.slot.node)];
      DropStreamObject(k);
    }

    static lemma Finalised(o: StreamObject.Stream, st: Runs.Step)
      requires st.op.Finalise? && !o.closed
      ensures var s := Runs.Apply(o.Value(), st); s.closed && !s.registered && s.alarm.state == Idle
    {
    }

    lemma RecordsAlive()
      requires model.Inv()
      ensures Alive(Records(model.streams))
    {
      hide S.Acceptable, model.Counted, model.Populated;
      forall k | k in model.streams ensures !model.streams[k].s.closed && S.Acceptable(model.streams[k].s.config) {
        model.StreamAlive(k);
      }
    }

    lemma ObjectAt(k: E.Key)
      requires k in StreamValues()
      ensures k in streams && streams[k].Value() == StreamValues()[k]
      ensures streams[k].closed == StreamValues()[k].closed && streams[k].config == StreamValues()[k].config
    {
    }

    /** Owners may have gone, but there are no new ones. */
    twostate predicate Shrunk()
      reads this, scheduler.timers
    {
      && Within(conns, old(conns)) && Within(streams, old(streams)) && Within(nodeOf, old(nodeOf))
      && scheduler.timers.nodes == old(scheduler.timers.nodes) && scheduler.timers.heap == old(scheduler.timers.heap)
    }

    /** And the host timer has not been touched. */
    twostate predicate Fewer()
      reads this, scheduler.timers, scheduler`armed, scheduler`requests
    {
      Shrunk() && scheduler.armed == old(scheduler.armed) && scheduler.requests == old(scheduler.requests)
    }

    /** Due nodes have come and gone as the trace `t` says. */
    twostate predicate Traced(new t: seq<Sched.Happening<Node>>)
      reads scheduler`trace, scheduler`dispatchCount, scheduler.timers`due
    {
      && scheduler.trace == old(scheduler.trace) + t
      && scheduler.dispatchCount == old(scheduler.dispatchCount) + |Sched.Calls(t)|
      && Sched.Replays(old(scheduler.timers.due), t, scheduler.timers.due)
    }

    /** Nodes that are still registered are as they were. */
    twostate predicate OthersRest()
      reads scheduler.timers, scheduler.timers.nodes
    {
      && scheduler.timers.nodes == old(scheduler.timers.nodes) && scheduler.timers.heap == old(scheduler.timers.heap)
      && (forall n | n in scheduler.timers.nodes && n.registered && n in old(scheduler.timers.nodes) ::
            n.state == old(n.state) && n.deadline == old(n.deadline) && old(n.registered))
    }

    /** The cascade over the objects of a connection's streams. */
    method CloseStreamsOf(id: int, reason: S.Reason, clock: Int64) returns (ghost t: seq<Sched.Happening<Node>>)
      requires Wired() && scheduler.operationDepth > 0 && Alive(StreamValues())
      modifies this`streams, this`nodeOf, streams.Values, scheduler, scheduler.timers, scheduler.timers.heap
      modifies scheduler.timers.nodes
      ensures Wired() && scheduler.operationDepth == old(scheduler.operationDepth)
      ensures StreamValues() == old(StreamValues()) - OwnKeys(old(StreamValues()), id) && ConnValues() == old(ConnValues())
      ensures Traced(t) && Sched.Calls(t) == [] && OthersRest()
      ensures Fewer()
    {
      hide StreamObject.Stream.Value, ConnObject.Conn.Value, scheduler.Reserved, S.Acceptable, Wired;
      hide StreamValues, ConnValues, OwnKeys, Alive, Sched.Replays, Sched.Calls, Without;
      var own := set k | k in streams && k.conn == id;
      ghost var all, done: set<E.Key> := StreamValues(), {};
      OwnAre(id, own);
      scheduler.NoReplay(scheduler.timers.due);
      t := [];
      while own != {}
        invariant Wired() && scheduler.operationDepth == old(scheduler.operationDepth)
        invariant streams == old(streams) - done && StreamValues() == all - done && ConnValues() == old(ConnValues())
        invariant done <= OwnKeys(all, id) && own == OwnKeys(all, id) - done
        invariant Traced(t) && Sched.Calls(t) == [] && OthersRest()
        invariant Fewer()
        decreases own
      {
        var k :| k in own;
        OneOf(all, id, done, k);
        ObjectAt(k);
        StreamIsWired(k);
        assert streams[k] in old(streams).Values;
        ghost var due, node := scheduler.timers.due, streams[k].slot.node;
        CloseStreamObject(k, reason, clock);
        Sched.OneActed(due, node);
        Sched.ReplaysOn(old(scheduler.timers.due), t, due, [Sched.Acted(node)], scheduler.timers.due);
        Sched.CallsJoin(t, [Sched.Acted(node)]);
        t := t + [Sched.Acted(node)];
        own, done := own - {k}, done + {k};
      }
      NoneLeft(OwnKeys(all, id), done);
    }

    /** Runs a due stream's callback, as the dispatch loop does. */
    method FireStreamObject(k: E.Key, o: StreamObject.Stream, up: bool, now: Int64, clock: Int64, check: Int64)
      requires Wiring(conns, streams, nodeOf, scheduler) && k in streams && streams[k] == o && o.Wired()
      requires scheduler.timers.due != [] && scheduler.timers.due[0] == o.slot.node && o.slot.node.deadline <= now
      modifies o, scheduler, scheduler.timers, scheduler.timers.heap, scheduler.timers.nodes`heapIndex, o.slot.node
      ensures ConnValues() == old(ConnValues()) && StreamValues() == old(StreamValues())[k := o.Value()]
      ensures o.Wired() && o.Value() == Runs.FireTimer(old(o.Value()), up, now, clock, check)
      ensures o.slot.Ran()
    {
      hide Wiring, StreamObject.Stream.Value, ConnValues, Runs.FireTimer, S.Acceptable, Slot.Wired, Slot.Ran;
      WiredOwner(conns, streams, nodeOf, scheduler, E.OfStream(k));
      OwnNode(conns, streams, nodeOf, scheduler, E.OfStream(k));
      o.Fire(up, now, clock, check);
      forall l | l in streams && l != k ensures streams[l].Value() == old(streams[l].Value()) {
      }
    }

    method FireConnObject(id: int, o: ConnObject.Conn, now: Int64, clock: Int64)
      requires Wiring(conns, streams, nodeOf, scheduler) && id in conns && conns[id] == o && o.Wired()
      requires scheduler.timers.due != [] && scheduler.timers.due[0] == o.slot.node && o.slot.node.deadline <= now
      modifies o, scheduler, scheduler.timers, scheduler.timers.heap, scheduler.timers.nodes`heapIndex, o.slot.node
      ensures StreamValues() == old(StreamValues()) && ConnValues() == old(ConnValues())[id := o.Value()]
      ensures o.Wired() && o.Value() == C.Fire(old(o.Value()), now, clock)
      ensures o.slot.Ran()
    {
      hide C.Fire, C.Usable, StreamValues, ConnObject.Conn.Value, Wiring, Slot.Wired, Slot.Ran;
      WiredOwner(conns, streams, nodeOf, scheduler, E.OfConn(id));
      OwnNode(conns, streams, nodeOf, scheduler, E.OfConn(id));
      o.Fire(now, clock);
      forall i | i in conns && i != id ensures conns[i].Value() == old(conns[i].Value()) {
      }
    }

    lemma OwnAre(id: int, own: set<E.Key>)
      requires own == set k | k in streams && k.conn == id
      ensures own == OwnKeys(StreamValues(), id) - {} && StreamValues() == StreamValues() - {} && streams == streams - {}
    {
    }

    lemma ConnOnRecord(id: int)
      requires Agreed() && (id in conns || id in model.conns)
      ensures id in conns && id in model.conns && conns[id].Value() == model.conns[id]
      ensures conns[id].config == model.conns[id].config && conns[id].closed == model.conns[id].closed
      ensures conns[id].slot.node.registered == model.conns[id].registered
      ensures conns[id].slot.node.deadline == model.conns[id].alarm.deadline
    {
      assert id in ConnValues() <==> id in conns;
      assert ConnValues()[id] == model.conns[id];
    }

    lemma ConnIsWired(id: int)
      requires Wired() && scheduler.operationDepth > 0 && id in conns && C.Usable(conns[id].config)
      ensures conns[id].Wired() && conns[id].slot.scheduler == scheduler && conns[id].slot.node.registered
      ensures conns[id].slot.node in scheduler.timers.nodes
    {
      hide HeapOrder, scheduler.timers.Linked, scheduler.timers.Stamped, scheduler.timers.DueLinked;
      assert nodeOf[E.OfConn(id)] in nodeOf.Values;
    }

    static lemma ConnValueOf(o: ConnObject.Conn)
      ensures var c := o.Value(); c.closed == o.closed && c.config == o.config && c.registered == o.slot.node.registered
    {
    }

    /** Objects have followed connection `id` to `d`; finalised, it took its streams along. */
    twostate predicate Followed(id: int, d: C.Conn)
      reads this, scheduler, conns.Values, streams.Values
      reads set id | id in conns :: conns[id].slot.node
      reads set k | k in streams :: streams[k].slot.node
    {
      && scheduler.operationDepth == old(scheduler.operationDepth)
      && ConnValues() == (if d.closed then old(ConnValues())[id := d] - {id} else old(ConnValues())[id := d])
      && StreamValues() ==
           if d.closed then old(StreamValues()) - OwnKeys(old(StreamValues()), id) else old(StreamValues())
    }

    /** An operation on a connection object, which is let go if it ends. */
    method ConnObjectMoves(id: int, o: ConnObject.Conn, op: C.Op, clock: Int64)
      requires Wired() && scheduler.operationDepth > 0 && id in conns && conns[id] == o && !op.Firing?
      requires C.Usable(o.config) && var d := C.Apply(o.Value(), op, clock); d.registered == !d.closed
      modifies this`conns, this`nodeOf, o
      modifies scheduler, scheduler.timers, scheduler.timers.heap, scheduler.timers.nodes`heapIndex, o.slot.node
      ensures Wired() && o.slot.Local() && o.slot.scheduler == scheduler && StreamValues() == old(StreamValues())
      ensures o.closed == C.Apply(old(o.Value()), op, clock).closed
      ensures var d := C.Apply(old(o.Value()), op, clock);
        ConnValues() == if d.closed then old(ConnValues())[id := d] - {id} else old(ConnValues())[id := d]
      ensures Fewer()
    {
      hide StreamObject.Stream.Value, ConnObject.Conn.Value, E.Minus, C.Apply, C.Usable, Without, Slot.Wired;
      hide ConnValues, StreamValues, Wiring, scheduler.Reserved, Within;
      WithinItself(streams, E.Key(0, 0));
      ConnIsWired(id);
      ConnOperateOn(id, o, op, clock);
      ConnValueOf(o);
      ReservedStill(o.slot);
      LetConnGo(id, o);
    }

    /** A connection object whose node has been given back is let go. */
    method LetConnGo(id: int, o: ConnObject.Conn)
      requires Wiring(conns, streams, nodeOf, scheduler) && scheduler.Reserved() && id in conns && conns[id] == o
      requires scheduler.owners == if o.closed then nodeOf.Values - {o.slot.node} else nodeOf.Values
      modifies this`conns, this`nodeOf
      ensures Wired() && Within(conns, old(conns)) && Within(nodeOf, old(nodeOf))
      ensures nodeOf == if o.closed then old(nodeOf) - {E.OfConn(id)} else old(nodeOf)
      ensures ConnValues() == if o.closed then old(ConnValues()) - {id} else old(ConnValues())
      ensures StreamValues() == old(StreamValues())
    {
      hide ConnValues, StreamValues, Wiring, scheduler.Reserved, Within;
      WithinItself(conns, id);
      WithinItself(nodeOf, E.OfConn(id));
      if o.closed {
        DropConnObject(id);
      }
    }

    /** The same for a stream object. */
    method LetStreamGo(k: E.Key, o: StreamObject.Stream)
      requires Wiring(conns, streams, nodeOf, scheduler) && scheduler.Reserved() && k in streams && streams[k] == o
      requires scheduler.owners == if o.closed then nodeOf.Values - {o.slot.node} else nodeOf.Values
      modifies this`streams, this`nodeOf
      ensures Wired() && Within(streams, old(streams)) && Within(nodeOf, old(nodeOf))
      ensures nodeOf == if o.closed then old(nodeOf) - {E.OfStream(k)} else old(nodeOf)
      ensures StreamValues() == if o.closed then old(StreamValues()) - {k} else old(StreamValues())
      ensures ConnValues() == old(ConnValues())
    {
      hide ConnValues, StreamValues, Wiring, scheduler.Reserved, Within;
      WithinItself(streams, k);
      WithinItself(nodeOf, E.OfStream(k));
      if o.closed {
        DropStreamObject(k);
      }
    }

    /** An operation on a connection object, with the cascade if it ends it. */
    method ConnObjectStep(id: int, o: ConnObject.Conn, op: C.Op, reason: C.Reason, clock: Int64)
      requires Wired() && scheduler.operationDepth > 0 && id in conns && conns[id] == o && !op.Firing? && Alive(StreamValues())
      requires C.Usable(o.config) && var d := C.Apply(o.Value(), op, clock); d.registered == !d.closed
      modifies this`conns, this`streams, this`nodeOf, o, streams.Values
      modifies scheduler, scheduler.timers, scheduler.timers.heap, scheduler.timers.nodes
      ensures Wired() && Followed(id, C.Apply(old(o.Value()), op, clock))
      ensures old(scheduler.timers.due) == [] ==> scheduler.timers.due == []
      ensures Fewer()
    {
      hide StreamObject.Stream.Value, ConnObject.Conn.Value, E.Minus, C.Apply, C.Usable;
      hide ConnValues, StreamValues, Wired, OwnKeys, Alive, OthersRest, Sched.Replays, Sched.Calls;
      ConnIsWired(id);
      ConnObjectMoves(id, o, op, clock);
      if o.closed {
        ghost var due := scheduler.timers.due;
        ghost var t := CloseStreamsOf(id, reason, clock);
        Sched.ReplayShrinks(due, t, scheduler.timers.due);
      }
    }

    static lemma ReservedStill(slot: Slot)
      requires slot.Wired()
      ensures slot.scheduler.Reserved() && slot.scheduler.operationDepth > 0
    {
    }

    /** Anything that happens to a connection but a firing; finalisation takes its streams along. */
    method ConnStep(id: int, op: C.Op)
      requires Ready() && Agreed() && id in model.conns && scheduler.operationDepth > 0 && !op.Firing?
      modifies this`conns, this`streams, this`nodeOf, model, conns.Values, streams.Values
      modifies scheduler, scheduler.timers, scheduler.timers.heap, scheduler.timers.nodes
      ensures Ready() && Agreed()
      ensures old(scheduler.timers.due) == [] ==> scheduler.timers.due == []
      ensures scheduler.operationDepth == old(scheduler.operationDepth) && model.clock == old(model.clock) && Fewer()
      ensures var d := C.Apply(old(model.conns)[id], op, model.clock);
        if d.closed
        then model.conns == E.Minus(old(model.conns), id)
             && E.Cascaded(
                  old(model.streams), model.streams, id, {}, model.pendingRelease, model.finals,
                  Steps.Verdict(old(model.conns)[id], op))
        else model.conns == old(model.conns)[id := d] && model.streams == old(model.streams)
    {
      hide StreamObject.Stream.Value, ConnObject.Conn.Value, E.Minus, Records, C.Apply, C.Usable, E.Cascaded, Steps.Verdict;
      hide E.Engine.Inv, ConnValues, StreamValues, OwnKeys, Alive, Wired, Fewer;
      ConnOnRecord(id);
      model.ConnAlive(id, op);
      RecordsAlive();
      var o := conns[id];
      var reason := Steps.Verdict(model.conns[id], op);
      PutThenDrop(model.conns, id, C.Apply(model.conns[id], op, model.clock));
      ConnObjectStep(id, o, op, reason, model.clock);
      model.ConnStep(id, op);
      StreamsFollow(
        old(model.streams), model.streams, StreamValues(), id, C.Apply(old(model.conns)[id], op, model.clock).closed,
        model.pendingRelease, model.finals, reason);
    }

    /** Of the live owners, those in `todo` are the ones that are due. */
    ghost predicate Pending(todo: set<E.Owned>)
      reads this`nodeOf, nodeOf.Values
    {
      forall o | o in nodeOf :: o in todo <==> nodeOf[o].state == Due
    }

    /** The objects' part in the firing of a stream. */
    method StreamObjectFires(
      k: E.Key, o: StreamObject.Stream, up: bool, clock: Int64, check: Int64, ghost todo: set<E.Owned>)
      requires Wired() && scheduler.operationDepth > 0 && k in streams && streams[k] == o && Pending(todo)
      requires S.Acceptable(o.config) && var s := Runs.FireTimer(o.Value(), up, clock, clock, check); s.registered == !s.closed
      requires scheduler.timers.due != [] && scheduler.timers.due[0] == o.slot.node && o.slot.node.deadline <= clock
      modifies this`streams, this`nodeOf, o, scheduler, scheduler.timers, scheduler.timers.heap
      modifies scheduler.timers.nodes`heapIndex, o.slot.node
      ensures Wired() && o.slot.scheduler == scheduler && o.slot.Ran() && Pending(todo - {E.OfStream(k)}) && Fewer()
      ensures ConnValues() == old(ConnValues())
      ensures var s := Runs.FireTimer(old(o.Value()), up, clock, clock, check);
        StreamValues() == if s.closed then old(StreamValues())[k := s] - {k} else old(StreamValues())[k := s]
    {
      hide Runs.FireTimer, StreamObject.Stream.Value, ConnObject.Conn.Value, ConnValues, StreamValues, S.Acceptable;
      hide Wiring, scheduler.Reserved, Slot.Wired, Within;
      WithinItself(conns, 0);
      ValueOf(o);
      StreamIsWired(k);
      FireOnce(k, o, up, clock, check, todo);
      ValueOf(o);
      ReservedStill(o.slot);
      LetStreamGo(k, o);
    }

    /** Once it has fired, a stream is no longer to do so. */
    method FireOnce(k: E.Key, o: StreamObject.Stream, up: bool, clock: Int64, check: Int64, ghost todo: set<E.Owned>)
      requires Wiring(conns, streams, nodeOf, scheduler) && k in streams && streams[k] == o && o.Wired() && Pending(todo)
      requires scheduler.timers.due != [] && scheduler.timers.due[0] == o.slot.node && o.slot.node.deadline <= clock
      modifies o, scheduler, scheduler.timers, scheduler.timers.heap, scheduler.timers.nodes`heapIndex, o.slot.node
      ensures ConnValues() == old(ConnValues()) && StreamValues() == old(StreamValues())[k := o.Value()]
      ensures o.Wired() && o.Value() == Runs.FireTimer(old(o.Value()), up, clock, clock, check)
      ensures o.slot.Ran() && Pending(todo - {E.OfStream(k)})
    {
      hide Runs.FireTimer, StreamObject.Stream.Value, StreamObject.Stream.Wired, ConnValues, StreamValues, Wiring;
      WiredOwner(conns, streams, nodeOf, scheduler, E.OfStream(k));
      OwnNode(conns, streams, nodeOf, scheduler, E.OfStream(k));
      NodesDiffer(E.OfStream(k));
      FireStreamObject(k, o, up, clock, clock, check);
    }

    /** The same, on the trace. */
    method StreamObjectCalled(
      k: E.Key, o: StreamObject.Stream, up: bool, clock: Int64, check: Int64, ghost todo: set<E.Owned>)
      returns (ghost t: seq<Sched.Happening<Node>>)
      requires Wired() && scheduler.operationDepth > 0 && k in streams && streams[k] == o && Pending(todo)
      requires S.Acceptable(o.config) && var s := Runs.FireTimer(o.Value(), up, clock, clock, check); s.registered == !s.closed
      requires scheduler.timers.due != [] && scheduler.timers.due[0] == o.slot.node && o.slot.node.deadline <= clock
      modifies this`streams, this`nodeOf, o, scheduler, scheduler.timers, scheduler.timers.heap
      modifies scheduler.timers.nodes`heapIndex, o.slot.node
      ensures Wired() && Pending(todo - {E.OfStream(k)}) && scheduler.operationDepth == old(scheduler.operationDepth)
      ensures ConnValues() == old(ConnValues())
      ensures var s := Runs.FireTimer(old(o.Value()), up, clock, clock, check);
        StreamValues() == if s.closed then old(StreamValues())[k := s] - {k} else old(StreamValues())[k := s]
      ensures Traced(t) && |Sched.Calls(t)| == 1 && Fewer()
    {
      hide Runs.FireTimer, StreamObject.Stream.Value, ConnObject.Conn.Value, ConnValues, StreamValues, S.Acceptable;
      hide Wired, Pending, Sched.Replays, Sched.Calls, Fewer;
      StreamIsWired(k);
      StreamObjectFires(k, o, up, clock, check, todo);
      Sched.OneCalled(old(scheduler.timers.due));
      t := [Sched.Called(o.slot.node)];
    }

    /** The objects' part in the firing of a connection, but for the streams. */
    method ConnObjectFires(id: int, o: ConnObject.Conn, clock: Int64, ghost todo: set<E.Owned>)
      requires Wired() && scheduler.operationDepth > 0 && id in conns && conns[id] == o
      requires Pending(todo) && C.Usable(o.config)
      requires var d := C.Fire(o.Value(), clock, clock); d.registered == !d.closed
      requires scheduler.timers.due != [] && scheduler.timers.due[0] == o.slot.node && o.slot.node.deadline <= clock
      modifies this`conns, this`nodeOf, o
      modifies scheduler, scheduler.timers, scheduler.timers.heap, scheduler.timers.nodes`heapIndex, o.slot.node
      ensures Wired() && o.slot.Ran() && Pending(todo - {E.OfConn(id)}) && StreamValues() == old(StreamValues())
      ensures o.slot.scheduler == scheduler && o.closed == C.Fire(old(o.Value()), clock, clock).closed && Fewer()
      ensures var d := C.Fire(old(o.Value()), clock, clock);
        ConnValues() == if d.closed then old(ConnValues())[id := d] - {id} else old(ConnValues())[id := d]
    {
      hide C.Fire, StreamObject.Stream.Value, ConnObject.Conn.Value, ConnValues, StreamValues, C.Usable, E.Minus;
      hide Wiring, scheduler.Reserved, Slot.Wired, Within;
      WithinItself(streams, E.Key(0, 0));
      ConnIsWired(id);
      WiredOwner(conns, streams, nodeOf, scheduler, E.OfConn(id));
      OwnNode(conns, streams, nodeOf, scheduler, E.OfConn(id));
      NodesDiffer(E.OfConn(id));
      FireConnObject(id, o, clock, clock);
      ConnValueOf(o);
      ReservedStill(o.slot);
      LetConnGo(id, o);
    }

    /** The same, on the trace and with the cascade, should the connection end. */
    method ConnObjectCalled(id: int, o: ConnObject.Conn, reason: C.Reason, clock: Int64, ghost todo: set<E.Owned>)
      returns (ghost t: seq<Sched.Happening<Node>>)
      requires Wired() && scheduler.operationDepth > 0 && id in conns && conns[id] == o && Alive(StreamValues())
      requires Pending(todo) && C.Usable(o.config)
      requires var d := C.Fire(o.Value(), clock, clock); d.registered == !d.closed
      requires scheduler.timers.due != [] && scheduler.timers.due[0] == o.slot.node && o.slot.node.deadline <= clock
      modifies this`conns, this`streams, this`nodeOf, o, streams.Values
      modifies scheduler, scheduler.timers, scheduler.timers.heap, scheduler.timers.nodes
      ensures Wired() && Followed(id, C.Fire(old(o.Value()), clock, clock)) && Pending(todo - {E.OfConn(id)})
      ensures Traced(t) && |Sched.Calls(t)| == 1 && Fewer()
    {
      hide C.Fire, StreamObject.Stream.Value, ConnObject.Conn.Value, ConnValues, StreamValues, C.Usable, E.Minus;
      hide Wired, Sched.Replays, Sched.Calls, OwnKeys, Alive, Pending;
      ConnIsWired(id);
      ConnObjectFires(id, o, clock, todo);
      ghost var rest := [];
      scheduler.NoReplay(scheduler.timers.due);
      if o.closed {
        rest := Cascade(id, reason, clock, todo - {E.OfConn(id)});
      }
      t := [Sched.Called(o.slot.node)] + rest;
      Sched.HeadCalled(old(scheduler.timers.due), rest, scheduler.timers.due, old(scheduler.trace));
    }

    /** The cascade leaves what else is due as it was. */
    method Cascade(id: int, reason: S.Reason, clock: Int64, ghost todo: set<E.Owned>)
      returns (ghost t: seq<Sched.Happening<Node>>)
      requires Wired() && scheduler.operationDepth > 0 && Alive(StreamValues()) && Pending(todo)
      modifies this`streams, this`nodeOf, streams.Values, scheduler, scheduler.timers, scheduler.timers.heap
      modifies scheduler.timers.nodes
      ensures Wired() && scheduler.operationDepth == old(scheduler.operationDepth) && Pending(todo)
      ensures StreamValues() == old(StreamValues()) - OwnKeys(old(StreamValues()), id) && ConnValues() == old(ConnValues())
      ensures Traced(t) && Sched.Calls(t) == [] && Fewer()
    {
      hide ConnValues, StreamValues, Traced, Sched.Calls, OwnKeys, Alive, Wiring, scheduler.timers.Valid;
      assert forall o | o in nodeOf :: nodeOf[o] in nodeOf.Values;
      t := CloseStreamsOf(id, reason, clock);
      assert forall o | o in nodeOf :: nodeOf[o] in nodeOf.Values;
    }

    lemma NodesDiffer(o: E.Owned)
      requires Wiring(conns, streams, nodeOf, scheduler) && o in nodeOf
      ensures forall p | p in nodeOf && p != o :: nodeOf[p] != nodeOf[o]
    {
    }

    /** The dispatch loop has come to a stream. */
    method FireStream(
      k: E.Key, checks: E.Key -> int, ghost wasConns: E.Conns, ghost wasStreams: E.Streams, ghost todo: set<E.Owned>)
      returns (ghost t: seq<Sched.Happening<Node>>)
      requires Ready() && Agreed() && scheduler.operationDepth > 0 && k in streams
      requires Firing(wasConns, wasStreams, todo, checks) && Pending(todo) && E.OfStream(k) in todo
      requires scheduler.timers.due != [] && scheduler.timers.due[0] == streams[k].slot.node
      requires streams[k].slot.node.deadline <= model.clock
      modifies this`streams, this`nodeOf, model, streams[k], scheduler, scheduler.timers, scheduler.timers.heap
      modifies scheduler.timers.nodes`heapIndex, streams[k].slot.node
      ensures Ready() && Agreed() && Pending(todo - {E.OfStream(k)})
      ensures scheduler.operationDepth == old(scheduler.operationDepth) && model.clock == old(model.clock)
      ensures Firing(wasConns, wasStreams, todo - {E.OfStream(k)}, checks)
      ensures Traced(t) && |Sched.Calls(t)| == 1 && Fewer()
    {
      hide Runs.FireTimer, StreamObject.Stream.Value, ConnObject.Conn.Value, E.Minus, Records, E.Engine.Inv;
      hide ConnValues, StreamValues, S.Acceptable, Wired, Sched.Replays, Sched.Calls, E.ConnsFired, E.StreamsFired;
      hide Pending, E.DueNodes, Fewer, Traced;
      var up, clock: Int64 := E.Up(model.conns, k.conn), model.clock;
      StreamOnRecord(k);
      model.RegisteredIffLive(k, Runs.Step(Runs.Fire, up, clock, clock, checks(k)));
      ValueOf(streams[k]);
      ghost var s := Runs.FireTimer(model.streams[k].s, up, clock, clock, checks(k));
      RecordsPut(model.streams, k, model.streams[k].serial, s);
      RecordsDrop(model.streams, k, s);
      t := StreamObjectCalled(k, streams[k], up, clock, checks(k), todo);
      model.FireStream(k, clock, checks, wasConns, wasStreams, todo);
    }

    /** Part-way through an update: of what was due, `todo` is still to fire, and the rest has. */
    ghost predicate Firing(wasConns: E.Conns, wasStreams: E.Streams, todo: set<E.Owned>, checks: E.Key -> int)
      reads model`conns, model`streams, model`clock
    {
      && (forall id | id in wasConns :: !wasConns[id].closed) && (forall k :: StreamObject.IsInt64(checks(k)))
      && todo <= E.DueNodes(wasConns, wasStreams, model.clock)
      && E.ConnsFired(wasConns, model.conns, todo, model.clock, model.clock)
      && E.StreamsFired(wasStreams, model.streams, wasConns, model.conns, todo, model.clock, model.clock, checks)
    }

    /** The dispatch loop has come to a connection. */
    method FireConn(
      id: int, ghost checks: E.Key -> int, ghost wasConns: E.Conns, ghost wasStreams: E.Streams, ghost todo: set<E.Owned>)
      returns (ghost t: seq<Sched.Happening<Node>>)
      requires Ready() && Agreed() && scheduler.operationDepth > 0 && id in conns
      requires Firing(wasConns, wasStreams, todo, checks) && Pending(todo) && E.OfConn(id) in todo
      requires scheduler.timers.due != [] && scheduler.timers.due[0] == conns[id].slot.node
      requires conns[id].slot.node.deadline <= model.clock
      modifies this`conns, this`streams, this`nodeOf, model, conns[id], streams.Values
      modifies scheduler, scheduler.timers, scheduler.timers.heap, scheduler.timers.nodes
      ensures Ready() && Agreed() && Pending(todo - {E.OfConn(id)})
      ensures scheduler.operationDepth == old(scheduler.operationDepth) && model.clock == old(model.clock)
      ensures Firing(wasConns, wasStreams, todo - {E.OfConn(id)}, checks)
      ensures Traced(t) && |Sched.Calls(t)| == 1 && Fewer()
    {
      hide StreamObject.Stream.Value, ConnObject.Conn.Value, E.Minus, Records, C.Fire, C.Usable, E.Cascaded, Steps.Verdict;
      hide E.Engine.Inv, ConnValues, StreamValues, OwnKeys, Alive, Wired, Pending, Traced, Sched.Calls, Fewer;
      hide E.ConnsFired, E.StreamsFired, E.DueNodes;
      var clock: Int64 := model.clock;
      ConnOnRecord(id);
      model.ConnAlive(id, C.Firing(clock));
      RecordsAlive();
      var reason := Steps.Verdict(model.conns[id], C.Firing(clock));
      PutThenDrop(model.conns, id, C.Fire(model.conns[id], clock, clock));
      t := ConnObjectCalled(id, conns[id], reason, clock, todo);
      model.FireConn(id, clock, checks, wasConns, wasStreams, todo);
      StreamsFollow(
        old(model.streams), model.streams, StreamValues(), id, C.Fire(old(model.conns)[id], clock, clock).closed,
        model.pendingRelease, model.finals, reason);
    }

    /** The owner of the first node that is due. */
    lemma FirstOwner(checks: E.Key -> int, wasConns: E.Conns, wasStreams: E.Streams, todo: set<E.Owned>)
      returns (o: E.Owned)
      requires Ready() && Agreed() && Firing(wasConns, wasStreams, todo, checks) && Pending(todo)
      requires scheduler.timers.due != []
      ensures o in nodeOf && nodeOf[o] == scheduler.timers.due[0] && o in todo && nodeOf[o].deadline <= model.clock
      ensures if o.OfConn? then o.id in conns && conns[o.id].slot.node == nodeOf[o]
              else o.key in streams && streams[o.key].slot.node == nodeOf[o]
    {
      hide E.Engine.Inv, ConnValues, StreamValues, E.ConnsFired, E.StreamsFired, E.DueNodes, scheduler.Reserved;
      hide ConnObject.Conn.Value, StreamObject.Stream.Value;
      var node := scheduler.timers.due[0];
      FirstIsDue();
      o :| o in nodeOf && nodeOf[o] == node;
      if o.OfConn? {
        ConnOnRecord(o.id);
      } else {
        StreamOnRecord(o.key);
        model.StreamAlive(o.key);
        ValueOf(streams[o.key]);
      }
      E.DueStill(wasConns, model.conns, wasStreams, model.streams, todo, o, model.clock, model.clock, checks);
    }

    lemma FirstIsDue()
      requires Wired() && scheduler.timers.due != []
      ensures scheduler.timers.due[0].state == Due && scheduler.timers.due[0] in nodeOf.Values
    {
      hide HeapOrder, scheduler.timers.Linked, scheduler.timers.Stamped, Wiring;
    }

    /** One turn of the dispatch loop. */
    method FireFirst(checks: E.Key -> int, ghost wasConns: E.Conns, ghost wasStreams: E.Streams, ghost todo: set<E.Owned>)
      returns (ghost o: E.Owned, ghost t: seq<Sched.Happening<Node>>)
      requires Ready() && Agreed() && scheduler.operationDepth > 0 && scheduler.timers.due != []
      requires Firing(wasConns, wasStreams, todo, checks) && Pending(todo)
      modifies this`conns, this`streams, this`nodeOf, model, conns.Values, streams.Values
      modifies scheduler, scheduler.timers, scheduler.timers.heap, scheduler.timers.nodes
      ensures Ready() && Agreed() && scheduler.operationDepth == old(scheduler.operationDepth)
      ensures o in todo && Firing(wasConns, wasStreams, todo - {o}, checks) && Pending(todo - {o})
      ensures Traced(t) && |Sched.Calls(t)| == 1 && Fewer() && model.clock == old(model.clock)
    {
      hide Firing, Pending, Agreed, Traced, Sched.Calls, Fewer, Wired, E.Engine.Inv;
      ghost var first := FirstOwner(checks, wasConns, wasStreams, todo);
      var node := scheduler.timers.due[0];
      var owner: E.Owned :| owner in nodeOf && nodeOf[owner] == node;
      NodeNamesOwner(first, owner);
      OwnersKnown(owner);
      o := owner;
      match owner {
        case OfConn(id) => t := FireConn(id, checks, wasConns, wasStreams, todo);
        case OfStream(k) => t := FireStream(k, checks, wasConns, wasStreams, todo);
      }
    }

    lemma OwnersKnown(o: E.Owned)
      requires Wired() && scheduler.operationDepth > 0 && o in nodeOf
      ensures nodeOf[o] in scheduler.timers.nodes
    {
      hide scheduler.timers.Valid;
      assert nodeOf[o] in nodeOf.Values;
    }

    lemma NodeNamesOwner(o: E.Owned, p: E.Owned)
      requires Wired() && o in nodeOf && p in nodeOf && nodeOf[o] == nodeOf[p]
      ensures o == p
    {
      hide scheduler.Reserved;
    }

    /** An owner is due on record exactly if its node is in the queue with its time up. */
    lemma DueOnRecord(o: E.Owned, now: int)
      requires Agreed() && Wiring(conns, streams, nodeOf, scheduler) && o in nodeOf
      ensures o in E.DueNodes(model.conns, model.streams, now) <==> Seen(nodeOf[o].state) == InHeap && nodeOf[o].deadline <= now
    {
      hide ConnValues, StreamValues, ConnObject.Conn.Value, StreamObject.Stream.Value;
      if o.OfConn? {
        ConnOnRecord(o.id);
        ConnAlarm(conns[o.id]);
      } else {
        StreamOnRecord(o.key);
        StreamAlarm(streams[o.key]);
      }
    }

    static lemma ConnAlarm(o: ConnObject.Conn)
      ensures o.Value().alarm == S.Alarm(Seen(o.slot.node.state), o.slot.node.deadline)
    {
    }

    static lemma StreamAlarm(o: StreamObject.Stream)
      ensures o.Value().alarm == S.Alarm(Seen(o.slot.node.state), o.slot.node.deadline)
    {
    }

    lemma AllKnown()
      requires Wired()
      ensures forall o | o in nodeOf :: nodeOf[o] in scheduler.timers.nodes
      ensures forall id | id in conns :: conns[id].slot.node in scheduler.timers.nodes
      ensures forall k | k in streams :: streams[k].slot.node in scheduler.timers.nodes
    {
      hide scheduler.timers.Valid;
      assert forall o | o in nodeOf :: nodeOf[o] in nodeOf.Values;
    }

    /** What is due leaves the queue, which its owners do not see. */
    method Gather(now: Int64)
      requires Wired() && scheduler.Quiet() && scheduler.operationDepth == 0
      modifies scheduler`armed, scheduler`operationDepth
      modifies scheduler.timers`size, scheduler.timers`items, scheduler.timers`ranks, scheduler.timers`due, scheduler.timers.heap
      modifies scheduler.timers.nodes`heapIndex, scheduler.timers.nodes`state
      ensures Wired() && scheduler.operationDepth == 1 && !scheduler.armed
      ensures scheduler.IsSnapshot(scheduler.timers.due, now) && Distinct(scheduler.timers.due)
      ensures forall n | n in scheduler.timers.nodes :: Seen(n.state) == Seen(old(n.state))
      ensures forall n | n in scheduler.timers.nodes :: n.state == Due <==> Seen(n.state) == InHeap && n.deadline <= now
    {
      hide Distinct, scheduler.timers.Valid, Before, Wiring;
      scheduler.BeginUpdate(now);
    }

    method GatherConns(now: Int64)
      requires Wired() && scheduler.Quiet() && scheduler.operationDepth == 0
      modifies scheduler`armed, scheduler`operationDepth
      modifies scheduler.timers`size, scheduler.timers`items, scheduler.timers`ranks, scheduler.timers`due, scheduler.timers.heap
      modifies scheduler.timers.nodes`heapIndex, scheduler.timers.nodes`state
      ensures Wired() && scheduler.operationDepth == 1 && !scheduler.armed
      ensures ConnValues() == old(ConnValues())
      ensures scheduler.IsSnapshot(scheduler.timers.due, now) && Distinct(scheduler.timers.due)
      ensures forall n | n in scheduler.timers.nodes :: Seen(n.state) == Seen(old(n.state))
      ensures forall n | n in scheduler.timers.nodes :: n.state == Due <==> Seen(n.state) == InHeap && n.deadline <= now
    {
      hide ConnObject.Conn.With, Wired, Seen, scheduler.IsSnapshot, scheduler.Quiet, Distinct;
      AllKnown();
      Gather(now);
      forall id | id in conns ensures conns[id].Value() == old(conns[id].Value()) {
        assert conns[id].slot.Alarm() == old(conns[id].slot.Alarm());
      }
    }

    method CollectDue(now: Int64)
      requires Wired() && scheduler.Quiet() && scheduler.operationDepth == 0
      modifies scheduler`armed, scheduler`operationDepth
      modifies scheduler.timers`size, scheduler.timers`items, scheduler.timers`ranks, scheduler.timers`due, scheduler.timers.heap
      modifies scheduler.timers.nodes`heapIndex, scheduler.timers.nodes`state
      ensures Wired() && scheduler.operationDepth == 1 && !scheduler.armed
      ensures ConnValues() == old(ConnValues()) && StreamValues() == old(StreamValues())
      ensures scheduler.IsSnapshot(scheduler.timers.due, now) && Distinct(scheduler.timers.due)
      ensures forall n | n in scheduler.timers.nodes :: n.state == Due <==> Seen(n.state) == InHeap && n.deadline <= now
    {
      hide StreamObject.Stream.With, Wired, Seen, scheduler.IsSnapshot, scheduler.Quiet, Distinct, ConnValues;
      AllKnown();
      GatherConns(now);
      forall k | k in streams ensures streams[k].Value() == old(streams[k].Value()) {
        assert streams[k].slot.Alarm() == old(streams[k].slot.Alarm());
      }
    }

    /** With nothing due, every node is idle or in the queue. */
    lemma RestIsQuiet()
      requires Ready() && Agreed() && scheduler.timers.due == []
      ensures scheduler.Quiet()
    {
      hide E.Engine.Inv, ConnValues, StreamValues, ConnObject.Conn.Value, StreamObject.Stream.Value, E.DueNodes;
      forall n | n in scheduler.timers.nodes ensures n.state == Idle || n.state == InHeap {
        if n.state != Idle {
          assert n in nodeOf.Values;
          var o :| o in nodeOf && nodeOf[o] == n;
          OwnerRests(o);
        }
      }
    }

    lemma OwnerRests(o: E.Owned)
      requires Ready() && Agreed() && o in nodeOf
      ensures nodeOf[o].state != Running
    {
      hide E.Engine.Inv, ConnValues, StreamValues, ConnObject.Conn.Value, StreamObject.Stream.Value, scheduler.Reserved;
      if o.OfConn? {
        ConnOnRecord(o.id);
        ConnAlarm(conns[o.id]);
        model.ConnRests(o.id);
      } else {
        StreamOnRecord(o.key);
        StreamAlarm(streams[o.key]);
        model.StreamAlive(o.key);
      }
    }

    /** Opens an update: all that is due is still to fire. */
    method OpenUpdate(checks: E.Key -> int) returns (ghost todo: set<E.Owned>)
      requires Ready() && Agreed() && scheduler.timers.due == [] && scheduler.operationDepth == 0
      requires forall k :: StreamObject.IsInt64(checks(k))
      modifies model`operationDepth, scheduler`armed, scheduler`operationDepth
      modifies scheduler.timers`size, scheduler.timers`items, scheduler.timers`ranks, scheduler.timers`due, scheduler.timers.heap
      modifies scheduler.timers.nodes`heapIndex, scheduler.timers.nodes`state
      ensures Ready() && Agreed() && scheduler.operationDepth == 1 && !scheduler.armed
      ensures scheduler.IsSnapshot(scheduler.timers.due, model.clock) && Distinct(scheduler.timers.due)
      ensures Firing(model.conns, model.streams, todo, checks) && Pending(todo)
    {
      hide E.Engine.Inv, ConnValues, StreamValues, Wired, E.DueNodes, E.ConnsFired, E.StreamsFired, Seen;
      hide scheduler.IsSnapshot, Distinct;
      todo := E.DueNodes(model.conns, model.streams, model.clock);
      model.FiringBegins(checks);
      RestIsQuiet();
      CollectDue(model.clock);
      model.OperationEnter();
      AllDue(todo);
    }

    lemma AllDue(todo: set<E.Owned>)
      requires Wired() && Agreed() && todo == E.DueNodes(model.conns, model.streams, model.clock)
      requires forall n | n in scheduler.timers.nodes ::
        n.state == Due <==> Seen(n.state) == InHeap && n.deadline <= model.clock
      ensures Pending(todo)
    {
      hide ConnValues, StreamValues, E.DueNodes, scheduler.Reserved, Seen, Wiring;
      AllKnown();
      forall o | o in nodeOf ensures o in todo <==> nodeOf[o].state == Due {
        DueOnRecord(o, model.clock);
      }
    }

    /** Nobody is left to fire once nothing is due. */
    lemma NobodyLeft(todo: set<E.Owned>)
      requires Wired() && Pending(todo) && scheduler.timers.due == []
      ensures forall o | o in todo :: if o.OfConn? then o.id !in conns else o.key !in streams
    {
      AllKnown();
    }

    /** The dispatch loop. */
    method DispatchAll(checks: E.Key -> int, ghost wasConns: E.Conns, ghost wasStreams: E.Streams, ghost due: set<E.Owned>)
      returns (ghost t: seq<Sched.Happening<Node>>)
      requires Ready() && Agreed() && scheduler.operationDepth > 0
      requires Firing(wasConns, wasStreams, due, checks) && Pending(due)
      modifies this`conns, this`streams, this`nodeOf, model, conns.Values, streams.Values
      modifies scheduler, scheduler.timers, scheduler.timers.heap, scheduler.timers.nodes
      ensures Ready() && Agreed() && scheduler.operationDepth == old(scheduler.operationDepth)
      ensures Firing(wasConns, wasStreams, {}, checks) && Fewer() && model.clock == old(model.clock)
      ensures scheduler.timers.due == [] && Traced(t)
    {
      hide Firing, Pending, Ready, Agreed, Sched.Calls, Sched.Replays, Within;
      ghost var todo := due;
      t := [];
      scheduler.NoReplay(scheduler.timers.due);
      WithinItself(conns, 0);
      WithinItself(streams, E.Key(0, 0));
      WithinItself(nodeOf, E.OfConn(0));
      while scheduler.timers.due != []
        invariant Ready() && Agreed() && scheduler.operationDepth == old(scheduler.operationDepth)
        invariant Firing(wasConns, wasStreams, todo, checks) && Pending(todo)
        invariant Fewer() && model.clock == old(model.clock) && Traced(t)
        decreases |scheduler.timers.due|
      {
        ghost var list := scheduler.timers.due;
        WithinValues(conns, old(conns));
        WithinValues(streams, old(streams));
        ghost var c, s, n := conns, streams, nodeOf;
        ghost var o, more := FireFirst(checks, wasConns, wasStreams, todo);
        WithinWithin(conns, c, old(conns));
        WithinWithin(streams, s, old(streams));
        WithinWithin(nodeOf, n, old(nodeOf));
        Sched.ReplaysOn(old(scheduler.timers.due), t, list, more, scheduler.timers.due);
        Sched.ReplayShrinks(list, more, scheduler.timers.due);
        Sched.CallsJoin(t, more);
        t := t + more;
        todo := todo - {o};
      }
      AllFired(checks, wasConns, wasStreams, todo);
    }

    lemma AllFired(checks: E.Key -> int, wasConns: E.Conns, wasStreams: E.Streams, todo: set<E.Owned>)
      requires Ready() && Agreed() && Firing(wasConns, wasStreams, todo, checks) && Pending(todo) && scheduler.timers.due == []
      ensures Firing(wasConns, wasStreams, {}, checks)
    {
      hide E.Engine.Inv, E.ConnsFired, E.StreamsFired, E.DueNodes, Wired, ConnObject.Conn.Value, StreamObject.Stream.Value;
      NobodyLeft(todo);
      forall o | o in todo ensures if o.OfConn? then o.id !in model.conns else o.key !in model.streams {
        if o.OfConn? && o.id in model.conns {
          ConnOnRecord(o.id);
        } else if o.OfStream? && o.key in model.streams {
          StreamOnRecord(o.key);
        }
      }
      E.FiringEnds(wasConns, model.conns, wasStreams, model.streams, todo, model.clock, model.clock, checks);
    }

    /** What holds whenever no callback is running. */
    ghost predicate AtRest()
      reads this, model, scheduler, scheduler.timers, scheduler.timers.heap, scheduler.timers.nodes, conns.Values, streams.Values
      reads set id | id in conns :: conns[id].slot.node
      reads set k | k in streams :: streams[k].slot.node
    {
      Ready() && Agreed() && scheduler.timers.due == [] && scheduler.HostAgrees()
    }

    method Enter()
      requires AtRest()
      modifies model`operationDepth, scheduler`operationDepth
      ensures AtRest() && scheduler.operationDepth == old(scheduler.operationDepth) + 1
    {
      hide E.Engine.Inv, ConnValues, StreamValues, Wiring, scheduler.timers.Valid, scheduler.Booked;
      model.OperationEnter();
      scheduler.OperationEnter();
    }

    /** The outermost leave sets the host timer for the earliest deadline there is. */
    method Leave()
      requires Ready() && Agreed() && scheduler.timers.due == [] && scheduler.operationDepth > 0
      modifies model`operationDepth, model`pendingRelease, model`released
      modifies scheduler`operationDepth, scheduler`armed, scheduler`armedDeadline, scheduler`requests
      ensures AtRest() && scheduler.operationDepth == old(scheduler.operationDepth) - 1
      ensures old(scheduler.operationDepth) == 1 && scheduler.timers.size > 0 && !old(scheduler.armed) ==>
        scheduler.requests == old(scheduler.requests) + [Sched.Delay(scheduler.timers.heap[0].deadline, model.clock)]
      ensures scheduler.operationDepth > 0 || scheduler.timers.size == 0 ==> scheduler.requests == old(scheduler.requests)
    {
      hide E.Engine.Inv, ConnValues, StreamValues, Wiring, scheduler.timers.Valid, scheduler.Booked;
      model.OperationLeave();
      scheduler.OperationLeave(model.clock);
    }

    /**
      An update of the engine.  `snapshot` is what was due on entry, in firing
      order.  The callbacks run are those of the trace `t`: a subsequence of the
      snapshot, each node once, and all of it but the nodes of streams whose
      connection ended first.  Every connection and stream left is what its own
      callback made of it, once if it was due and not at all if it was not.
     */
    method Update(checks: E.Key -> int) returns (ghost snapshot: seq<Node>, ghost t: seq<Sched.Happening<Node>>)
      requires AtRest() && scheduler.operationDepth == 0 && forall k :: StreamObject.IsInt64(checks(k))
      modifies this`conns, this`streams, this`nodeOf, model, conns.Values, streams.Values
      modifies scheduler, scheduler.timers, scheduler.timers.heap, scheduler.timers.nodes
      ensures AtRest() && scheduler.operationDepth == 0 && model.clock == old(model.clock) && Shrunk()
      ensures E.ConnsFired(old(model.conns), model.conns, {}, model.clock, model.clock)
      ensures E.StreamsFired(old(model.streams), model.streams, old(model.conns), model.conns, {}, model.clock, model.clock, checks)
      ensures scheduler.IsSnapshot(snapshot, model.clock) && Distinct(snapshot)
      ensures scheduler.trace == old(scheduler.trace) + t
      ensures scheduler.dispatchCount == old(scheduler.dispatchCount) + |Sched.Calls(t)|
      ensures Ascending(Sched.Calls(t), scheduler.Positions(snapshot))
      ensures forall n | n in snapshot :: n in Sched.Calls(t) <==> !Sched.ActedFirst(t, n)
      ensures scheduler.requests == old(scheduler.requests) +
        if scheduler.timers.size > 0 then [Sched.Delay(scheduler.timers.heap[0].deadline, model.clock)] else []
    {
      hide Firing, Pending, Ready, Agreed, E.ConnsFired, E.StreamsFired, scheduler.IsSnapshot, Distinct, Within;
      hide Sched.Replays, Sched.Calls, Sched.ActedFirst, Ascending;
      ghost var todo := OpenUpdate(checks);
      snapshot := scheduler.timers.due;
      t := DispatchAll(checks, old(model.conns), old(model.streams), todo);
      FiredIs(old(model.conns), old(model.streams), checks);
      Sched.CallsInOrder(snapshot, t, [], scheduler.Positions(snapshot));
      forall n | n in snapshot ensures n in Sched.Calls(t) <==> !Sched.ActedFirst(t, n) {
        Sched.RanUnlessActedOn(snapshot, t, n);
      }
      Leave();
    }

    lemma FiredIs(wasConns: E.Conns, wasStreams: E.Streams, checks: E.Key -> int)
      requires Firing(wasConns, wasStreams, {}, checks)
      ensures E.ConnsFired(wasConns, model.conns, {}, model.clock, model.clock)
      ensures E.StreamsFired(wasStreams, model.streams, wasConns, model.conns, {}, model.clock, model.clock, checks)
    {
    }

    /** The slot's node is registered, but nobody has it yet. */
    ghost predicate Spare(slot: Slot)
      reads this, scheduler, scheduler.timers, scheduler.timers.heap, scheduler.timers.nodes, slot.node
    {
      && Wiring(conns, streams, nodeOf, scheduler) && slot.scheduler == scheduler && slot.Wired()
      && slot.node !in nodeOf.Values && slot.node.registered && scheduler.owners == nodeOf.Values + {slot.node}
    }

    /** Only the allocator can refuse one more node. */
    ghost predicate Affordable()
      reads scheduler`timerNodeCount
    {
      scheduler.timerNodeCount + 1 < AFFORDABLE
    }

    /** A timer node for a new owner. */
    method NewSlot(allocates: bool) returns (slot: Slot?)
      requires Wired() && scheduler.operationDepth > 0
      modifies scheduler`timerNodeCount, scheduler`owners, scheduler.timers`heap, scheduler.timers`nodes
      ensures scheduler.timers.heap == old(scheduler.timers.heap) || fresh(scheduler.timers.heap)
      ensures ConnValues() == old(ConnValues()) && StreamValues() == old(StreamValues())
      ensures slot == null ==> Wired() && scheduler.timers.nodes == old(scheduler.timers.nodes)
      ensures allocates && old(Affordable()) ==> slot != null
      ensures slot != null ==>
        && Spare(slot) && fresh(slot) && fresh(slot.node) && slot.Alarm() == S.Alarm(Idle, 0)
        && scheduler.timers.nodes == old(scheduler.timers.nodes) + {slot.node}
    {
      hide Wiring, scheduler.Reserved, ConnValues, StreamValues;
      var node := NewNode(allocates);
      slot := null;
      if node != null {
        slot := new Slot(scheduler, node);
      }
    }

    method NewNode(allocates: bool) returns (node: Node?)
      requires Wired() && scheduler.operationDepth > 0
      modifies scheduler`timerNodeCount, scheduler`owners, scheduler.timers`heap, scheduler.timers`nodes
      ensures scheduler.Reserved() && (scheduler.timers.heap == old(scheduler.timers.heap) || fresh(scheduler.timers.heap))
      ensures ConnValues() == old(ConnValues()) && StreamValues() == old(StreamValues())
      ensures node == null ==> scheduler.owners == nodeOf.Values && scheduler.timers.nodes == old(scheduler.timers.nodes)
      ensures allocates && old(Affordable()) ==> node != null
      ensures node != null ==>
        && fresh(node) && node !in nodeOf.Values && node.registered && node.state == Idle && node.deadline == 0
        && scheduler.owners == nodeOf.Values + {node} && scheduler.timers.nodes == old(scheduler.timers.nodes) + {node}
    {
      hide Wiring, scheduler.Reserved, ConnValues, StreamValues;
      ghost var nodes := nodeOf.Values;
      var r, added := scheduler.RegisterNode(allocates);
      node := added;
    }

    /** None of the owners has the spare node. */
    lemma SpareIsNobodys(slot: Slot)
      requires Spare(slot)
      ensures forall id | id in conns :: conns[id].slot.node != slot.node
      ensures forall k | k in streams :: streams[k].slot.node != slot.node
    {
      hide Slot.Wired;
    }

    method MakeStream(
      k: E.Key, slot: Slot, isInitiator: bool, config: S.Config, hooked: bool, clock: Int64, check: Int64)
      returns (o: StreamObject.Stream)
      requires Spare(slot) && S.Acceptable(config) && slot.Alarm() == S.Alarm(Idle, 0)
      modifies scheduler, scheduler.timers, scheduler.timers.heap, scheduler.timers.nodes`heapIndex, slot.node
      ensures Spare(slot) && slot.Local() && fresh(o) && o.slot == slot
      ensures o.Value() == S.New(k.id, isInitiator, config, hooked, true, clock, check)
      ensures ConnValues() == old(ConnValues()) && StreamValues() == old(StreamValues())
    {
      hide Wiring, Slot.Wired, Slot.Alarm, S.Acceptable, StreamObject.Stream.Value, ConnValues, StreamValues, S.New;
      SpareIsNobodys(slot);
      o := new StreamObject.Stream(slot, k.id, isInitiator, config, hooked, true, clock, check);
      ValueOf(o);
      NewIsRegistered(k.id, isInitiator, config, hooked, clock, check);
    }

    static lemma NewIsRegistered(id: int, isInitiator: bool, config: S.Config, hooked: bool, clock: int, check: int)
      ensures S.New(id, isInitiator, config, hooked, true, clock, check).registered
    {
    }

    /** A stream object is made and gets its place. */
    method BearStream(
      k: E.Key, slot: Slot, isInitiator: bool, config: S.Config, hooked: bool, clock: Int64, check: Int64)
      requires Spare(slot) && k !in streams && S.Acceptable(config) && slot.Alarm() == S.Alarm(Idle, 0)
      modifies this`streams, this`nodeOf, scheduler, scheduler.timers, scheduler.timers.heap
      modifies scheduler.timers.nodes`heapIndex, slot.node
      ensures Wired() && slot.Local()
      ensures ConnValues() == old(ConnValues())
      ensures StreamValues() == old(StreamValues())[k := S.New(k.id, isInitiator, config, hooked, true, clock, check)]
      ensures k in streams && fresh(streams[k]) && streams == old(streams)[k := streams[k]]
    {
      hide Spare, Wired, Slot.Local, Slot.Alarm, S.Acceptable, ConnValues, StreamValues, S.New;
      var o := MakeStream(k, slot, isInitiator, config, hooked, clock, check);
      PlaceStream(k, o);
    }

    method PlaceStream(k: E.Key, o: StreamObject.Stream)
      requires Spare(o.slot) && k !in streams
      modifies this`streams, this`nodeOf
      ensures Wired() && streams == old(streams)[k := o]
      ensures ConnValues() == old(ConnValues()) && StreamValues() == old(StreamValues())[k := o.Value()]
    {
      hide Wiring, Slot.Wired, scheduler.Reserved, ConnObject.Conn.Value, StreamObject.Stream.Value;
      ReservedStill(o.slot);
      AddStreamWiring(conns, streams, nodeOf, scheduler, k, o);
      streams := streams[k := o];
      nodeOf := nodeOf[E.OfStream(k) := o.slot.node];
    }

    /** New owners and their nodes are newly made. */
    twostate predicate Grown()
      reads this, scheduler.timers
    {
      && fresh(conns.Values - old(conns.Values)) && fresh(streams.Values - old(streams.Values))
      && fresh(scheduler.timers.nodes - old(scheduler.timers.nodes)) && old(scheduler.timers.nodes) <= scheduler.timers.nodes
      && (scheduler.timers.heap == old(scheduler.timers.heap) || fresh(scheduler.timers.heap))
    }

    /** A stream object with a node of its own, if memory is to be had. */
    method AddStreamObject(
      k: E.Key, isInitiator: bool, config: S.Config, hooked: bool, allocates: bool, clock: Int64, check: Int64)
      returns (made: bool)
      requires Wired() && scheduler.timers.due == [] && scheduler.operationDepth > 0
      requires k !in streams && S.Acceptable(config)
      modifies this`streams, this`nodeOf, scheduler, scheduler.timers, scheduler.timers.heap
      modifies scheduler.timers.nodes`heapIndex
      ensures Wired() && scheduler.timers.due == [] && scheduler.operationDepth == old(scheduler.operationDepth) && Grown()
      ensures allocates && old(Affordable()) ==> made
      ensures ConnValues() == old(ConnValues())
      ensures StreamValues() == if !made then old(StreamValues()) else
        old(StreamValues())[k := S.New(k.id, isInitiator, config, hooked, true, clock, check)]
    {
      hide ConnValues, StreamValues, S.Acceptable, S.New, Wired, Spare, Slot.Alarm;
      var slot := NewSlot(allocates);
      if slot == null {
        return false;
      }
      SpareHere(slot);
      BearStream(k, slot, isInitiator, config, hooked, clock, check);
      return true;
    }

    /** A stream, on record and as an object; `made` is false if memory ran out. */
    method OpenStream(k: E.Key, isInitiator: bool, config: S.Config, hooked: bool, allocates: bool, check: Int64)
      returns (made: bool)
      requires Ready() && Agreed() && scheduler.timers.due == [] && scheduler.operationDepth > 0
      requires k !in streams && E.Up(model.conns, k.conn) && S.Acceptable(config)
      modifies this`streams, this`nodeOf, model, scheduler, scheduler.timers, scheduler.timers.heap
      modifies scheduler.timers.nodes`heapIndex
      ensures Ready() && Agreed() && scheduler.timers.due == []
      ensures scheduler.operationDepth == old(scheduler.operationDepth) && model.clock == old(model.clock) && Grown()
      ensures allocates && old(Affordable()) ==> made
      ensures model.conns == old(model.conns) && model.streams == if !made then old(model.streams) else
        old(model.streams)[k := E.Entry(
          old(model.streamCreated), S.New(k.id, isInitiator, config, hooked, true, model.clock, check))]
    {
      hide E.Engine.Inv, ConnValues, StreamValues, S.Acceptable, S.New, Records, Wired, Grown;
      NotOnRecord(k);
      ghost var s := S.New(k.id, isInitiator, config, hooked, true, model.clock, check);
      RecordsPut(model.streams, k, model.streamCreated, s);
      made := AddStreamObject(k, isInitiator, config, hooked, allocates, model.clock, check);
      if made {
        model.OpenStream(k, config, isInitiator, hooked, check);
      }
    }

    lemma NotOnRecord(k: E.Key)
      requires Agreed()
      ensures k in streams <==> k in model.streams
    {
      hide StreamObject.Stream.Value, ConnObject.Conn.Value;
      assert k in StreamValues() <==> k in Records(model.streams);
    }

    lemma SpareHere(slot: Slot)
      requires Spare(slot)
      ensures slot.scheduler == scheduler && slot.node in scheduler.timers.nodes
    {
    }

    /** A connection object of an initiator. */
    method MakeDialer(id: int, slot: Slot, config: C.Config, hooked: bool, clock: Int64) returns (o: ConnObject.Conn)
      requires Spare(slot) && C.Usable(config) && slot.Alarm() == S.Alarm(Idle, 0)
      modifies scheduler, scheduler.timers, scheduler.timers.heap, scheduler.timers.nodes`heapIndex, slot.node
      ensures Spare(slot) && slot.Local() && fresh(o) && o.slot == slot
      ensures o.Value() == C.Connect(id, config, hooked, clock)
      ensures ConnValues() == old(ConnValues()) && StreamValues() == old(StreamValues())
    {
      hide Wiring, Slot.Wired, Slot.Alarm, C.Usable, ConnObject.Conn.Value, ConnValues, StreamValues, C.Connect;
      SpareIsNobodys(slot);
      o := new ConnObject.Conn.Dialed(slot, id, config, hooked, clock);
      ConnValueOf(o);
      BornRegistered(id, 0, config, hooked, 0, clock);
    }

    /** A connection object of an acceptor whose application has agreed. */
    method MakeAcceptor(id: int, peerId: int, slot: Slot, config: C.Config, hooked: bool, clock: Int64)
      returns (o: ConnObject.Conn)
      requires Spare(slot) && C.Usable(config) && slot.Alarm() == S.Alarm(Idle, 0)
      modifies scheduler, scheduler.timers, scheduler.timers.heap, scheduler.timers.nodes`heapIndex, slot.node
      ensures Spare(slot) && slot.Local() && fresh(o) && o.slot == slot
      ensures o.Value() == C.Admitted(C.Met(id, peerId, config, hooked, clock), clock)
      ensures ConnValues() == old(ConnValues()) && StreamValues() == old(StreamValues())
    {
      hide Wiring, Slot.Wired, Slot.Alarm, C.Usable, ConnObject.Conn.Value, ConnValues, StreamValues, C.Admitted;
      hide C.Met;
      SpareIsNobodys(slot);
      o := new ConnObject.Conn.Accepted(slot, id, peerId, config, hooked, clock);
      ConnValueOf(o);
      BornRegistered(id, peerId, config, hooked, 0, clock);
    }

    /** A connection object whose application refused: its node goes back at once. */
    method TurnAway(id: int, peerId: int, slot: Slot, config: C.Config, hooked: bool, result: int, clock: Int64)
      returns (o: ConnObject.Conn)
      requires Spare(slot) && C.Usable(config) && slot.Alarm() == S.Alarm(Idle, 0)
      modifies scheduler, scheduler.timers, scheduler.timers.heap, scheduler.timers.nodes`heapIndex, slot.node
      ensures Wired() && slot.Local() && fresh(o)
      ensures o.Value() == Steps.TurnedDown(C.Met(id, peerId, config, hooked, clock), result)
      ensures ConnValues() == old(ConnValues()) && StreamValues() == old(StreamValues())
    {
      hide Wiring, Slot.Wired, Slot.Alarm, C.Usable, ConnObject.Conn.Value, ConnValues, StreamValues, Steps.TurnedDown;
      hide C.Met, scheduler.Reserved;
      SpareIsNobodys(slot);
      o := new ConnObject.Conn.Refused(slot, id, peerId, config, hooked, result, clock);
      ConnValueOf(o);
      BornRegistered(id, peerId, config, hooked, result, clock);
      ReservedStill(slot);
    }

    static lemma BornRegistered(id: int, peerId: int, config: C.Config, hooked: bool, result: int, clock: int)
      requires C.Usable(config)
      ensures C.Connect(id, config, hooked, clock).registered
      ensures var c := C.Met(id, peerId, config, hooked, clock);
        C.Admitted(c, clock).registered && !Steps.TurnedDown(c, result).registered
    {
      hide C.Connect, C.Met, C.Admitted;
      C.BirthWakes(id, peerId, config, hooked, clock);
      C.AdmissionEvolves(C.Met(id, peerId, config, hooked, clock), clock);
    }

    method PlaceConn(id: int, o: ConnObject.Conn)
      requires Spare(o.slot) && id !in conns
      modifies this`conns, this`nodeOf
      ensures Wired() && conns == old(conns)[id := o]
      ensures StreamValues() == old(StreamValues()) && ConnValues() == old(ConnValues())[id := o.Value()]
    {
      hide Wiring, Slot.Wired, scheduler.Reserved, ConnObject.Conn.Value, StreamObject.Stream.Value;
      ReservedStill(o.slot);
      AddConnWiring(conns, streams, nodeOf, scheduler, id, o);
      conns := conns[id := o];
      nodeOf := nodeOf[E.OfConn(id) := o.slot.node];
    }

    /** A peer's stream its application turned down. */
    method RejectStream(k: E.Key, check: Int64)
      requires Ready() && Agreed() && k in streams && scheduler.operationDepth > 0
      requires k in model.streams && model.streams[k].s.state == S.Open
      modifies this`streams, this`nodeOf, model, streams[k], scheduler, scheduler.timers, scheduler.timers.heap
      modifies scheduler.timers.nodes`heapIndex, streams[k].slot.node
      ensures Ready() && Agreed()
      ensures old(scheduler.timers.due) == [] ==> scheduler.timers.due == []
      ensures scheduler.operationDepth == old(scheduler.operationDepth) && model.clock == old(model.clock) && Fewer()
      ensures model.conns == old(model.conns)
      ensures var s := S.Reject(old(model.streams)[k].s, E.Up(model.conns, k.conn), model.clock, check);
        model.streams == if s.closed then E.Minus(old(model.streams), k)
          else old(model.streams)[k := E.Entry(old(model.streams)[k].serial, s)]
    {
      hide S.Reject, StreamObject.Stream.Value, ConnObject.Conn.Value, E.Minus, Records;
      hide E.Engine.Inv, ConnValues, StreamValues, S.Acceptable, Wired, Fewer;
      var up := E.Up(model.conns, k.conn);
      StreamOnRecord(k);
      model.StreamAlive(k);
      model.RejectedIffLive(k, check);
      ValueOf(streams[k]);
      ghost var s := S.Reject(model.streams[k].s, up, model.clock, check);
      RecordsPut(model.streams, k, model.streams[k].serial, s);
      RecordsDrop(model.streams, k, s);
      StreamObjectMoves(k, streams[k], StreamObject.Rejects(up, model.clock, check));
      model.RejectStream(k, check);
    }

    /** A peer's stream whose first payload KCP would not take. */
    method FailStream(k: E.Key, check: Int64)
      requires Ready() && Agreed() && k in streams && scheduler.operationDepth > 0 && k in model.streams
      modifies this`streams, this`nodeOf, model, streams[k], scheduler, scheduler.timers, scheduler.timers.heap
      modifies scheduler.timers.nodes`heapIndex, streams[k].slot.node
      ensures Ready() && Agreed()
      ensures old(scheduler.timers.due) == [] ==> scheduler.timers.due == []
      ensures scheduler.operationDepth == old(scheduler.operationDepth) && model.clock == old(model.clock) && Fewer()
      ensures model.conns == old(model.conns) && model.streams == E.Minus(old(model.streams), k)
      ensures var e := old(model.streams)[k];
        model.finals == old(model.finals)[e.serial := S.Fail(e.s, E.Up(model.conns, k.conn), model.clock, check)]
    {
      hide S.Fail, StreamObject.Stream.Value, ConnObject.Conn.Value, E.Minus, Records;
      hide E.Engine.Inv, ConnValues, StreamValues, S.Acceptable, Wired, Fewer;
      var up := E.Up(model.conns, k.conn);
      StreamOnRecord(k);
      model.StreamAlive(k);
      model.FailedIsDone(k, check);
      ValueOf(streams[k]);
      RecordsDrop(model.streams, k, S.Fail(model.streams[k].s, up, model.clock, check));
      StreamObjectMoves(k, streams[k], StreamObject.Fails(up, model.clock, check));
      model.FailStream(k, check);
    }

    /**
      kcpmux_stream_create on the objects.  Allocation runs over exactly the
      connection's streams, so the new key is never taken and the map never
      skips it.
     */
    method CreateStream(conn: int, config: S.Config, hooked: bool, allocates: bool, check: Int64) returns (id: int)
      requires Ready() && Agreed() && scheduler.timers.due == [] && scheduler.operationDepth > 0
      modifies this`streams, this`nodeOf, model, scheduler, scheduler.timers, scheduler.timers.heap
      modifies scheduler.timers.nodes`heapIndex
      ensures Ready() && Agreed() && scheduler.timers.due == []
      ensures scheduler.operationDepth == old(scheduler.operationDepth) && model.clock == old(model.clock) && Grown()
      ensures id == 0 ==> model.streams == old(model.streams)
      ensures id != 0 ==>
        && 0 < id < Ids.RING && E.Up(model.conns, conn) && Ids.Owns(model.conns[conn].isInitiator, id)
        && E.Key(conn, id) !in old(model.streams)
        && model.streams == old(model.streams)[E.Key(conn, id) := E.Entry(
             old(model.streamCreated), S.New(id, true, config, hooked, true, model.clock, check))]
      ensures model.conns == old(model.conns)
      ensures allocates && old(Affordable()) ==>
        (id == 0 <==> !E.Up(model.conns, conn) || !S.Acceptable(config)
                      || E.AllTaken(old(model.streams), conn, model.conns[conn].isInitiator))
    {
      hide E.Engine.Inv, ConnValues, StreamValues, Wired, S.New, S.Acceptable, Ids.Owns, Agreed, E.AllTaken;
      id := 0;
      var free := FreeId(conn);
      if free != 0 && S.Acceptable(config) {
        var made := OpenStream(E.Key(conn, free), true, config, hooked, allocates, check);
        if made {
          id := free;
        }
      }
    }

    /** An identifier for a new stream of a connected connection, zero if there is none. */
    method FreeId(conn: int) returns (id: Ids.Id)
      requires Ready() && Agreed()
      modifies model`nextIds
      ensures Ready() && Agreed()
      ensures id != 0 ==>
        && E.Up(model.conns, conn) && Ids.Owns(model.conns[conn].isInitiator, id)
        && E.Key(conn, id) !in model.streams && E.Key(conn, id) !in streams
      ensures id == 0 <==>
        !E.Up(model.conns, conn) || E.AllTaken(model.streams, conn, model.conns[conn].isInitiator)
    {
      hide E.Engine.Inv, ConnValues, StreamValues, Wired, E.AllTaken, Ids.Owns, Agreed;
      if !E.Up(model.conns, conn) {
        return 0;
      }
      id := model.AllocStreamId(conn);
      NotOnRecord(E.Key(conn, id));
    }

    method BearDialer(id: int, slot: Slot, config: C.Config, hooked: bool, clock: Int64)
      requires Spare(slot) && id !in conns && C.Usable(config) && slot.Alarm() == S.Alarm(Idle, 0)
      modifies this`conns, this`nodeOf, scheduler, scheduler.timers, scheduler.timers.heap
      modifies scheduler.timers.nodes`heapIndex, slot.node
      ensures Wired() && slot.Local() && StreamValues() == old(StreamValues())
      ensures ConnValues() == old(ConnValues())[id := C.Connect(id, config, hooked, clock)]
      ensures id in conns && fresh(conns[id]) && conns == old(conns)[id := conns[id]]
    {
      hide Spare, Wired, Slot.Local, Slot.Alarm, C.Usable, ConnValues, StreamValues, C.Connect;
      var o := MakeDialer(id, slot, config, hooked, clock);
      PlaceConn(id, o);
    }

    method BearAcceptor(id: int, peerId: int, slot: Slot, config: C.Config, hooked: bool, clock: Int64)
      requires Spare(slot) && id !in conns && C.Usable(config) && slot.Alarm() == S.Alarm(Idle, 0)
      modifies this`conns, this`nodeOf, scheduler, scheduler.timers, scheduler.timers.heap
      modifies scheduler.timers.nodes`heapIndex, slot.node
      ensures Wired() && slot.Local() && StreamValues() == old(StreamValues())
      ensures ConnValues() == old(ConnValues())[id := C.Admitted(C.Met(id, peerId, config, hooked, clock), clock)]
      ensures id in conns && fresh(conns[id]) && conns == old(conns)[id := conns[id]]
    {
      hide Spare, Wired, Slot.Local, Slot.Alarm, C.Usable, ConnValues, StreamValues, C.Admitted, C.Met;
      var o := MakeAcceptor(id, peerId, slot, config, hooked, clock);
      PlaceConn(id, o);
    }

    /** A connection object with a node of its own, if memory is to be had. */
    method AddDialer(id: int, config: C.Config, hooked: bool, allocates: bool, clock: Int64) returns (made: bool)
      requires Wired() && scheduler.timers.due == [] && scheduler.operationDepth > 0 && id !in conns && C.Usable(config)
      modifies this`conns, this`nodeOf, scheduler, scheduler.timers, scheduler.timers.heap
      modifies scheduler.timers.nodes`heapIndex
      ensures Wired() && scheduler.timers.due == [] && scheduler.operationDepth == old(scheduler.operationDepth) && Grown()
      ensures allocates && old(Affordable()) ==> made
      ensures StreamValues() == old(StreamValues())
      ensures ConnValues() ==
        if !made then old(ConnValues()) else old(ConnValues())[id := C.Connect(id, config, hooked, clock)]
    {
      hide ConnValues, StreamValues, C.Usable, C.Connect, Wired, Spare, Slot.Alarm;
      var slot := NewSlot(allocates);
      if slot == null {
        return false;
      }
      SpareHere(slot);
      BearDialer(id, slot, config, hooked, clock);
      return true;
    }

    /** The same for a peer's connection, which is only kept if the application agrees. */
    method AddAcceptor(id: int, peerId: int, config: C.Config, hooked: bool, result: int, allocates: bool, clock: Int64)
      returns (made: bool)
      requires Wired() && scheduler.timers.due == [] && scheduler.operationDepth > 0 && id !in conns && C.Usable(config)
      modifies this`conns, this`nodeOf, scheduler, scheduler.timers, scheduler.timers.heap
      modifies scheduler.timers.nodes`heapIndex
      ensures Wired() && scheduler.timers.due == [] && scheduler.operationDepth == old(scheduler.operationDepth) && Grown()
      ensures allocates && old(Affordable()) ==> made
      ensures StreamValues() == old(StreamValues())
      ensures ConnValues() == if !made || result != 0 then old(ConnValues()) else
        old(ConnValues())[id := C.Admitted(C.Met(id, peerId, config, hooked, clock), clock)]
    {
      hide ConnValues, StreamValues, C.Usable, C.Admitted, C.Met, Wired, Spare, Slot.Alarm;
      var slot := NewSlot(allocates);
      if slot == null {
        return false;
      }
      SpareHere(slot);
      Decide(id, peerId, slot, config, hooked, result, clock);
      return true;
    }

    method Decide(id: int, peerId: int, slot: Slot, config: C.Config, hooked: bool, result: int, clock: Int64)
      requires Spare(slot) && id !in conns && C.Usable(config) && slot.Alarm() == S.Alarm(Idle, 0)
      modifies this`conns, this`nodeOf, scheduler, scheduler.timers, scheduler.timers.heap
      modifies scheduler.timers.nodes`heapIndex, slot.node
      ensures Wired() && slot.Local() && StreamValues() == old(StreamValues())
      ensures ConnValues() == if result != 0 then old(ConnValues()) else
        old(ConnValues())[id := C.Admitted(C.Met(id, peerId, config, hooked, clock), clock)]
      ensures conns == old(conns) || (id in conns && fresh(conns[id]) && conns == old(conns)[id := conns[id]])
    {
      hide Spare, Wired, Slot.Local, Slot.Alarm, C.Usable, ConnValues, StreamValues, C.Admitted, C.Met;
      if result == 0 {
        BearAcceptor(id, peerId, slot, config, hooked, clock);
      } else {
        var o := TurnAway(id, peerId, slot, config, hooked, result, clock);
      }
    }

    /** Starts a connection; an identifier is spent even if the configuration or memory is lacking. */
    method Connect(config: C.Config, hooked: bool, allocates: bool) returns (id: int)
      requires Ready() && Agreed() && scheduler.timers.due == [] && scheduler.operationDepth > 0 && C.Unsigned(config)
      modifies this`conns, this`nodeOf, model, scheduler, scheduler.timers, scheduler.timers.heap
      modifies scheduler.timers.nodes`heapIndex
      ensures Ready() && Agreed() && scheduler.timers.due == []
      ensures scheduler.operationDepth == old(scheduler.operationDepth) && model.clock == old(model.clock) && Grown()
      ensures model.streams == old(model.streams)
      ensures model.nextConnId == old(model.nextConnId) + if old(model.nextConnId) == ID_LIMIT then 0 else 1
      ensures id == 0 ==> model.conns == old(model.conns)
      ensures id != 0 ==>
        && id == old(model.nextConnId) && C.Prepare(config) != C.Unacceptable
        && model.conns == old(model.conns)[id := C.Connect(id, C.Prepare(config).config, hooked, model.clock)]
      ensures allocates && old(Affordable()) ==>
        (id == 0 <==> old(model.nextConnId) == ID_LIMIT || C.Prepare(config) == C.Unacceptable)
    {
      hide E.Engine.Inv, ConnValues, StreamValues, Wired, C.Connect, Grown;
      id := 0;
      NextIsNew();
      if model.nextConnId == ID_LIMIT {
        GrownNot();
        return;
      }
      match C.Prepare(config) {
        case Unacceptable =>
          GrownNot();
          model.SpendId();
        case Prepared(prepared) =>
          id := model.nextConnId;
          var made := AddDialer(id, prepared, hooked, allocates, model.clock);
          if made {
            var again := model.Connect(config, hooked);
          } else {
            model.SpendId();
            id := 0;
          }
      }
    }

    /** A first CONNECT. */
    method Admit(peerId: int, config: C.Config, hooked: bool, result: int, allocates: bool) returns (id: int)
      requires Ready() && Agreed() && scheduler.timers.due == [] && scheduler.operationDepth > 0 && C.Usable(config)
      modifies this`conns, this`nodeOf, model, scheduler, scheduler.timers, scheduler.timers.heap
      modifies scheduler.timers.nodes`heapIndex
      ensures Ready() && Agreed() && scheduler.timers.due == []
      ensures scheduler.operationDepth == old(scheduler.operationDepth) && model.clock == old(model.clock) && Grown()
      ensures model.streams == old(model.streams)
      ensures model.nextConnId == old(model.nextConnId) + if old(model.nextConnId) == ID_LIMIT then 0 else 1
      ensures id == 0 || result != 0 ==> model.conns == old(model.conns)
      ensures id != 0 ==> id == old(model.nextConnId)
      ensures id != 0 && result == 0 ==>
        model.conns == old(model.conns)[id := C.Admitted(C.Met(id, peerId, config, hooked, model.clock), model.clock)]
      ensures id != 0 && result != 0 ==>
        id in model.ends && model.ends[id] == Steps.TurnedDown(C.Met(id, peerId, config, hooked, model.clock), result)
      ensures allocates && old(Affordable()) ==> (id == 0 <==> old(model.nextConnId) == ID_LIMIT)
    {
      hide E.Engine.Inv, ConnValues, StreamValues, Wired, C.Admitted, C.Met, C.Usable, Grown, Steps.TurnedDown;
      id := 0;
      if model.nextConnId == ID_LIMIT {
        GrownNot();
        return;
      }
      NextIsNew();
      var made := AddAcceptor(model.nextConnId, peerId, config, hooked, result, allocates, model.clock);
      if made {
        id := model.Admit(peerId, config, hooked, result);
      } else {
        model.SpendId();
      }
    }

    lemma NextIsNew()
      requires Ready() && Agreed()
      ensures model.nextConnId !in conns && 0 < model.nextConnId <= ID_LIMIT
    {
      hide ConnObject.Conn.Value, StreamObject.Stream.Value, Wired;
      model.NextIsFree();
      assert model.nextConnId in ConnValues() <==> model.nextConnId in conns;
    }

    twostate lemma GrownNot()
      requires conns == old(conns) && streams == old(streams) && scheduler.timers.nodes == old(scheduler.timers.nodes)
      requires scheduler.timers.heap == old(scheduler.timers.heap)
      ensures Grown()
    {
    }

    /** The engine's end of a batch, stream by stream. */
    method FinishBatch()
      requires AtRest() && scheduler.operationDepth > 0
      modifies this`streams, this`nodeOf, model, streams.Values, scheduler, scheduler.timers, scheduler.timers.heap
      modifies scheduler.timers.nodes
      ensures AtRest() && scheduler.operationDepth == old(scheduler.operationDepth) && model.clock == old(model.clock)
      ensures model.pendingBatch == [] && model.streams == E.Flushed(old(model.streams), model.conns, model.clock)
      ensures Fewer()
    {
      hide E.Engine.Inv, Ready, Agreed, E.PartFlushed, Runs.Apply, Within, E.Minus, E.Relisted, Without;
      ReadyIs();
      model.BatchStarts();
      WithinItself(conns, 0);
      WithinItself(streams, E.Key(0, 0));
      WithinItself(nodeOf, E.OfConn(0));
      while model.pendingBatch != []
        invariant Ready() && Agreed() && scheduler.timers.due == []
        invariant scheduler.operationDepth == old(scheduler.operationDepth) && model.clock == old(model.clock)
        invariant E.PartFlushed(old(model.streams), model.streams, model.conns, model.clock, model.pendingBatch)
        invariant Fewer() && model.conns == old(model.conns)
        decreases |model.pendingBatch|
      {
        ReadyIs();
        var k := model.pendingBatch[0];
        model.BatchMoves(old(model.streams));
        NotOnRecord(k);
        WithinValues(streams, old(streams));
        ghost var c, s, n := conns, streams, nodeOf;
        StreamStep(k, Runs.EngineFinishBatch, 0);
        WithinWithin(conns, c, old(conns));
        WithinWithin(streams, s, old(streams));
        WithinWithin(nodeOf, n, old(nodeOf));
      }
      E.FlushEnds(old(model.streams), model.streams, model.conns, model.clock);
    }

    lemma ReadyIs()
      requires Ready()
      ensures model.Inv() && Wired()
      ensures forall k | k in streams :: streams[k].slot.node in scheduler.timers.nodes
    {
      hide E.Engine.Inv, Wired;
      AllKnown();
    }

    /** Time moves on. */
    method Tick(time: int)
      requires AtRest() && model.clock <= time && StreamObject.IsInt64(time)
      modifies model`clock
      ensures AtRest() && model.clock == time
    {
      hide E.Engine.Inv, Wired, ConnValues, StreamValues, scheduler.HostAgrees;
      model.Tick(time);
    }

    twostate lemma FewerIsGrown()
      requires Shrunk()
      ensures Grown()
    {
      WithinValues(conns, old(conns));
      WithinValues(streams, old(streams));
    }

    /** The part of a command that runs inside its boundary; what makes no sense is not done. */
    method Perform(c: E.Command)
      requires Ready() && Agreed() && scheduler.timers.due == [] && scheduler.operationDepth > 0
      modifies this, model, conns.Values, streams.Values, scheduler, scheduler.timers, scheduler.timers.heap
      modifies scheduler.timers.nodes
      ensures Ready() && Agreed() && scheduler.timers.due == [] && Grown()
      ensures scheduler.operationDepth == old(scheduler.operationDepth) && model.clock == old(model.clock)
    {
      hide E.Engine.Inv, Wired, Agreed, Shrunk, C.Apply, Runs.Apply, Runs.KcpBehaves, S.New, S.Acceptable, C.Usable, Ids.Owns;
      var allocates: bool := *;
      ReadyIs();
      match c {
        case Connecting(config, hooked) =>
          if C.Unsigned(config) { var id := Connect(config, hooked, allocates); }
        case Admitting(peerId, config, hooked, result) =>
          if C.Usable(config) { var id := Admit(peerId, config, hooked, result, allocates); }
        case ConnDoes(id, op) =>
          if id in conns && !op.Firing? {
            ConnOnRecord(id);
            ConnStep(id, op);
            FewerIsGrown();
          }
        case Creating(conn, config, hooked, made, check) =>
          if StreamObject.IsInt64(check) { var id := CreateStream(conn, config, hooked, made, check); }
        case PeerOpening(k, config, hooked, check) =>
          if k !in streams && E.Up(model.conns, k.conn) && S.Acceptable(config) && StreamObject.IsInt64(check) {
            var made := OpenStream(k, false, config, hooked, allocates, check);
          }
        case Rejecting(k, check) =>
          if k in model.streams && model.streams[k].s.state == S.Open && StreamObject.IsInt64(check) {
            NotOnRecord(k);
            RejectStream(k, check);
            FewerIsGrown();
          }
        case Failing(k, check) =>
          if k in model.streams && StreamObject.IsInt64(check) {
            NotOnRecord(k);
            FailStream(k, check);
            FewerIsGrown();
          }
        case StreamDoes(k, op, _, check) =>
          if k in model.streams && !op.Fire? && Runs.KcpBehaves(model.streams[k].s, op) && StreamObject.IsInt64(check) {
            NotOnRecord(k);
            StreamStep(k, op, check);
            FewerIsGrown();
          }
        case FinishingBatch =>
          FinishBatch();
          FewerIsGrown();
        case _ =>
      }
    }

    /** KCP's answers are 64-bit numbers. */
    static function Bounded(checks: E.Key -> int): (bounded: E.Key -> int)
      ensures forall k :: StreamObject.IsInt64(bounded(k)) && (StreamObject.IsInt64(checks(k)) ==> bounded(k) == checks(k))
    {
      k => if StreamObject.IsInt64(checks(k)) then checks(k) else 0
    }

    /** One command, if it applies. */
    method Execute(c: E.Command)
      requires AtRest()
      modifies this, model, conns.Values, streams.Values, scheduler, scheduler.timers, scheduler.timers.heap
      modifies scheduler.timers.nodes
      ensures AtRest() && Grown()
    {
      hide Ready, Agreed, scheduler.HostAgrees, Within, E.ConnsFired, E.StreamsFired, scheduler.IsSnapshot, Sched.Calls;
      hide Distinct, Ascending, Sched.ActedFirst;
      match c {
        case Waiting(time) =>
          if model.clock <= time && StreamObject.IsInt64(time) { Tick(time); }
        case Entering => Enter();
        case Leaving =>
          if scheduler.operationDepth > 0 { Leave(); }
        case Updating(checks) =>
          if scheduler.operationDepth == 0 {
            var snapshot, t := Update(Bounded(checks));
            FewerIsGrown();
          }
        case _ => Bracket(c);
      }
    }

    method Bracket(c: E.Command)
      requires AtRest()
      modifies this, model, conns.Values, streams.Values, scheduler, scheduler.timers, scheduler.timers.heap
      modifies scheduler.timers.nodes
      ensures AtRest() && Grown()
    {
      hide Ready, Agreed, scheduler.HostAgrees;
      Enter();
      Perform(c);
      Leave();
    }

    /**
      Whatever the engine is made to do, every live connection and stream has a
      registered node of its own and there are no other registered nodes, so
      room in the queue is never lacking.  A stream of a connected connection,
      and a connection that has a deadline, has its node in the queue, and
      outside operations the host timer is set for a time no later.
     */
    method Run(commands: seq<E.Command>)
      requires AtRest()
      modifies this, model, conns.Values, streams.Values, scheduler, scheduler.timers, scheduler.timers.heap
      modifies scheduler.timers.nodes
      ensures AtRest()
      ensures scheduler.timerNodeCount == model.timerNodeCount == |conns| + |streams| <= scheduler.timers.heap.Length
      ensures forall k | k in streams :: E.Up(model.conns, k.conn) ==> Woken(streams[k].slot.node)
      ensures forall id | id in conns :: E.HasDeadline(conns[id].Value()) ==> Woken(conns[id].slot.node)
      ensures forall k | k in streams :: Runs.Kept(streams[k].Value(), E.Up(model.conns, k.conn), model.clock)
      ensures forall id | id in conns :: C.Awake(conns[id].Value()) && Steps.EndedOnce(conns[id].Value())
    {
      hide AtRest, Woken, E.HasDeadline, Runs.Kept, C.Awake, Steps.EndedOnce;
      ExecuteAll(commands);
      Numbers();
      forall k | k in streams && E.Up(model.conns, k.conn) ensures Woken(streams[k].slot.node) {
        StreamIsWoken(k);
      }
      forall id | id in conns && E.HasDeadline(conns[id].Value()) ensures Woken(conns[id].slot.node) {
        ConnIsWoken(id);
      }
      forall k | k in streams ensures Runs.Kept(streams[k].Value(), E.Up(model.conns, k.conn), model.clock) {
        ObjectIsKept(E.OfStream(k));
      }
      forall id | id in conns ensures C.Awake(conns[id].Value()) && Steps.EndedOnce(conns[id].Value()) {
        ObjectIsKept(E.OfConn(id));
      }
    }

    lemma ObjectIsKept(o: E.Owned)
      requires AtRest()
      ensures o.OfStream? && o.key in streams ==>
        Runs.Kept(streams[o.key].Value(), E.Up(model.conns, o.key.conn), model.clock)
      ensures o.OfConn? && o.id in conns ==> C.Awake(conns[o.id].Value()) && Steps.EndedOnce(conns[o.id].Value())
    {
      hide E.Engine.Inv, ConnValues, StreamValues, scheduler.Reserved, StreamObject.Stream.Value, ConnObject.Conn.Value;
      hide Runs.Kept, C.Awake, Steps.EndedOnce;
      if o.OfStream? && o.key in streams {
        StreamOnRecord(o.key);
        model.StreamKeptAt(o.key);
      } else if o.OfConn? && o.id in conns {
        ConnOnRecord(o.id);
        model.ConnIsKept(o.id);
      }
    }

    method ExecuteAll(commands: seq<E.Command>)
      requires AtRest()
      modifies this, model, conns.Values, streams.Values, scheduler, scheduler.timers, scheduler.timers.heap
      modifies scheduler.timers.nodes
      ensures AtRest()
    {
      hide AtRest;
      for i := 0 to |commands|
        invariant AtRest() && Grown()
      {
        Execute(commands[i]);
      }
    }

    lemma Numbers()
      requires AtRest()
      ensures scheduler.timerNodeCount == model.timerNodeCount == |conns| + |streams| <= scheduler.timers.heap.Length
    {
      hide Wiring, scheduler.timers.Valid, model.Populated, ConnObject.Conn.Value, StreamObject.Stream.Value;
      NodesCount(conns, streams, nodeOf, scheduler);
      assert ConnValues().Keys == conns.Keys;
      assert StreamValues().Keys == streams.Keys;
      assert Records(model.streams).Keys == model.streams.Keys;
    }

    lemma StreamIsWoken(k: E.Key)
      requires AtRest() && k in streams && E.Up(model.conns, k.conn)
      ensures Woken(streams[k].slot.node)
    {
      hide E.Engine.Inv, ConnValues, StreamValues, scheduler.Reserved, StreamObject.Stream.Value, ConnObject.Conn.Value;
      StreamOnRecord(k);
      StreamAlarm(streams[k]);
      model.StreamWakes(k);
      NodeIsWoken(E.OfStream(k));
    }

    lemma ConnIsWoken(id: int)
      requires AtRest() && id in conns && E.HasDeadline(conns[id].Value())
      ensures Woken(conns[id].slot.node)
    {
      hide E.Engine.Inv, ConnValues, StreamValues, scheduler.Reserved, StreamObject.Stream.Value, ConnObject.Conn.Value;
      ConnOnRecord(id);
      ConnAlarm(conns[id]);
      model.ConnWakes(id);
      NodeIsWoken(E.OfConn(id));
    }

    lemma NodeIsWoken(o: E.Owned)
      requires AtRest() && o in nodeOf && Seen(nodeOf[o].state) == InHeap
      ensures Woken(nodeOf[o])
    {
      hide E.Engine.Inv, ConnValues, StreamValues, Wiring, HeapOrder, scheduler.timers.Linked, scheduler.timers.Stamped;
      assert nodeOf[o] in nodeOf.Values;
      scheduler.RootIsEarliest(nodeOf[o]);
    }

    /** The node is in the queue, and the host will be back in time for it. */
    ghost predicate Woken(node: Node)
      reads node, scheduler
    {
      node.state == InHeap && (scheduler.operationDepth == 0 ==> scheduler.armed && scheduler.armedDeadline <= node.deadline)
    }
  }
}

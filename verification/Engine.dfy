/**
  The engine as owner of connections and streams (src/kcpmux_engine.c,
  src/kcpmux_conn.c): creation, finalisation with its cascade, deferred release
  at the end of the outermost operation, the batch list, and dispatch.
 */
module Engine {
  import opened Timer
  import opened Address
  import S = Stream
  import Runs = StreamRuns
  import Chart = StreamChart
  import C = Conn
  import Steps = ConnSteps
  import Ids = StreamIds

  /** A stream is known by its connection and its identifier there. */
  datatype Key = Key(conn: int, id: Ids.Id)

  /** A live stream; `serial` tells apart streams that reuse an identifier. */
  datatype Entry = Entry(serial: int, s: S.Stream)

  /** Something whose memory is to be released. */
  datatype Owner = ConnOwner(id: int) | StreamOwner(serial: int, conn: int)

  /** Every stream of a connection is released before it, and nothing is released twice. */
  ghost predicate ReleaseOrder(queue: seq<Owner>) {
    && Distinct(queue)
    && (forall i, j | 0 <= i < j < |queue| && queue[i].ConnOwner? && queue[j].StreamOwner? ::
          queue[j].conn != queue[i].id)
  }

  type Conns = map<int, C.Conn>
  type Streams = map<Key, Entry>

  predicate Up(conns: Conns, id: int) {
    id in conns && conns[id].state == C.Connected
  }

  /** Connections have unique identifiers and their timers set. */
  ghost predicate ConnsKept(conns: Conns, nextConnId: int) {
    forall id | id in conns ::
      0 < id < nextConnId && conns[id].localId == id && !conns[id].closed && C.Awake(conns[id]) && Steps.EndedOnce(conns[id])
  }

  /** A stream's connection has been up; `gone` is one whose cascade is under way. */
  ghost predicate Attached(k: Key, conns: Conns, gone: int) {
    || (k.conn == gone && gone != 0)
    || (k.conn in conns && (conns[k.conn].state == C.Connected || conns[k.conn].state == C.Closing))
  }

  ghost predicate StreamsKept(streams: Streams, conns: Conns, clock: int, gone: int) {
    forall k | k in streams ::
      Attached(k, conns, gone) && !streams[k].s.closed && Runs.Kept(streams[k].s, Up(conns, k.conn), clock)
  }

  /** The batch list holds exactly the streams that say so. */
  ghost predicate Listed(batch: seq<Key>, streams: Streams) {
    && Distinct(batch)
    && (forall k | k in batch :: k in streams && streams[k].s.inBatch)
    && (forall k | k in streams && streams[k].s.inBatch :: k in batch)
  }

  /** The identifiers of a connection's streams. */
  function IdsOf(streams: Streams, conn: int): set<Ids.Id> {
    set k | k in streams && k.conn == conn :: k.id
  }

  /** Every connection can allocate identifiers, and counts its streams. */
  ghost predicate IdsKept(conns: Conns, streams: Streams, nextIds: map<int, Ids.Id>, counts: map<int, int>) {
    forall id | id in conns ::
      && id in nextIds && Ids.Ready(conns[id].isInitiator, nextIds[id])
      && id in counts && counts[id] == |IdsOf(streams, id)|
  }

  /** A connection's stream count after one stream more or less, if the connection is still there. */
  function Recount(counts: map<int, int>, conn: int, change: int): map<int, int> {
    if conn in counts then counts[conn := counts[conn] + change] else counts
  }

  lemma DropKeepsIds(conns: Conns, streams: Streams, nextIds: map<int, Ids.Id>, counts: map<int, int>, k: Key)
    requires IdsKept(conns, streams, nextIds, counts) && k in streams
    ensures IdsKept(conns, Minus(streams, k), nextIds, Recount(counts, k.conn, -1))
  {
    forall id | id in conns ensures IdsOf(Minus(streams, k), id) == IdsOf(streams, id) - if id == k.conn then {k.id} else {} {
      forall i | i in IdsOf(streams, id) && (id != k.conn || i != k.id) ensures i in IdsOf(Minus(streams, k), id) {
        assert Key.Key(id, i) in Minus(streams, k);
      }
    }
    if k.conn in conns {
      assert k.id in IdsOf(streams, k.conn);
    }
  }

  /** Every identifier that a connection's side owns is in use. */
  ghost predicate AllTaken(streams: Streams, conn: int, isInitiator: bool) {
    forall k | 0 <= k < Ids.Owned(isInitiator) :: Key.Key(conn, Ids.Nth(isInitiator, k)) in streams
  }

  lemma KeysAndIds(streams: Streams, conn: int)
    ensures forall id: Ids.Id :: id in IdsOf(streams, conn) <==> Key.Key(conn, id) in streams
  {
  }

  /** With fewer streams than a side owns identifiers, one can always be created. */
  lemma NotAllTaken(streams: Streams, conn: int, isInitiator: bool)
    requires |IdsOf(streams, conn)| < Ids.HALF - 1
    ensures !AllTaken(streams, conn, isInitiator)
  {
    hide IdsOf;
    KeysAndIds(streams, conn);
    Ids.SomeIdIsFree(isInitiator, IdsOf(streams, conn));
  }

  lemma ConnKeepsIds(
    conns: Conns, streams: Streams, nextIds: map<int, Ids.Id>, counts: map<int, int>, id: int, c: C.Conn, next: Ids.Id)
    requires IdsKept(conns, streams, nextIds, counts) && Ids.Ready(c.isInitiator, next) && IdsOf(streams, id) == {}
    ensures IdsKept(conns[id := c], streams, nextIds[id := next], counts[id := 0])
  {
  }

  lemma PutKeepsIds(conns: Conns, streams: Streams, nextIds: map<int, Ids.Id>, counts: map<int, int>, k: Key, e: Entry)
    requires IdsKept(conns, streams, nextIds, counts) && k in streams
    ensures IdsKept(conns, streams[k := e], nextIds, counts)
  {
    forall id | id in conns ensures IdsOf(streams[k := e], id) == IdsOf(streams, id) {
      assert forall l :: l in streams[k := e] <==> l in streams;
    }
  }

  lemma IdsAdded(streams: Streams, k: Key, e: Entry, id: int)
    ensures IdsOf(streams[k := e], id) == IdsOf(streams, id) + if id == k.conn then {k.id} else {}
    ensures k !in streams ==> k.id !in IdsOf(streams, k.conn)
  {
    var after := streams[k := e];
    forall i | i in IdsOf(streams, id) ensures i in IdsOf(after, id) {
      assert Key.Key(id, i) in after;
    }
    assert id == k.conn ==> k in after;
  }

  lemma AddKeepsIds(conns: Conns, streams: Streams, nextIds: map<int, Ids.Id>, counts: map<int, int>, k: Key, e: Entry)
    requires IdsKept(conns, streams, nextIds, counts) && k !in streams
    ensures IdsKept(conns, streams[k := e], nextIds, Recount(counts, k.conn, 1))
  {
    hide IdsOf;
    forall id | id in conns
      ensures |IdsOf(streams[k := e], id)| == |IdsOf(streams, id)| + if id == k.conn then 1 else 0
    {
      IdsAdded(streams, k, e, id);
    }
  }

  /** What is released or about to be is dead, and was queued once, streams before their connection. */
  ghost predicate QueueKept(queue: seq<Owner>, conns: Conns, streams: Streams, nextConnId: int, born: int) {
    && ReleaseOrder(queue)
    && (forall o | o in queue :: if o.ConnOwner? then o.id < nextConnId && o.id !in conns else o.serial < born)
    && (forall k | k in streams :: streams[k].serial < born && StreamOwner(streams[k].serial, k.conn) !in queue)
    && (forall k, l | k in streams && l in streams && k != l :: streams[k].serial != streams[l].serial)
    && (forall k | k in streams :: ConnOwner(k.conn) !in queue)
  }

  /** What is queued was finalised: its last record says so once, with KCP released before the application was told. */
  ghost predicate Accounted(queue: seq<Owner>, finals: map<int, S.Stream>, ends: map<int, C.Conn>) {
    forall o | o in queue ::
      if o.StreamOwner? then o.serial in finals && finals[o.serial].closed && Runs.FinalisedOnce(finals[o.serial])
      else o.id in ends && ends[o.id].closed && Steps.EndedOnce(ends[o.id])
  }

  lemma StreamAccounted(
    queue: seq<Owner>, finals: map<int, S.Stream>, ends: map<int, C.Conn>, serial: int, conn: int, last: S.Stream)
    requires Accounted(queue, finals, ends) && last.closed && Runs.FinalisedOnce(last)
    ensures Accounted(queue + [StreamOwner(serial, conn)], finals[serial := last], ends)
  {
    hide Runs.FinalisedOnce, Steps.EndedOnce;
  }

  lemma ConnAccounted(queue: seq<Owner>, finals: map<int, S.Stream>, ends: map<int, C.Conn>, id: int, last: C.Conn)
    requires Accounted(queue, finals, ends) && last.closed && Steps.EndedOnce(last)
    ensures Accounted(queue + [ConnOwner(id)], finals, ends[id := last])
  {
    hide Runs.FinalisedOnce, Steps.EndedOnce;
  }

  lemma KeptIsFinalisedOnce(s: S.Stream, up: bool, clock: int)
    requires Runs.Kept(s, up, clock)
    ensures Runs.FinalisedOnce(s)
  {
    hide Runs.FinalisedOnce;
  }

  /** Finalising a live stream gives its last record. */
  lemma FinalisedLast(s: S.Stream, reason: S.Reason, up: bool, clock: int)
    requires Runs.Kept(s, up, clock) && !s.closed
    ensures S.CloseInternal(s, reason).closed && Runs.FinalisedOnce(S.CloseInternal(s, reason))
  {
    Runs.FinaliseKeeps(s, reason, up, clock);
  }

  // How the invariants follow changes of the maps.

  lemma StreamsLater(streams: Streams, conns: Conns, was: int, clock: int, gone: int)
    requires StreamsKept(streams, conns, was, gone) && was <= clock
    ensures StreamsKept(streams, conns, clock, gone)
  {
    hide Runs.Kept;
    forall k | k in streams ensures Runs.Kept(streams[k].s, Up(conns, k.conn), clock) {
      Runs.KeptLater(streams[k].s, Up(conns, k.conn), Up(conns, k.conn), was, clock);
    }
  }

  lemma OneStreamKept(streams: Streams, k: Key, conns: Conns, clock: int, gone: int)
    requires k in streams && StreamsKept(streams, conns, clock, gone)
    ensures Attached(k, conns, gone) && !streams[k].s.closed && Runs.Kept(streams[k].s, Up(conns, k.conn), clock)
  {
  }

  function Minus<K, V>(m: map<K, V>, k: K): map<K, V> {
    m - {k}
  }

  lemma OneFewer<K, V>(m: map<K, V>, k: K)
    requires k in m
    ensures k !in Minus(m, k) && |Minus(m, k)| == |m| - 1
  {
    assert m.Keys == (m - {k}).Keys + {k};
  }

  lemma Inhabited<T>(items: set<T>) returns (x: T)
    requires |items| > 0
    ensures x in items
  {
    x :| x in items;
  }

  lemma DropKeepsStreams(streams: Streams, k: Key, conns: Conns, clock: int, gone: int, batch: seq<Key>)
    requires k in streams && StreamsKept(streams, conns, clock, gone) && Listed(batch, streams)
    ensures StreamsKept(Minus(streams, k), conns, clock, gone) && Listed(Without(batch, k), Minus(streams, k))
  {
    hide Runs.Kept;
    WithoutKeepsDistinct(batch, k);
  }

  lemma DropKeepsQueue(queue: seq<Owner>, streams: Streams, k: Key, conns: Conns, nextConnId: int, born: int)
    requires k in streams && QueueKept(queue, conns, streams, nextConnId, born)
    ensures QueueKept(queue + [StreamOwner(streams[k].serial, k.conn)], conns, Minus(streams, k), nextConnId, born)
  {
    var o := StreamOwner(streams[k].serial, k.conn);
    var q := queue + [o];
    forall i, j | 0 <= i < j < |q| && q[i].ConnOwner? && q[j].StreamOwner? ensures q[j].conn != q[i].id {
      if j == |queue| {
        assert q[i] in queue;
        assert ConnOwner(k.conn) !in queue;
      }
    }
    assert forall i | 0 <= i < |queue| :: q[i] in queue;
  }

  lemma PutKeepsStreams(streams: Streams, k: Key, s: S.Stream, conns: Conns, clock: int, gone: int)
    requires k in streams && StreamsKept(streams, conns, clock, gone)
    requires !s.closed && Runs.Kept(s, Up(conns, k.conn), clock)
    ensures StreamsKept(streams[k := Entry(streams[k].serial, s)], conns, clock, gone)
  {
    hide Runs.Kept;
  }

  /** The batch list after a stream's mark may have changed. */
  function Relisted(batch: seq<Key>, k: Key, listed: bool): seq<Key> {
    if !listed then Without(batch, k) else if k in batch then batch else batch + [k]
  }

  lemma RelistedKeeps(batch: seq<Key>, streams: Streams, k: Key, s: S.Stream)
    requires k in streams && Listed(batch, streams)
    ensures Listed(Relisted(batch, k, s.inBatch), streams[k := Entry(streams[k].serial, s)])
  {
    WithoutKeepsDistinct(batch, k);
  }

  lemma PutKeepsQueue(queue: seq<Owner>, streams: Streams, k: Key, s: S.Stream, conns: Conns, nextConnId: int, born: int)
    requires k in streams && QueueKept(queue, conns, streams, nextConnId, born)
    ensures QueueKept(queue, conns, streams[k := Entry(streams[k].serial, s)], nextConnId, born)
  {
  }

  lemma AddConnKeeps(
    conns: Conns, c: C.Conn, id: int, streams: Streams, clock: int, queue: seq<Owner>, born: int)
    requires 0 < id && c.localId == id && !c.closed && C.Awake(c) && Steps.EndedOnce(c)
    requires ConnsKept(conns, id) && StreamsKept(streams, conns, clock, 0) && QueueKept(queue, conns, streams, id, born)
    ensures id !in conns && IdsOf(streams, id) == {}
    ensures ConnsKept(conns[id := c], id + 1) && StreamsKept(streams, conns[id := c], clock, 0)
    ensures QueueKept(queue, conns[id := c], streams, id + 1, born)
  {
    hide Runs.Kept, C.Awake, Steps.EndedOnce;
  }

  lemma AddStreamKeeps(
    streams: Streams, k: Key, s: S.Stream, conns: Conns, clock: int, batch: seq<Key>,
    queue: seq<Owner>, nextConnId: int, born: int)
    requires k !in streams && Up(conns, k.conn) && !s.closed && !s.inBatch && Runs.Kept(s, true, clock)
    requires StreamsKept(streams, conns, clock, 0) && Listed(batch, streams)
    requires QueueKept(queue, conns, streams, nextConnId, born)
    ensures var after := streams[k := Entry(born, s)];
      && StreamsKept(after, conns, clock, 0) && Listed(batch, after)
      && QueueKept(queue, conns, after, nextConnId, born + 1)
  {
    hide Runs.Kept;
  }

  lemma PutConnKeeps(
    conns: Conns, id: int, d: C.Conn, nextConnId: int, streams: Streams, clock: int, queue: seq<Owner>, born: int)
    requires id in conns && C.Evolves(conns[id], d) && !d.closed && Steps.EndedOnce(d)
    requires ConnsKept(conns, nextConnId) && StreamsKept(streams, conns, clock, 0)
    requires QueueKept(queue, conns, streams, nextConnId, born)
    ensures ConnsKept(conns[id := d], nextConnId) && StreamsKept(streams, conns[id := d], clock, 0)
    ensures QueueKept(queue, conns[id := d], streams, nextConnId, born)
    ensures forall nextIds, counts | IdsKept(conns, streams, nextIds, counts) :: IdsKept(conns[id := d], streams, nextIds, counts)
  {
    hide Runs.Kept, C.Awake, Steps.EndedOnce;
    var after := conns[id := d];
    forall k | k in streams ensures Attached(k, after, 0) && Runs.Kept(streams[k].s, Up(after, k.conn), clock) {
      Runs.KeptLater(streams[k].s, Up(conns, k.conn), Up(after, k.conn), clock, clock);
    }
  }

  /** The connection leaves the map; its streams are still to follow. */
  lemma DetachKeeps(
    conns: Conns, id: int, nextConnId: int, streams: Streams, clock: int, queue: seq<Owner>, born: int)
    requires id in conns && ConnsKept(conns, nextConnId) && StreamsKept(streams, conns, clock, 0)
    requires QueueKept(queue, conns, streams, nextConnId, born)
    ensures ConnsKept(Minus(conns, id), nextConnId) && StreamsKept(streams, Minus(conns, id), clock, id)
    ensures QueueKept(queue, Minus(conns, id), streams, nextConnId, born) && ConnOwner(id) !in queue && 0 < id < nextConnId
    ensures forall nextIds, counts | IdsKept(conns, streams, nextIds, counts) ::
        IdsKept(Minus(conns, id), streams, nextIds, counts)
  {
    hide Runs.Kept, C.Awake, Steps.EndedOnce;
    var after := Minus(conns, id);
    forall k | k in streams ensures Attached(k, after, id) && Runs.Kept(streams[k].s, Up(after, k.conn), clock) {
      Runs.KeptLater(streams[k].s, Up(conns, k.conn), Up(after, k.conn), clock, clock);
    }
  }

  /** With its streams gone, the connection may be queued. */
  lemma QueueConnKeeps(
    conns: Conns, id: int, nextConnId: int, streams: Streams, clock: int, queue: seq<Owner>, born: int)
    requires id !in conns && id < nextConnId && ConnOwner(id) !in queue && (forall k | k in streams :: k.conn != id)
    requires StreamsKept(streams, conns, clock, id) && QueueKept(queue, conns, streams, nextConnId, born)
    ensures StreamsKept(streams, conns, clock, 0)
    ensures QueueKept(queue + [ConnOwner(id)], conns, streams, nextConnId, born)
  {
    hide Runs.Kept;
    var q := queue + [ConnOwner(id)];
    assert forall i | 0 <= i < |queue| :: q[i] in queue;
  }

  function Own(streams: Streams, id: int): set<Key> {
    set k | k in streams && k.conn == id
  }

  ghost predicate DistinctSerials(streams: Streams) {
    forall k, l | k in streams && l in streams && k != l :: streams[k].serial != streams[l].serial
  }

  /**
    Part-way through the cascade of connection `id`: `own` is left, the rest of
    its streams is queued and was finalised with the connection's reason.
   */
  ghost predicate Cascaded(
    all: Streams, streams: Streams, id: int, own: set<Key>, queue: seq<Owner>, finals: map<int, S.Stream>, reason: S.Reason)
  {
    && own == Own(streams, id)
    && (forall k | k in streams :: k in all && streams[k] == all[k])
    && (forall k | k in all && k !in streams ::
          && k.conn == id && StreamOwner(all[k].serial, id) in queue
          && all[k].serial in finals && finals[all[k].serial] == S.CloseInternal(all[k].s, reason))
  }

  /** Each stream that connection `id` had is finalised, and its application was told the reason. */
  ghost predicate AllTold(all: Streams, id: int, finals: map<int, S.Stream>, reason: S.Reason) {
    forall k | k in all && k.conn == id :: all[k].serial in finals && Chart.EndsWith(finals[all[k].serial], reason)
  }

  lemma CascadeTells(
    all: Streams, streams: Streams, id: int, queue: seq<Owner>, finals: map<int, S.Stream>, reason: S.Reason)
    requires Cascaded(all, streams, id, {}, queue, finals, reason) && forall k | k in all :: !all[k].s.closed
    ensures AllTold(all, id, finals, reason)
  {
    hide S.CloseInternal, Chart.EndsWith;
    forall k | k in all && k.conn == id
      ensures all[k].serial in finals && Chart.EndsWith(finals[all[k].serial], reason)
    {
      assert k in streams ==> k in Own(streams, id);
      Chart.FinaliseTakes(all[k].s, reason);
      Chart.EndTells(all[k].s, S.CloseInternal(all[k].s, reason), [], reason);
    }
  }

  lemma CascadeStarts(streams: Streams, id: int, queue: seq<Owner>, finals: map<int, S.Stream>, reason: S.Reason)
    ensures Cascaded(streams, streams, id, Own(streams, id), queue, finals, reason)
  {
  }

  lemma CascadeMoves(
    all: Streams, streams: Streams, id: int, own: set<Key>, k: Key, queue: seq<Owner>,
    finals: map<int, S.Stream>, reason: S.Reason)
    requires Cascaded(all, streams, id, own, queue, finals, reason) && k in own && DistinctSerials(all)
    ensures k in streams && k.conn == id
    ensures Cascaded(
      all, Minus(streams, k), id, own - {k}, queue + [StreamOwner(streams[k].serial, id)],
      finals[streams[k].serial := S.CloseInternal(streams[k].s, reason)], reason)
  {
    hide S.CloseInternal;
  }

  lemma CascadeEnds(
    all: Streams, streams: Streams, id: int, queue: seq<Owner>, finals: map<int, S.Stream>, reason: S.Reason)
    requires Cascaded(all, streams, id, {}, queue, finals, reason)
    ensures forall k | k in streams :: k.conn != id
    ensures Cascaded(all, streams, id, {}, queue + [ConnOwner(id)], finals, reason)
  {
    hide S.CloseInternal;
    assert forall k | k in streams && k.conn == id :: k in Own(streams, id);
  }

  // Updates and batches, as functions of the maps.

  /** A timer node, known by its owner. */
  datatype Owned = OfConn(id: int) | OfStream(key: Key)

  predicate IsDue(alarm: S.Alarm, now: int) {
    alarm.state == InHeap && alarm.deadline <= now
  }

  function DueNodes(conns: Conns, streams: Streams, now: int): set<Owned> {
    (set id | id in conns && IsDue(conns[id].alarm, now) :: OfConn(id))
    + (set k | k in streams && IsDue(streams[k].s.alarm, now) :: OfStream(k))
  }

  /** Connections once all but the `todo` part of the due nodes have fired: each due one fired once, for itself. */
  ghost predicate ConnsFired(was: Conns, conns: Conns, todo: set<Owned>, now: int, clock: int) {
    && (forall id | id in conns :: id in was)
    && (forall id | id in was :: C.Usable(was[id].config) &&
          if OfConn(id) in todo then id in conns && conns[id] == was[id]
          else
            var d := C.Fire(was[id], now, clock);
            if d.closed then id !in conns else id in conns && conns[id] == d)
  }

  /**
    Streams likewise: of the connections that are left, each due stream fired
    once, for itself, and the others are untouched.  `checks` is what KCP
    answers, stream by stream, when asked for its next update.
   */
  ghost predicate StreamsFired(
    was: Streams, streams: Streams, wasConns: Conns, conns: Conns, todo: set<Owned>,
    now: int, clock: int, checks: Key -> int)
  {
    && (forall k | k in streams :: k in was && streams[k].serial == was[k].serial)
    && (forall k | k in was && k.conn in conns ::
          if OfStream(k) in todo then k in streams && streams[k] == was[k]
          else
            var s := Runs.FireTimer(was[k].s, Up(wasConns, k.conn), now, clock, checks(k));
            if s.closed then k !in streams else k in streams && streams[k].s == s)
  }

  /** The engine's batch list worked off. */
  function Flushed(streams: Streams, conns: Conns, clock: int): Streams {
    map k | k in streams :: Entry(streams[k].serial, FlushedStream(streams[k].s, Up(conns, k.conn), clock))
  }

  function FlushedStream(s: S.Stream, up: bool, clock: int): S.Stream {
    Runs.Apply(s, Runs.Step(Runs.EngineFinishBatch, up, clock, clock, 0))
  }

  /** A batched stream of a connected connection has its work scheduled at once. */
  lemma FlushSchedules(s: S.Stream, up: bool, clock: int)
    requires Runs.Kept(s, up, clock) && s.inBatch && up && s.state == S.Open && !s.closed
    ensures var t := FlushedStream(s, up, clock);
      !t.inBatch && t.alarm == S.Alarm(InHeap, clock) && !t.closed && t.kcp == s.kcp
  {
  }

  lemma OneConnKept(conns: Conns, id: int, nextConnId: int)
    requires id in conns && ConnsKept(conns, nextConnId)
    ensures C.Awake(conns[id]) && !conns[id].closed && conns[id].localId == id && C.Usable(conns[id].config)
    ensures Steps.EndedOnce(conns[id])
  {
  }

  lemma IdLost(conns: Conns, id: int, streams: Streams, queue: seq<Owner>, born: int)
    requires ConnsKept(conns, id) && QueueKept(queue, conns, streams, id, born)
    ensures ConnsKept(conns, id + 1) && QueueKept(queue, conns, streams, id + 1, born)
  {
    hide C.Awake;
  }

  lemma NoConnsNoStreams(streams: Streams, clock: int)
    requires StreamsKept(streams, map[], clock, 0)
    ensures streams == map[]
  {
    hide Runs.Kept;
    assert forall k | k in streams :: Attached(k, map[], 0);
    assert streams.Keys == {};
  }

  lemma FiringStarts(conns: Conns, streams: Streams, nextConnId: int, now: int, clock: int, checks: Key -> int)
    requires ConnsKept(conns, nextConnId) && StreamsKept(streams, conns, clock, 0)
    ensures ConnsFired(conns, conns, DueNodes(conns, streams, now), now, clock)
    ensures StreamsFired(streams, streams, conns, conns, DueNodes(conns, streams, now), now, clock, checks)
  {
    hide Runs.Kept;
    forall k | k in streams
      ensures OfStream(k) !in DueNodes(conns, streams, now) ==>
        Runs.FireTimer(streams[k].s, Up(conns, k.conn), now, clock, checks(k)) == streams[k].s && !streams[k].s.closed
    {
      assert IsDue(streams[k].s.alarm, now) ==> OfStream(k) in DueNodes(conns, streams, now);
    }
    forall id | id in conns
      ensures C.Usable(conns[id].config) && !conns[id].closed
      ensures OfConn(id) !in DueNodes(conns, streams, now) ==> C.Fire(conns[id], now, clock) == conns[id]
    {
      OneConnKept(conns, id, nextConnId);
      assert IsDue(conns[id].alarm, now) ==> OfConn(id) in DueNodes(conns, streams, now);
    }
  }

  lemma ConnFires(was: Conns, conns: Conns, todo: set<Owned>, id: int, now: int, clock: int)
    requires ConnsFired(was, conns, todo, now, clock) && OfConn(id) in todo && id in conns
    ensures id in was && conns[id] == was[id] && C.Usable(was[id].config)
    ensures var d := C.Fire(was[id], now, clock);
      ConnsFired(was, if d.closed then Minus(conns, id) else conns[id := d], todo - {OfConn(id)}, now, clock)
  {
    hide C.Fire, C.Usable;
  }

  /** A node whose owner has gone is not there to fire. */
  lemma NothingFires(was: Conns, conns: Conns, todo: set<Owned>, n: Owned, now: int, clock: int)
    requires ConnsFired(was, conns, todo, now, clock) && n in todo && (n.OfConn? ==> n.id !in conns)
    ensures ConnsFired(was, conns, todo - {n}, now, clock)
  {
    hide C.Fire, C.Usable;
  }

  lemma StreamsAfterPut(
    was: Streams, streams: Streams, wasConns: Conns, conns: Conns, id: int, d: C.Conn,
    todo: set<Owned>, now: int, clock: int, checks: Key -> int)
    requires StreamsFired(was, streams, wasConns, conns, todo, now, clock, checks) && id in conns
    ensures StreamsFired(was, streams, wasConns, conns[id := d], todo - {OfConn(id)}, now, clock, checks)
  {
    hide Runs.FireTimer;
  }

  lemma StreamsAfterCascade(
    was: Streams, before: Streams, streams: Streams, wasConns: Conns, conns: Conns, id: int, queue: seq<Owner>,
    finals: map<int, S.Stream>, reason: S.Reason, todo: set<Owned>, now: int, clock: int, checks: Key -> int)
    requires StreamsFired(was, before, wasConns, conns, todo, now, clock, checks)
    requires Cascaded(before, streams, id, {}, queue, finals, reason)
    ensures StreamsFired(was, streams, wasConns, Minus(conns, id), todo - {OfConn(id)}, now, clock, checks)
  {
    hide Runs.FireTimer;
  }

  lemma StreamsAfterNothing(
    was: Streams, streams: Streams, wasConns: Conns, conns: Conns, todo: set<Owned>, n: Owned,
    now: int, clock: int, checks: Key -> int)
    requires StreamsFired(was, streams, wasConns, conns, todo, now, clock, checks)
    requires n.OfStream? ==> n.key !in was || n.key.conn !in conns
    ensures StreamsFired(was, streams, wasConns, conns, todo - {n}, now, clock, checks)
  {
    hide Runs.FireTimer;
  }

  lemma OneStreamFires(
    was: Streams, before: Streams, streams: Streams, wasConns: Conns, conns: Conns, todo: set<Owned>, k: Key,
    now: int, clock: int, checks: Key -> int)
    requires StreamsFired(was, before, wasConns, conns, todo, now, clock, checks) && OfStream(k) in todo && k in before
    requires k.conn in conns && Up(conns, k.conn) == Up(wasConns, k.conn)
    requires var s := Runs.FireTimer(before[k].s, Up(conns, k.conn), now, clock, checks(k));
      streams == if s.closed then Minus(before, k) else before[k := Entry(before[k].serial, s)]
    ensures StreamsFired(was, streams, wasConns, conns, todo - {OfStream(k)}, now, clock, checks)
  {
    hide Runs.FireTimer;
  }

  /** Firing leaves a surviving connection in its state, so it stays up or down. */
  lemma FiringKeepsUp(was: Conns, conns: Conns, todo: set<Owned>, id: int, now: int, clock: int)
    requires ConnsFired(was, conns, todo, now, clock) && id in conns && !was[id].closed
    ensures Up(conns, id) == Up(was, id)
  {
    hide C.Update;
    var c := was[id];
    C.UpdateFrame(c.(alarm := c.alarm.(state := Running)), now, clock);
  }

  lemma ConnFiredWas(was: Conns, conns: Conns, todo: set<Owned>, id: int, now: int, clock: int)
    requires ConnsFired(was, conns, todo, now, clock) && id in conns
    ensures id in was
  {
  }

  lemma GoneBefore(
    was: Streams, streams: Streams, wasConns: Conns, conns: Conns, todo: set<Owned>, k: Key,
    now: int, clock: int, checks: Key -> int)
    requires StreamsFired(was, streams, wasConns, conns, todo, now, clock, checks) && OfStream(k) in todo && k !in streams
    ensures k !in was || k.conn !in conns
  {
  }

  /** What is still to fire is as it was, and so still due. */
  lemma DueStill(
    wasConns: Conns, conns: Conns, wasStreams: Streams, streams: Streams, todo: set<Owned>, n: Owned,
    now: int, clock: int, checks: Key -> int)
    requires ConnsFired(wasConns, conns, todo, now, clock)
    requires StreamsFired(wasStreams, streams, wasConns, conns, todo, now, clock, checks)
    requires todo <= DueNodes(wasConns, wasStreams, now) && n in todo
    ensures n.OfConn? && n.id in conns ==> conns[n.id].alarm.deadline <= now
    ensures n.OfStream? && n.key in streams && n.key.conn in conns ==> streams[n.key].s.alarm.deadline <= now
  {
    hide Runs.FireTimer, C.Fire, C.Usable;
  }

  /** When all that is still to fire has gone, everything has fired that will. */
  lemma FiringEnds(
    wasConns: Conns, conns: Conns, wasStreams: Streams, streams: Streams, todo: set<Owned>,
    now: int, clock: int, checks: Key -> int)
    requires ConnsFired(wasConns, conns, todo, now, clock)
    requires StreamsFired(wasStreams, streams, wasConns, conns, todo, now, clock, checks)
    requires forall n | n in todo :: if n.OfConn? then n.id !in conns else n.key !in streams
    ensures ConnsFired(wasConns, conns, {}, now, clock)
    ensures StreamsFired(wasStreams, streams, wasConns, conns, {}, now, clock, checks)
  {
    hide Runs.FireTimer, C.Fire, C.Usable;
  }

  lemma NoneClosed(conns: Conns, nextConnId: int)
    requires ConnsKept(conns, nextConnId)
    ensures forall id | id in conns :: !conns[id].closed
  {
  }

  lemma NoStreamsYet(streams: Streams, conns: Conns, id: int, clock: int)
    requires StreamsKept(streams, conns, clock, 0) && ConnsKept(conns, id)
    ensures forall k | k in streams :: k.conn != id
  {
    hide Runs.Kept;
    assert forall k | k in streams :: Attached(k, conns, 0);
  }

  lemma TakenBack(conns: Conns, id: int, c: C.Conn)
    requires id !in conns
    ensures Minus(conns[id := c], id) == conns
  {
  }

  lemma NothingToCascade(
    all: Streams, streams: Streams, id: int, queue: seq<Owner>, finals: map<int, S.Stream>, reason: S.Reason)
    requires Cascaded(all, streams, id, {}, queue, finals, reason) && (forall k | k in all :: k.conn != id)
    ensures streams == all
  {
  }

  /** Part-way through a batch: the streams in `todo` are still to be done. */
  ghost predicate PartFlushed(was: Streams, streams: Streams, conns: Conns, clock: int, todo: seq<Key>) {
    && streams.Keys == was.Keys
    && (forall k | k in was :: streams[k] ==
          if k in todo then was[k] else Entry(was[k].serial, FlushedStream(was[k].s, Up(conns, k.conn), clock)))
  }

  lemma FlushStarts(streams: Streams, conns: Conns, clock: int, batch: seq<Key>)
    requires Listed(batch, streams)
    ensures PartFlushed(streams, streams, conns, clock, batch)
  {
    assert forall k | k in streams && k !in batch :: FlushedStream(streams[k].s, Up(conns, k.conn), clock) == streams[k].s;
  }

  lemma FlushMoves(was: Streams, streams: Streams, conns: Conns, clock: int, todo: seq<Key>)
    requires PartFlushed(was, streams, conns, clock, todo) && Listed(todo, streams) && todo != []
    ensures var k := todo[0]; k in streams && var s := FlushedStream(streams[k].s, Up(conns, k.conn), clock);
      && s.closed == streams[k].s.closed && !s.inBatch
      && PartFlushed(was, streams[k := Entry(streams[k].serial, s)], conns, clock, Without(todo, k))
  {
  }

  lemma FlushEnds(was: Streams, streams: Streams, conns: Conns, clock: int)
    requires PartFlushed(was, streams, conns, clock, [])
    ensures streams == Flushed(was, conns, clock)
  {
  }

  lemma ReleasedOnce(queue: seq<Owner>, conns: Conns, streams: Streams, nextConnId: int, born: int)
    requires QueueKept(queue + [], conns, streams, nextConnId, born)
    ensures ReleaseOrder(queue)
  {
    assert queue + [] == queue;
  }

  /** A stream has its timer set, in a waiting phase not before the phase ends. */
  predicate StreamWaits(s: S.Stream) {
    && s.alarm.state == InHeap
    && (s.phase == S.WaitAck ==> s.alarm.deadline >= S.DeadlineAfter(s.lastCtrl, s.config.ctrlTimeout))
    && (s.phase == S.RemoteDrain ==> s.alarm.deadline >= S.DeadlineAfter(s.drainStart, s.config.drainTimeout))
  }

  /** A connection that has a deadline, which saturates at the end of time, has its timer set, not before it. */
  predicate ConnWaits(c: C.Conn) {
    C.Usable(c.config) &&
    match C.CalculateDeadline(c)
    case Never => true
    case At(d) => c.alarm.state == InHeap && c.alarm.deadline >= d
  }

  /** Live connections keep their side, and new ones have new identifiers. */
  ghost predicate SidesKept(was: Conns, conns: Conns, next: int) {
    forall id | id in conns :: if id in was then conns[id].isInitiator == was[id].isInitiator else next <= id
  }

  lemma SidesKeptByPut(was: Conns, id: int, d: C.Conn, next: int)
    requires if id in was then d.isInitiator == was[id].isInitiator else next <= id
    ensures SidesKept(was, was[id := d], next) && SidesKept(was, Minus(was, id), next) && SidesKept(was, was, next)
  {
  }

  lemma SidesKeptByFiring(was: Conns, conns: Conns, now: int, clock: int, next: int)
    requires ConnsFired(was, conns, {}, now, clock) && forall id | id in was :: !was[id].closed
    ensures SidesKept(was, conns, next)
  {
    hide C.Update;
    forall id | id in conns ensures id in was && conns[id].isInitiator == was[id].isInitiator {
      var c := was[id];
      C.UpdateFrame(c.(alarm := c.alarm.(state := Running)), now, clock);
    }
  }

  /** Something will happen to the connection by itself. */
  predicate HasDeadline(c: C.Conn) {
    C.Usable(c.config) && C.CalculateDeadline(c).At?
  }

  /** What an application, its peers, KCP and the host may make the engine do. */
  datatype Command =
    | Connecting(config: C.Config, hooked: bool)
    | Admitting(peerId: int, config: C.Config, hooked: bool, result: int)
    | ConnDoes(id: int, op: C.Op)
    | Creating(id: int, settings: S.Config, hooked: bool, made: bool, check: int)
    | PeerOpening(key: Key, settings: S.Config, hooked: bool, check: int)
    | Rejecting(key: Key, check: int)
    | Failing(key: Key, check: int)
    | StreamDoes(key: Key, act: Runs.Op, now: int, check: int)
    | Entering
    | Leaving
    | Updating(checks: Key -> int)
    | FinishingBatch
    | Waiting(time: int)

  /** What was released, and what waits for it. */
  function Joined(released: seq<Owner>, pending: seq<Owner>): seq<Owner> {
    released + pending
  }

  lemma JoinedGrows(released: seq<Owner>, pending: seq<Owner>, o: Owner)
    ensures Joined(released, pending + [o]) == Joined(released, pending) + [o]
    ensures o !in Joined(released, pending) ==> o !in pending
  {
  }

  class Engine {
    var conns: map<int, C.Conn>
    var streams: map<Key, Entry>
    var nextConnId: int
    var pendingBatch: seq<Key>
    var pendingRelease: seq<Owner>
    var released: seq<Owner>
    var operationDepth: int
    var clock: int
    // Per connection: the next stream identifier to try, and the number of streams.
    var nextIds: map<int, Ids.Id>
    var counts: map<int, int>
    // Counters.
    var connCount: int
    var connCreated: int
    var connClosed: int
    var streamCount: int
    var streamCreated: int
    var streamClosed: int
    var timerNodeCount: int
    /** The last records of finalised streams, by serial number, and connections. */
    ghost var finals: map<int, S.Stream>
    ghost var ends: map<int, C.Conn>

    /** The counters agree with the maps, and what was closed is queued or released, but for what is `owed`. */
    ghost predicate Counted(owed: int)
      reads this`conns, this`streams, this`connCount, this`connCreated, this`connClosed
      reads this`streamCount, this`streamCreated, this`streamClosed, this`timerNodeCount
      reads this`pendingRelease, this`released
    {
      && connCount == |conns| == connCreated - connClosed
      && streamCount == |streams| == streamCreated - streamClosed
      && timerNodeCount == |conns| + |streams|
      && |released| + |pendingRelease| + owed == connClosed + streamClosed
    }

    ghost predicate Populated(gone: int)
      reads this`conns, this`streams, this`nextConnId, this`pendingBatch, this`pendingRelease, this`released
      reads this`clock, this`streamCreated, this`finals, this`ends, this`nextIds, this`counts
    {
      && IdsKept(conns, streams, nextIds, counts)
      && ConnsKept(conns, nextConnId) && StreamsKept(streams, conns, clock, gone) && Listed(pendingBatch, streams)
      && QueueKept(Joined(released, pendingRelease), conns, streams, nextConnId, streamCreated)
      && Accounted(Joined(released, pendingRelease), finals, ends)
    }

    ghost predicate Inv()
      reads this
    {
      && Counted(0) && Populated(0) && 0 < nextConnId <= ID_LIMIT
      && 0 <= operationDepth && (operationDepth == 0 ==> pendingRelease == [])
    }

    constructor (firstId: int)
      requires 0 < firstId < ID_LIMIT / 2
      ensures Inv() && conns == map[] && streams == map[] && released == [] && operationDepth == 0 && clock == 0
    {
      conns, streams, nextConnId := map[], map[], firstId;
      pendingBatch, pendingRelease, released, operationDepth, clock := [], [], [], 0, 0;
      connCount, connCreated, connClosed, streamCount, streamCreated, streamClosed, timerNodeCount := 0, 0, 0, 0, 0, 0, 0;
      finals, ends, nextIds, counts := map[], map[], map[], map[];
    }

    method OperationEnter()
      requires Inv()
      modifies this`operationDepth
      ensures Inv() && operationDepth == old(operationDepth) + 1
    {
      hide Counted, Populated;
      operationDepth := operationDepth + 1;
    }

    /** Only the outermost leave frees anything, and it frees everything, in order. */
    method OperationLeave()
      requires Inv()
      modifies this`operationDepth, this`pendingRelease, this`released
      ensures Inv()
      ensures operationDepth == if old(operationDepth) == 0 then 0 else old(operationDepth) - 1
      ensures old(operationDepth) == 1 ==> released == old(released + pendingRelease)
      ensures old(operationDepth) != 1 ==> released == old(released) && pendingRelease == old(pendingRelease)
    {
      hide ConnsKept, StreamsKept, Listed, QueueKept, Accounted, IdsKept;
      if operationDepth == 0 {
        return;
      }
      operationDepth := operationDepth - 1;
      if operationDepth != 0 {
        return;
      }
      operationDepth := 1;
      while pendingRelease != []
        invariant released + pendingRelease == old(released + pendingRelease)
        decreases |pendingRelease|
      {
        var item := pendingRelease[0];
        pendingRelease := pendingRelease[1..];
        released := released + [item];
      }
      operationDepth := 0;
    }

    /** Time moves on. */
    method Tick(time: int)
      requires Inv() && clock <= time
      modifies this`clock
      ensures Inv() && clock == time
    {
      hide ConnsKept, StreamsKept, Listed, QueueKept, Accounted, IdsKept;
      StreamsLater(streams, conns, clock, time, 0);
      clock := time;
    }

    /** A finalised stream leaves the map and the batch list and is queued for release. */
    method DropStream(k: Key, ghost last: S.Stream, ghost gone: int, ghost owed: int)
      requires k in streams && Counted(owed) && Populated(gone) && last.closed && Runs.FinalisedOnce(last)
      modifies this`streams, this`pendingBatch, this`pendingRelease, this`finals, this`counts
      modifies this`streamCount, this`streamClosed, this`timerNodeCount
      ensures Counted(owed) && Populated(gone) && streams == Minus(old(streams), k)
      ensures pendingRelease == old(pendingRelease) + [StreamOwner(old(streams)[k].serial, k.conn)]
      ensures pendingBatch == Without(old(pendingBatch), k) && finals == old(finals)[old(streams)[k].serial := last]
    {
      hide Populated, Minus, Runs.FinalisedOnce, Without;
      OneFewer(streams, k);
      timerNodeCount := timerNodeCount - 1;
      streamCount := streamCount - 1;
      streamClosed := streamClosed + 1;
      Unlink(k, last, gone);
    }

    method Unlink(k: Key, ghost last: S.Stream, ghost gone: int)
      requires k in streams && Populated(gone) && last.closed && Runs.FinalisedOnce(last)
      modifies this`streams, this`pendingBatch, this`pendingRelease, this`finals, this`counts
      ensures Populated(gone) && streams == Minus(old(streams), k)
      ensures pendingRelease == old(pendingRelease) + [StreamOwner(old(streams)[k].serial, k.conn)]
      ensures pendingBatch == Without(old(pendingBatch), k) && finals == old(finals)[old(streams)[k].serial := last]
    {
      hide ConnsKept, StreamsKept, Listed, QueueKept, Accounted, IdsKept, Minus, Joined, Without, Runs.FinalisedOnce;
      var owner := StreamOwner(streams[k].serial, k.conn);
      StreamAccounted(Joined(released, pendingRelease), finals, ends, owner.serial, k.conn, last);
      DropKeepsStreams(streams, k, conns, clock, gone, pendingBatch);
      DropKeepsQueue(Joined(released, pendingRelease), streams, k, conns, nextConnId, streamCreated);
      DropKeepsIds(conns, streams, nextIds, counts, k);
      JoinedGrows(released, pendingRelease, owner);
      pendingBatch := Without(pendingBatch, k);
      streams := Minus(streams, k);
      counts := Recount(counts, k.conn, -1);
      pendingRelease := pendingRelease + [owner];
      finals := finals[owner.serial := last];
    }

    method PutStream(k: Key, s: S.Stream)
      requires k in streams && Populated(0) && !s.closed && Runs.Kept(s, Up(conns, k.conn), clock)
      modifies this`streams, this`pendingBatch
      ensures Populated(0) && streams == old(streams)[k := Entry(old(streams)[k].serial, s)]
      ensures pendingBatch == Relisted(old(pendingBatch), k, s.inBatch)
    {
      hide ConnsKept, StreamsKept, Listed, QueueKept, Accounted, IdsKept, Runs.Kept;
      PutKeepsStreams(streams, k, s, conns, clock, 0);
      RelistedKeeps(pendingBatch, streams, k, s);
      PutKeepsQueue(Joined(released, pendingRelease), streams, k, s, conns, nextConnId, streamCreated);
      PutKeepsIds(conns, streams, nextIds, counts, k, Entry(streams[k].serial, s));
      pendingBatch := Relisted(pendingBatch, k, s.inBatch);
      streams := streams[k := Entry(streams[k].serial, s)];
    }

    lemma StreamIsKept(k: Key)
      requires Populated(0) && k in streams
      ensures !streams[k].s.closed && Runs.Kept(streams[k].s, Up(conns, k.conn), clock)
    {
      hide ConnsKept, StreamsKept, Listed, QueueKept, Accounted, IdsKept, Runs.Kept;
      OneStreamKept(streams, k, conns, clock, 0);
    }

    /** Anything that can happen to a stream, inside an operation. */
    method StreamStep(k: Key, op: Runs.Op, now: int, check: int)
      requires Inv() && k in streams && operationDepth > 0 && now <= clock && Runs.KcpBehaves(streams[k].s, op)
      modifies this`streams, this`pendingBatch, this`pendingRelease, this`finals, this`counts
      modifies this`streamCount, this`streamClosed, this`timerNodeCount
      ensures Inv()
      ensures var s := Runs.Apply(old(streams)[k].s, Runs.Step(op, Up(conns, k.conn), now, clock, check));
        if s.closed
        then streams == Minus(old(streams), k) && pendingBatch == Without(old(pendingBatch), k)
             && pendingRelease == old(pendingRelease) + [StreamOwner(old(streams)[k].serial, k.conn)]
             && finals == old(finals)[old(streams)[k].serial := s]
        else streams == old(streams)[k := Entry(old(streams)[k].serial, s)] && pendingRelease == old(pendingRelease)
             && pendingBatch == Relisted(old(pendingBatch), k, s.inBatch) && finals == old(finals)
    {
      hide Populated, Minus, Runs.Kept, Runs.Apply, Runs.KcpBehaves, Without, Relisted;
      var st := Runs.Step(op, Up(conns, k.conn), now, clock, check);
      StreamIsKept(k);
      Runs.ApplyKeeps(streams[k].s, st, st.up, clock);
      var s := Runs.Apply(streams[k].s, st);
      if s.closed {
        KeptIsFinalisedOnce(s, Up(conns, k.conn), clock);
        DropStream(k, s, 0, 0);
      } else {
        PutStream(k, s);
      }
    }

    lemma ConnAlive(id: int, op: C.Op)
      requires Inv() && id in conns
      ensures !conns[id].closed && C.Usable(conns[id].config) && conns[id].registered
      ensures var d := C.Apply(conns[id], op, clock); d.registered == !d.closed && C.Usable(d.config)
    {
      hide ConnsKept, StreamsKept, Listed, QueueKept, Accounted, IdsKept, C.Apply;
      OneConnKept(conns, id, nextConnId);
      C.ApplyEvolves(conns[id], op, clock);
    }

    /** An update is about to fire what is due. */
    lemma FiringBegins(checks: Key -> int)
      requires Inv()
      ensures forall id | id in conns :: !conns[id].closed
      ensures ConnsFired(conns, conns, DueNodes(conns, streams, clock), clock, clock)
      ensures StreamsFired(streams, streams, conns, conns, DueNodes(conns, streams, clock), clock, clock, checks)
    {
      hide ConnsKept, StreamsKept, Listed, QueueKept, Accounted, IdsKept, ConnsFired, StreamsFired, DueNodes;
      FiringStarts(conns, streams, nextConnId, clock, clock, checks);
      NoneClosed(conns, nextConnId);
    }

    lemma StreamWakes(k: Key)
      requires Inv() && k in streams && Up(conns, k.conn)
      ensures StreamWaits(streams[k].s)
    {
      hide ConnsKept, StreamsKept, Listed, QueueKept, Accounted, IdsKept;
      OneStreamKept(streams, k, conns, clock, 0);
    }

    lemma ConnWakes(id: int)
      requires Inv() && id in conns
      ensures ConnWaits(conns[id])
    {
      hide ConnsKept, StreamsKept, Listed, QueueKept, Accounted, IdsKept;
      OneConnKept(conns, id, nextConnId);
    }

    lemma StreamKeptAt(k: Key)
      requires Inv() && k in streams
      ensures Runs.Kept(streams[k].s, Up(conns, k.conn), clock)
    {
      hide Counted, Populated, Runs.Kept;
      StreamIsKept(k);
    }

    lemma ConnIsKept(id: int)
      requires Inv() && id in conns
      ensures C.Awake(conns[id]) && Steps.EndedOnce(conns[id])
    {
      hide ConnsKept, StreamsKept, Listed, QueueKept, Accounted, IdsKept, C.Awake, Steps.EndedOnce;
      OneConnKept(conns, id, nextConnId);
    }

    lemma SideStays(id: int, op: C.Op)
      requires Inv() && id in conns
      ensures C.Usable(conns[id].config) && C.Apply(conns[id], op, clock).isInitiator == conns[id].isInitiator
    {
      hide ConnsKept, StreamsKept, Listed, QueueKept, Accounted, IdsKept, C.Apply;
      OneConnKept(conns, id, nextConnId);
      C.ApplyEvolves(conns[id], op, clock);
    }

    lemma ConnRests(id: int)
      requires Inv() && id in conns
      ensures conns[id].alarm.state in {Idle, InHeap}
    {
      hide ConnsKept, StreamsKept, Listed, QueueKept, Accounted, IdsKept;
      OneConnKept(conns, id, nextConnId);
    }

    lemma StreamAlive(k: Key)
      requires Inv() && k in streams
      ensures !streams[k].s.closed && S.Acceptable(streams[k].s.config) && streams[k].s.registered && k.conn in conns
      ensures streams[k].s.alarm.state in {Idle, InHeap}
    {
      hide ConnsKept, StreamsKept, Listed, QueueKept, Accounted, IdsKept;
      OneStreamKept(streams, k, conns, clock, 0);
    }

    /** A stream's node is registered exactly as long as the stream lives, and its configuration is acceptable. */
    lemma RegisteredIffLive(k: Key, st: Runs.Step)
      requires Inv() && k in streams && st.up == Up(conns, k.conn) && st.clock == clock && st.now <= clock
      requires Runs.KcpBehaves(streams[k].s, st.op)
      ensures var s := Runs.Apply(streams[k].s, st); s.registered == !s.closed && S.Acceptable(s.config)
      ensures S.Acceptable(streams[k].s.config) && !streams[k].s.closed && streams[k].s.registered
    {
      hide ConnsKept, StreamsKept, Listed, QueueKept, Accounted, IdsKept, Runs.Apply, Runs.KcpBehaves;
      OneStreamKept(streams, k, conns, clock, 0);
      Runs.ApplyKeeps(streams[k].s, st, st.up, clock);
    }

    /** Where a connection's own stream identifiers start. */
    static method FirstId(isInitiator: bool) returns (next: Ids.Id)
      ensures Ids.Ready(isInitiator, next)
    {
      var random: Ids.Id := *;
      var allocator := new Ids.Allocator(isInitiator, random);
      next := allocator.next;
    }

    lemma FailedIsDone(k: Key, check: int)
      requires Inv() && k in streams
      ensures var s := S.Fail(streams[k].s, Up(conns, k.conn), clock, check); s.closed && !s.registered
    {
      hide Counted, Populated, S.Fail;
      StreamIsKept(k);
      Runs.FailKeeps(streams[k].s, Up(conns, k.conn), clock, check);
    }

    /** A rejected stream's node is registered exactly as long as the stream lives. */
    lemma RejectedIffLive(k: Key, check: int)
      requires Inv() && k in streams && streams[k].s.state == S.Open
      ensures var s := S.Reject(streams[k].s, Up(conns, k.conn), clock, check); s.registered == !s.closed
    {
      hide Counted, Populated, S.Reject;
      StreamIsKept(k);
      Runs.RejectKeeps(streams[k].s, Up(conns, k.conn), clock, check);
    }

    /** Registers a new connection under the next identifier. */
    method AddConn(c: C.Conn)
      requires Inv() && c.localId == nextConnId < ID_LIMIT && !c.closed && C.Awake(c) && Steps.EndedOnce(c)
      modifies this`conns, this`nextConnId, this`connCount, this`connCreated, this`timerNodeCount
      modifies this`nextIds, this`counts
      ensures Inv() && conns == old(conns)[c.localId := c] && c.localId !in old(conns) && nextConnId == old(nextConnId) + 1
    {
      hide Counted, Populated, C.Awake, Steps.EndedOnce;
      var next := FirstId(c.isInitiator);
      RegisterConn(c, next);
    }

    method RegisterConn(c: C.Conn, next: Ids.Id)
      requires Inv() && c.localId == nextConnId < ID_LIMIT && !c.closed && C.Awake(c) && Steps.EndedOnce(c)
      requires Ids.Ready(c.isInitiator, next)
      modifies this`conns, this`nextConnId, this`connCount, this`connCreated, this`timerNodeCount
      modifies this`nextIds, this`counts
      ensures Inv() && conns == old(conns)[c.localId := c] && c.localId !in old(conns) && nextConnId == old(nextConnId) + 1
    {
      hide Populated, C.Awake, Steps.EndedOnce, Ids.Ready;
      connCreated := connCreated + 1;
      timerNodeCount := timerNodeCount + 1;
      connCount := connCount + 1;
      LinkConn(c, next);
    }

    method LinkConn(c: C.Conn, next: Ids.Id)
      requires Populated(0) && 0 < c.localId == nextConnId && !c.closed && C.Awake(c) && Steps.EndedOnce(c)
      requires Ids.Ready(c.isInitiator, next)
      modifies this`conns, this`nextConnId, this`nextIds, this`counts
      ensures Populated(0) && conns == old(conns)[c.localId := c] && nextConnId == old(nextConnId) + 1
      ensures c.localId !in old(conns) && |conns| == |old(conns)| + 1
    {
      hide ConnsKept, StreamsKept, Listed, QueueKept, Accounted, IdsKept, IdsOf, Joined, C.Awake, Steps.EndedOnce, Ids.Ready;
      AddConnKeeps(conns, c, nextConnId, streams, clock, Joined(released, pendingRelease), streamCreated);
      ConnKeepsIds(conns, streams, nextIds, counts, c.localId, c, next);
      nextIds := nextIds[c.localId := next];
      counts := counts[c.localId := 0];
      conns := conns[c.localId := c];
      nextConnId := nextConnId + 1;
    }

    /**
      Opens a stream of a connected connection.  The map skips a key that is
      taken while the counters go up all the same, so everything stays in order
      exactly if the key is not in use.
     */
    method OpenStream(k: Key, config: S.Config, isInitiator: bool, hooked: bool, check: int)
      requires Inv() && Up(conns, k.conn) && S.Acceptable(config)
      modifies this`streams, this`streamCount, this`streamCreated, this`timerNodeCount, this`counts
      ensures Inv() <==> k !in old(streams)
      ensures streamCount == old(streamCount) + 1 && streamCreated == old(streamCreated) + 1
      ensures timerNodeCount == old(timerNodeCount) + 1
      ensures streams == if k in old(streams) then old(streams) else old(streams)[
        k := Entry(old(streamCreated), S.New(k.id, isInitiator, config, hooked, true, clock, check))]
    {
      hide ConnsKept, StreamsKept, Listed, QueueKept, Accounted, IdsKept, Runs.Kept;
      var s := S.New(k.id, isInitiator, config, hooked, true, clock, check);
      if k !in streams {
        Runs.NewIsKept(k.id, isInitiator, config, hooked, true, clock, check);
        AddStreamKeeps(
          streams, k, s, conns, clock, pendingBatch, Joined(released, pendingRelease), nextConnId, streamCreated);
        AddKeepsIds(conns, streams, nextIds, counts, k, Entry(streamCreated, s));
      }
      timerNodeCount := timerNodeCount + 1;
      AddStream(k, Entry(streamCreated, s));
      streamCreated := streamCreated + 1;
    }

    method AddStream(k: Key, e: Entry)
      modifies this`streams, this`streamCount, this`counts
      ensures counts == Recount(old(counts), k.conn, 1)
      ensures streams == if k in old(streams) then old(streams) else old(streams)[k := e]
      ensures streamCount == old(streamCount) + 1
    {
      if k !in streams {
        streams := streams[k := e];
      }
      counts := Recount(counts, k.conn, 1);
      streamCount := streamCount + 1;
    }

    /** The allocator of a connection, run over exactly its stream map. */
    method AllocStreamId(conn: int) returns (id: Ids.Id)
      requires Inv() && conn in conns
      modifies this`nextIds
      ensures Inv()
      ensures id != 0 ==> Ids.Owns(conns[conn].isInitiator, id) && Key.Key(conn, id) !in streams
      ensures id == 0 <==> AllTaken(streams, conn, conns[conn].isInitiator)
    {
      hide ConnsKept, StreamsKept, Listed, QueueKept, Accounted, IdsOf, Ids.Owns;
      var allocator := new Ids.Allocator.At(conns[conn].isInitiator, nextIds[conn], IdsOf(streams, conn), counts[conn]);
      ghost var probes;
      id, probes := allocator.Alloc();
      nextIds := nextIds[conn := allocator.next];
      KeysAndIds(streams, conn);
    }

    /**
      kcpmux_stream_create.  Whatever the streams of the connection, the new
      stream's key is not among them, so the insertion never skips and all
      counters stay exact; an identifier is only lacking when every one the
      side owns is in use.  `made` tells whether memory and KCP were to be had.
     */
    method CreateStream(conn: int, config: S.Config, hooked: bool, made: bool, check: int) returns (id: Ids.Id)
      requires Inv()
      modifies this`streams, this`streamCount, this`streamCreated, this`timerNodeCount, this`counts, this`nextIds
      ensures Inv()
      ensures id == 0 <==> !Up(conns, conn) || !made || !S.Acceptable(config) || AllTaken(old(streams), conn, conns[conn].isInitiator)
      ensures id == 0 ==> streams == old(streams) && streamCreated == old(streamCreated)
      ensures id != 0 ==>
        && Ids.Owns(conns[conn].isInitiator, id) && Key.Key(conn, id) !in old(streams)
        && streamCreated == old(streamCreated) + 1
        && streams == old(streams)[
             Key.Key(conn, id) := Entry(old(streamCreated), S.New(id, true, config, hooked, true, clock, check))]
    {
      hide Counted, Populated, AllTaken, Ids.Owns, S.New, S.Acceptable;
      if !Up(conns, conn) {
        return 0;
      }
      id := AllocStreamId(conn);
      if id == 0 || !made || !S.Acceptable(config) {
        return 0;
      }
      OpenStream(Key.Key(conn, id), config, true, hooked, check);
    }

    method PutConn(id: int, d: C.Conn)
      requires Inv() && id in conns && C.Evolves(conns[id], d) && !d.closed && Steps.EndedOnce(d)
      modifies this`conns
      ensures Inv() && conns == old(conns)[id := d]
    {
      hide ConnsKept, StreamsKept, Listed, QueueKept, Accounted, IdsKept, C.Evolves, Steps.EndedOnce;
      PutConnKeeps(conns, id, d, nextConnId, streams, clock, Joined(released, pendingRelease), streamCreated);
      conns := conns[id := d];
    }

    /** Finalises the streams of a connection that has left the map. */
    method DropStreamsOf(id: int, reason: C.Reason)
      requires id != 0 && Counted(1) && Populated(id) && ConnOwner(id) !in pendingRelease
      modifies this`streams, this`pendingBatch, this`pendingRelease, this`finals, this`counts
      modifies this`streamCount, this`streamClosed, this`timerNodeCount
      ensures Counted(1) && Populated(id) && Cascaded(old(streams), streams, id, {}, pendingRelease, finals, reason)
      ensures old(pendingRelease) <= pendingRelease && ConnOwner(id) !in pendingRelease
    {
      hide Populated, Counted, Own, Cascaded, Minus, S.CloseInternal, Runs.FinalisedOnce, DistinctSerials;
      var own := Own(streams, id);
      SerialsDiffer(id);
      CascadeStarts(streams, id, pendingRelease, finals, reason);
      while own != {}
        invariant Counted(1) && Populated(id) && Cascaded(old(streams), streams, id, own, pendingRelease, finals, reason)
        invariant old(pendingRelease) <= pendingRelease && ConnOwner(id) !in pendingRelease
        decreases own
      {
        var k :| k in own;
        CascadeMoves(old(streams), streams, id, own, k, pendingRelease, finals, reason);
        var last := S.CloseInternal(streams[k].s, reason);
        LastOf(k, reason, id);
        DropStream(k, last, id, 1);
        own := own - {k};
      }
    }

    lemma SerialsDiffer(gone: int)
      requires Populated(gone)
      ensures DistinctSerials(streams)
    {
      hide ConnsKept, StreamsKept, Listed, Accounted, IdsKept;
    }

    lemma LastOf(k: Key, reason: S.Reason, gone: int)
      requires Populated(gone) && k in streams
      ensures S.CloseInternal(streams[k].s, reason).closed && Runs.FinalisedOnce(S.CloseInternal(streams[k].s, reason))
    {
      hide ConnsKept, StreamsKept, Listed, QueueKept, Accounted, IdsKept, Runs.Kept, Runs.FinalisedOnce, S.CloseInternal;
      OneStreamKept(streams, k, conns, clock, gone);
      FinalisedLast(streams[k].s, reason, Up(conns, k.conn), clock);
    }

    lemma AllAlive()
      requires Inv()
      ensures forall k | k in streams :: !streams[k].s.closed
    {
    }

    /** Finalises a connection: it leaves the map, its streams are finalised, then it is queued itself. */
    method FinaliseConn(id: int, ghost last: C.Conn, reason: C.Reason)
      requires Inv() && id in conns && operationDepth > 0 && last.closed && Steps.EndedOnce(last)
      modifies this`conns, this`streams, this`pendingBatch, this`pendingRelease, this`connCount, this`connClosed
      modifies this`finals, this`ends, this`counts
      modifies this`streamCount, this`streamClosed, this`timerNodeCount
      ensures Inv() && conns == Minus(old(conns), id) && ends == old(ends)[id := last]
      ensures Cascaded(old(streams), streams, id, {}, pendingRelease, finals, reason)
      ensures AllTold(old(streams), id, finals, reason)
      ensures old(pendingRelease) <= pendingRelease && ConnOwner(id) in pendingRelease
    {
      hide Counted, Populated, Cascaded, Minus, Steps.EndedOnce, AllTold;
      AllAlive();
      Detach(id);
      DropStreamsOf(id, reason);
      CascadeEnds(old(streams), streams, id, pendingRelease, finals, reason);
      CascadeTells(old(streams), streams, id, pendingRelease, finals, reason);
      QueueConn(id, last);
    }

    /** The connection leaves the map, and its streams are on their own. */
    method Detach(id: int)
      requires Counted(0) && Populated(0) && id in conns
      modifies this`conns, this`connCount, this`connClosed, this`timerNodeCount
      ensures Counted(1) && Populated(id) && conns == Minus(old(conns), id) && id !in conns && 0 < id < nextConnId
      ensures ConnOwner(id) !in released && ConnOwner(id) !in pendingRelease
    {
      hide ConnsKept, StreamsKept, Listed, QueueKept, Accounted, IdsKept, Minus;
      DetachKeeps(conns, id, nextConnId, streams, clock, Joined(released, pendingRelease), streamCreated);
      OneFewer(conns, id);
      timerNodeCount := timerNodeCount - 1;
      conns := Minus(conns, id);
      connCount := connCount - 1;
      connClosed := connClosed + 1;
    }

    /** The connection's own release follows those of its streams. */
    method QueueConn(id: int, ghost last: C.Conn)
      requires Counted(1) && Populated(id) && id !in conns && 0 < id < nextConnId && last.closed && Steps.EndedOnce(last)
      requires ConnOwner(id) !in released && ConnOwner(id) !in pendingRelease && forall k | k in streams :: k.conn != id
      modifies this`pendingRelease, this`ends
      ensures Counted(0) && Populated(0)
      ensures pendingRelease == old(pendingRelease) + [ConnOwner(id)] && ends == old(ends)[id := last]
    {
      hide ConnsKept, StreamsKept, Listed, QueueKept, Accounted, IdsKept, Steps.EndedOnce;
      QueueConnKeeps(conns, id, nextConnId, streams, clock, Joined(released, pendingRelease), streamCreated);
      ConnAccounted(Joined(released, pendingRelease), finals, ends, id, last);
      JoinedGrows(released, pendingRelease, ConnOwner(id));
      pendingRelease := pendingRelease + [ConnOwner(id)];
      ends := ends[id := last];
    }

    /** Anything that can happen to a connection, inside an operation. */
    method ConnStep(id: int, op: C.Op)
      requires Inv() && id in conns && operationDepth > 0
      modifies this`conns, this`streams, this`pendingBatch, this`pendingRelease, this`connCount, this`connClosed
      modifies this`finals, this`ends, this`counts
      modifies this`streamCount, this`streamClosed, this`timerNodeCount
      ensures Inv() && C.Usable(old(conns)[id].config)
      ensures C.Apply(old(conns)[id], op, clock).closed ==>
        AllTold(old(streams), id, finals, Steps.Verdict(old(conns)[id], op))
      ensures var d := C.Apply(old(conns)[id], op, clock);
        if d.closed
        then conns == Minus(old(conns), id) && ends == old(ends)[id := d]
             && Cascaded(old(streams), streams, id, {}, pendingRelease, finals, Steps.Verdict(old(conns)[id], op))
             && old(pendingRelease) <= pendingRelease && ConnOwner(id) in pendingRelease
        else conns == old(conns)[id := d] && streams == old(streams) && pendingRelease == old(pendingRelease)
             && finals == old(finals) && ends == old(ends) && pendingBatch == old(pendingBatch)
    {
      hide ConnsKept, StreamsKept, Listed, QueueKept, Accounted, IdsKept, Cascaded, Minus;
      hide C.Awake, C.Apply, C.Usable, C.Evolves, Steps.EndedOnce, Steps.Verdict;
      OneConnKept(conns, id, nextConnId);
      C.ApplyEvolves(conns[id], op, clock);
      Steps.ApplyIsOrderly(conns[id], op, clock);
      var d := C.Apply(conns[id], op, clock);
      if d.closed {
        FinaliseConn(id, d, Steps.Verdict(conns[id], op));
      } else {
        PutConn(id, d);
      }
    }

    /** Starts a connection; identifiers are never reused, and one is spent even on an unacceptable configuration. */
    method Connect(config: C.Config, hooked: bool) returns (id: int)
      requires Inv() && C.Unsigned(config)
      modifies this`conns, this`nextConnId, this`connCount, this`connCreated, this`timerNodeCount
      modifies this`nextIds, this`counts
      ensures Inv() && streams == old(streams) && SidesKept(old(conns), conns, old(nextConnId))
      ensures old(nextConnId) == ID_LIMIT ==> id == 0 && nextConnId == old(nextConnId) && conns == old(conns)
      ensures old(nextConnId) < ID_LIMIT ==> nextConnId == old(nextConnId) + 1
      ensures old(nextConnId) < ID_LIMIT && C.Prepare(config) == C.Unacceptable ==> id == 0 && conns == old(conns)
      ensures old(nextConnId) < ID_LIMIT && C.Prepare(config) != C.Unacceptable ==>
        && id == old(nextConnId) && id !in old(conns)
        && conns == old(conns)[id := C.Connect(id, C.Prepare(config).config, hooked, clock)]
    {
      hide ConnsKept, StreamsKept, Listed, QueueKept, Accounted, IdsKept, C.Awake, C.Connect;
      id := 0;
      if nextConnId == ID_LIMIT {
        return;
      }
      match C.Prepare(config) {
        case Unacceptable =>
          SpendId();
        case Prepared(prepared) =>
          id := nextConnId;
          C.BirthWakes(id, 0, prepared, hooked, clock);
          Steps.BirthIsUnended(id, 0, prepared, hooked, clock);
          AddConn(C.Connect(id, prepared, hooked, clock));
      }
    }

    /** An identifier is spent on a connection that could not be made. */
    method SpendId()
      requires Inv() && nextConnId < ID_LIMIT
      modifies this`nextConnId
      ensures Inv() && nextConnId == old(nextConnId) + 1
    {
      hide ConnsKept, StreamsKept, Listed, QueueKept, Accounted, IdsKept;
      IdLost(conns, nextConnId, streams, Joined(released, pendingRelease), streamCreated);
      nextConnId := nextConnId + 1;
    }

    lemma ZeroIsNoConn()
      requires Inv()
      ensures 0 !in conns
    {
    }

    /** Hearing from its peer does not end a connection. */
    lemma HearStays(id: int, isPayload: bool)
      requires Inv() && id in conns
      ensures C.Usable(conns[id].config) && !C.Apply(conns[id], C.Heard(isPayload), clock).closed
    {
      hide ConnsKept, StreamsKept, Listed, QueueKept, Accounted, IdsKept, C.Awake;
      OneConnKept(conns, id, nextConnId);
    }

    lemma UpIsKnown(id: int)
      requires Inv() && id in conns
      ensures id < nextConnId
    {
    }

    lemma NextIsFree()
      requires Inv()
      ensures nextConnId !in conns && 0 < nextConnId <= ID_LIMIT
    {
    }

    lemma NextIdIsNew()
      requires Inv()
      ensures forall k | k in streams :: k.conn != nextConnId
    {
      hide ConnsKept, StreamsKept, Listed, QueueKept, Accounted, IdsKept;
      NoStreamsYet(streams, conns, nextConnId, clock);
    }

    /** A first CONNECT: a connection is made, and kept only if the application agrees. */
    method Admit(peerId: int, config: C.Config, hooked: bool, result: int) returns (id: int)
      requires Inv() && C.Usable(config) && operationDepth > 0
      modifies this
      ensures Inv() && streams == old(streams) && operationDepth == old(operationDepth) && clock == old(clock)
      ensures streamCreated == old(streamCreated)
      ensures if old(nextConnId) == ID_LIMIT then id == 0 && conns == old(conns) && nextConnId == old(nextConnId)
        else id == old(nextConnId) && nextConnId == id + 1 && id !in old(conns)
      ensures id != 0 && result == 0 ==>
        conns == old(conns)[id := C.Admitted(C.Met(id, peerId, config, hooked, clock), clock)]
      ensures id != 0 && result != 0 ==>
        && conns == old(conns) && old(pendingRelease) <= pendingRelease && ConnOwner(id) in pendingRelease
        && id in ends && ends[id] == Steps.TurnedDown(C.Met(id, peerId, config, hooked, clock), result)
    {
      hide Counted, Populated, Cascaded, Minus, C.Awake, C.Met, C.Admitted, C.Evolves, C.Usable;
      hide Steps.EndedOnce, Steps.TurnedDown;
      id := 0;
      if nextConnId == ID_LIMIT {
        return;
      }
      id := nextConnId;
      var c := C.Met(id, peerId, config, hooked, clock);
      C.BirthWakes(id, peerId, config, hooked, clock);
      Steps.BirthIsUnended(id, peerId, config, hooked, clock);
      NextIdIsNew();
      AddConn(c);
      if result == 0 {
        C.AdmissionEvolves(c, clock);
        PutConn(id, C.Admitted(c, clock));
      } else {
        Steps.TurningDownEnds(c, result);
        FinaliseConn(id, Steps.TurnedDown(c, result), C.REJECTED);
        TakenBack(old(conns), id, c);
        NothingToCascade(old(streams), streams, id, pendingRelease, finals, C.REJECTED);
      }
    }

    /** A peer's stream its application turned down. */
    method RejectStream(k: Key, check: int)
      requires Inv() && k in streams && operationDepth > 0 && streams[k].s.state == S.Open
      modifies this`streams, this`pendingBatch, this`pendingRelease, this`finals, this`counts
      modifies this`streamCount, this`streamClosed, this`timerNodeCount
      ensures Inv()
      ensures var s := S.Reject(old(streams)[k].s, Up(conns, k.conn), clock, check);
        if s.closed then streams == Minus(old(streams), k) && finals == old(finals)[old(streams)[k].serial := s]
        else streams == old(streams)[k := Entry(old(streams)[k].serial, s)] && finals == old(finals)
    {
      hide ConnsKept, StreamsKept, Listed, QueueKept, Accounted, IdsKept, Minus, Runs.Kept, S.Reject;
      OneStreamKept(streams, k, conns, clock, 0);
      Runs.RejectKeeps(streams[k].s, Up(conns, k.conn), clock, check);
      var s := S.Reject(streams[k].s, Up(conns, k.conn), clock, check);
      if s.closed {
        KeptIsFinalisedOnce(s, Up(conns, k.conn), clock);
        DropStream(k, s, 0, 0);
      } else {
        PutStream(k, s);
      }
    }

    /** A peer's stream whose first payload KCP would not take ends in the error state. */
    method FailStream(k: Key, check: int)
      requires Inv() && k in streams && operationDepth > 0
      modifies this`streams, this`pendingBatch, this`pendingRelease, this`finals, this`counts
      modifies this`streamCount, this`streamClosed, this`timerNodeCount
      ensures Inv() && streams == Minus(old(streams), k)
      ensures var e := old(streams)[k]; finals == old(finals)[e.serial := S.Fail(e.s, Up(conns, k.conn), clock, check)]
      ensures finals[old(streams)[k].serial].state == S.Failed
    {
      hide Populated, Minus, Runs.Kept, S.Fail;
      StreamIsKept(k);
      Runs.FailKeeps(streams[k].s, Up(conns, k.conn), clock, check);
      var s := S.Fail(streams[k].s, Up(conns, k.conn), clock, check);
      KeptIsFinalisedOnce(s, Up(conns, k.conn), clock);
      DropStream(k, s, 0, 0);
    }

    /** A connection's timer fires. */
    method FireConn(
      id: int, now: int, ghost checks: Key -> int, ghost wasConns: Conns, ghost wasStreams: Streams, ghost todo: set<Owned>)
      requires Inv() && operationDepth > 0 && now <= clock && id in conns && OfConn(id) in todo
      requires ConnsFired(wasConns, conns, todo, now, clock)
      requires StreamsFired(wasStreams, streams, wasConns, conns, todo, now, clock, checks)
      modifies this`conns, this`streams, this`pendingBatch, this`pendingRelease, this`connCount, this`connClosed
      modifies this`finals, this`ends, this`counts
      modifies this`streamCount, this`streamClosed, this`timerNodeCount
      ensures Inv() && C.Usable(old(conns)[id].config)
      ensures var d := C.Fire(old(conns)[id], now, clock);
        if d.closed
        then conns == Minus(old(conns), id)
             && Cascaded(
                  old(streams), streams, id, {}, pendingRelease, finals, Steps.Verdict(old(conns)[id], C.Firing(now)))
        else conns == old(conns)[id := d] && streams == old(streams)
      ensures ConnsFired(wasConns, conns, todo - {OfConn(id)}, now, clock)
      ensures StreamsFired(wasStreams, streams, wasConns, conns, todo - {OfConn(id)}, now, clock, checks)
    {
      hide ConnsKept, StreamsKept, Listed, QueueKept, Accounted, IdsKept, Cascaded, Minus, ConnsFired, StreamsFired, Up;
      hide C.Fire, C.Usable, Steps.Verdict;
      ConnFires(wasConns, conns, todo, id, now, clock);
      ConnStep(id, C.Firing(now));
      if C.Fire(old(conns)[id], now, clock).closed {
        StreamsAfterCascade(
          wasStreams, old(streams), streams, wasConns, old(conns), id, pendingRelease, finals,
          Steps.Verdict(old(conns)[id], C.Firing(now)), todo, now, clock, checks);
      } else {
        StreamsAfterPut(wasStreams, streams, wasConns, old(conns), id, conns[id], todo, now, clock, checks);
      }
    }

    /** A stream's timer fires. */
    method FireStream(
      k: Key, now: int, checks: Key -> int, ghost wasConns: Conns, ghost wasStreams: Streams, ghost todo: set<Owned>)
      requires Inv() && operationDepth > 0 && now <= clock && k in streams && OfStream(k) in todo
      requires forall id | id in wasConns :: !wasConns[id].closed
      requires ConnsFired(wasConns, conns, todo, now, clock)
      requires StreamsFired(wasStreams, streams, wasConns, conns, todo, now, clock, checks)
      modifies this`streams, this`pendingBatch, this`pendingRelease, this`finals, this`counts
      modifies this`streamCount, this`streamClosed, this`timerNodeCount
      ensures Inv()
      ensures var s := Runs.FireTimer(old(streams)[k].s, Up(conns, k.conn), now, clock, checks(k));
        streams == if s.closed then Minus(old(streams), k) else old(streams)[k := Entry(old(streams)[k].serial, s)]
      ensures ConnsFired(wasConns, conns, todo - {OfStream(k)}, now, clock)
      ensures StreamsFired(wasStreams, streams, wasConns, conns, todo - {OfStream(k)}, now, clock, checks)
    {
      hide ConnsKept, StreamsKept, Listed, QueueKept, Accounted, IdsKept, Minus, ConnsFired, StreamsFired, Up;
      hide Runs.FireTimer, Runs.Kept;
      NothingFires(wasConns, conns, todo, OfStream(k), now, clock);
      OneStreamKept(streams, k, conns, clock, 0);
      ConnFiredWas(wasConns, conns, todo, k.conn, now, clock);
      FiringKeepsUp(wasConns, conns, todo, k.conn, now, clock);
      StreamStep(k, Runs.Fire, now, checks(k));
      OneStreamFires(wasStreams, old(streams), streams, wasConns, conns, todo, k, now, clock, checks);
    }

    /** One due node fires, unless it has gone since. */
    method FireOne(
      n: Owned, now: int, checks: Key -> int, ghost wasConns: Conns, ghost wasStreams: Streams, ghost todo: set<Owned>)
      requires Inv() && operationDepth > 0 && now <= clock && n in todo
      requires forall id | id in wasConns :: !wasConns[id].closed
      requires ConnsFired(wasConns, conns, todo, now, clock)
      requires StreamsFired(wasStreams, streams, wasConns, conns, todo, now, clock, checks)
      modifies this`conns, this`streams, this`pendingBatch, this`pendingRelease, this`connCount, this`connClosed
      modifies this`finals, this`ends, this`counts
      modifies this`streamCount, this`streamClosed, this`timerNodeCount
      ensures Inv()
      ensures ConnsFired(wasConns, conns, todo - {n}, now, clock)
      ensures StreamsFired(wasStreams, streams, wasConns, conns, todo - {n}, now, clock, checks)
    {
      hide Counted, Populated, Cascaded, Minus, ConnsFired, StreamsFired, Up, Runs.FireTimer, C.Fire, C.Usable;
      match n {
        case OfConn(id) =>
          if id in conns {
            FireConn(id, now, checks, wasConns, wasStreams, todo);
          } else {
            NothingFires(wasConns, conns, todo, n, now, clock);
            StreamsAfterNothing(wasStreams, streams, wasConns, conns, todo, n, now, clock, checks);
          }
        case OfStream(k) =>
          if k in streams {
            FireStream(k, now, checks, wasConns, wasStreams, todo);
          } else {
            NothingFires(wasConns, conns, todo, n, now, clock);
            GoneBefore(wasStreams, streams, wasConns, conns, todo, k, now, clock, checks);
            StreamsAfterNothing(wasStreams, streams, wasConns, conns, todo, n, now, clock, checks);
          }
      }
    }

    /** An update: every node that is due when it starts fires once, in some order, and no other node does. */
    method Update(checks: Key -> int)
      requires Inv()
      modifies this
      ensures Inv() && clock == old(clock) && operationDepth == old(operationDepth) && nextConnId == old(nextConnId)
      ensures ConnsFired(old(conns), conns, {}, clock, clock) && SidesKept(old(conns), conns, old(nextConnId))
      ensures StreamsFired(old(streams), streams, old(conns), conns, {}, clock, clock, checks)
    {
      hide ConnsKept, StreamsKept, Listed, QueueKept, Accounted, IdsKept, ConnsFired, StreamsFired, DueNodes;
      var now := clock;
      var todo := DueNodes(conns, streams, now);
      FiringBegins(checks);
      OperationEnter();
      while todo != {}
        invariant Inv() && operationDepth == old(operationDepth) + 1 && clock == now == old(clock)
        invariant nextConnId == old(nextConnId)
        invariant ConnsFired(old(conns), conns, todo, now, clock)
        invariant StreamsFired(old(streams), streams, old(conns), conns, todo, now, clock, checks)
        decreases todo
      {
        var n :| n in todo;
        FireOne(n, now, checks, old(conns), old(streams), todo);
        todo := todo - {n};
      }
      SidesKeptByFiring(old(conns), conns, now, clock, nextConnId);
      OperationLeave();
    }

    lemma BatchStarts()
      requires Inv()
      ensures PartFlushed(streams, streams, conns, clock, pendingBatch)
    {
      hide ConnsKept, StreamsKept, Listed, QueueKept, Accounted, IdsKept;
      FlushStarts(streams, conns, clock, pendingBatch);
    }

    /** The first listed stream is there, its turn leaves it there, and the list gets shorter. */
    lemma BatchMoves(was: Streams)
      requires Inv() && PartFlushed(was, streams, conns, clock, pendingBatch) && pendingBatch != []
      ensures var k := pendingBatch[0]; k in streams && var s := FlushedStream(streams[k].s, Up(conns, k.conn), clock);
        && !s.closed && Relisted(pendingBatch, k, s.inBatch) == Without(pendingBatch, k)
        && |Without(pendingBatch, k)| < |pendingBatch|
        && PartFlushed(was, streams[k := Entry(streams[k].serial, s)], conns, clock, Without(pendingBatch, k))
    {
      hide ConnsKept, StreamsKept, QueueKept, Accounted, IdsKept, PartFlushed, FlushedStream, Runs.Kept, Attached;
      FlushMoves(was, streams, conns, clock, pendingBatch);
      OneStreamKept(streams, pendingBatch[0], conns, clock, 0);
      WithoutIsShorter(pendingBatch, pendingBatch[0]);
    }

    /** The engine's end of a batch: every listed stream is taken off the list and its work scheduled. */
    method FinishBatch()
      requires Inv()
      modifies this
      ensures Inv() && clock == old(clock) && conns == old(conns) && operationDepth == old(operationDepth)
      ensures nextConnId == old(nextConnId)
      ensures pendingBatch == [] && streams == Flushed(old(streams), conns, clock)
    {
      hide Counted, Populated, PartFlushed, Without, Relisted, Runs.Apply;
      OperationEnter();
      BatchStarts();
      while pendingBatch != []
        invariant Inv() && operationDepth == old(operationDepth) + 1 && clock == old(clock) && conns == old(conns)
        invariant nextConnId == old(nextConnId)
        invariant PartFlushed(old(streams), streams, conns, clock, pendingBatch)
        decreases |pendingBatch|
      {
        BatchMoves(old(streams));
        StreamStep(pendingBatch[0], Runs.EngineFinishBatch, clock, 0);
      }
      FlushEnds(old(streams), streams, conns, clock);
      OperationLeave();
    }

    /** One connection, whichever the map yields, is finalised. */
    method FinaliseAny()
      requires Inv() && operationDepth > 0 && connCount > 0
      modifies this`conns, this`streams, this`pendingBatch, this`pendingRelease, this`connCount, this`connClosed
      modifies this`finals, this`ends, this`counts
      modifies this`streamCount, this`streamClosed, this`timerNodeCount
      ensures Inv() && connCount == old(connCount) - 1
    {
      hide ConnsKept, StreamsKept, Listed, QueueKept, Accounted, IdsKept, Cascaded, Minus;
      ghost var some := Inhabited(conns.Keys);
      var id :| id in conns.Keys;
      OneFewer(conns, id);
      OneConnKept(conns, id, nextConnId);
      Steps.FinalisingIsSteady(conns[id], C.NORMAL);
      FinaliseConn(id, C.CloseInternal(conns[id], C.NORMAL), C.NORMAL);
    }

    /** Destruction finalises everything there ever was, and releases each thing once. */
    method Destroy()
      requires Inv() && operationDepth == 0
      modifies this
      ensures Inv() && operationDepth == 0 && conns == map[] && streams == map[]
      ensures connCreated == old(connCreated) && streamCreated == old(streamCreated)
      ensures old(released) <= released && Distinct(released) && |released| == connCreated + streamCreated
    {
      hide ConnsKept, StreamsKept, Listed, QueueKept, Accounted, IdsKept;
      OperationEnter();
      while connCount > 0
        invariant Inv() && operationDepth == 1
        invariant connCreated == old(connCreated) && streamCreated == old(streamCreated) && released == old(released)
        decreases connCount
      {
        FinaliseAny();
      }
      NoConnsNoStreams(streams, clock);
      OperationLeave();
      ReleasedOnce(released, conns, streams, nextConnId, streamCreated);
    }

    /** One command, if it applies; operations on connections and streams run inside a boundary of their own. */
    method Execute(c: Command)
      requires Inv()
      modifies this
      ensures Inv() && clock >= old(clock) && operationDepth >= 0
      ensures SidesKept(old(conns), conns, old(nextConnId)) && old(nextConnId) <= nextConnId
      ensures !c.Entering? && !c.Leaving? ==> operationDepth == old(operationDepth)
    {
      hide Counted, Populated, C.Apply, Runs.Apply, Runs.KcpBehaves, C.Prepare, C.Connect, S.New, S.Reject;
      hide Cascaded, Minus, ConnsFired, StreamsFired, Flushed;
      match c {
        case Entering => OperationEnter();
        case Leaving => OperationLeave();
        case Updating(checks) => Update(checks);
        case FinishingBatch => FinishBatch();
        case Waiting(time) => if clock <= time { Tick(time); }
        case _ =>
          OperationEnter();
          Perform(c);
          OperationLeave();
      }
    }

    /** The part of a command that runs inside its boundary. */
    method Perform(c: Command)
      requires Inv() && operationDepth > 0
      modifies this
      ensures Inv() && clock == old(clock) && operationDepth == old(operationDepth)
      ensures SidesKept(old(conns), conns, old(nextConnId)) && old(nextConnId) <= nextConnId
    {
      hide Counted, Populated, C.Apply, Runs.Apply, Runs.KcpBehaves, C.Prepare, C.Connect, S.New, S.Reject;
      hide Cascaded, Minus, ConnsFired, StreamsFired, Flushed, C.Usable, S.Acceptable;
      match c {
        case Connecting(config, hooked) =>
          if C.Unsigned(config) { var id := Connect(config, hooked); }
        case Admitting(peerId, config, hooked, result) =>
          if C.Usable(config) { var id := Admit(peerId, config, hooked, result); }
        case ConnDoes(id, op) =>
          if id in conns {
            SideStays(id, op);
            ConnStep(id, op);
            SidesKeptByPut(old(conns), id, C.Apply(old(conns)[id], op, clock), old(nextConnId));
          }
        case Creating(conn, config, hooked, made, check) =>
          var id := CreateStream(conn, config, hooked, made, check);
        case PeerOpening(k, config, hooked, check) =>
          if k !in streams && Up(conns, k.conn) && S.Acceptable(config) {
            OpenStream(k, config, false, hooked, check);
          }
        case Rejecting(k, check) =>
          if k in streams && streams[k].s.state == S.Open { RejectStream(k, check); }
        case Failing(k, check) =>
          if k in streams { FailStream(k, check); }
        case StreamDoes(k, op, now, check) =>
          if k in streams && now <= clock && Runs.KcpBehaves(streams[k].s, op) { StreamStep(k, op, now, check); }
        case _ =>
      }
    }

    /**
      Whatever the engine is made to do, at the end the counters are right, no
      live connection or stream is without its timer, the batch list is exact,
      and what was finalised was queued once, streams before their connection;
      outside every operation all of it has been released.
     */
    method Run(commands: seq<Command>)
      requires Inv()
      modifies this
      ensures Inv() && ReleaseOrder(released + pendingRelease) && Accounted(released + pendingRelease, finals, ends)
      ensures |released + pendingRelease| == connClosed + streamClosed
      ensures operationDepth == 0 ==> |released| == connClosed + streamClosed
      ensures forall k | k in streams && Up(conns, k.conn) :: StreamWaits(streams[k].s)
      ensures forall id | id in conns :: ConnWaits(conns[id])
    {
      for i := 0 to |commands|
        invariant Inv()
      {
        Execute(commands[i]);
      }
      assert operationDepth == 0 ==> pendingRelease == [];
      forall k | k in streams && Up(conns, k.conn) ensures StreamWaits(streams[k].s) {
        StreamWakes(k);
      }
      forall id | id in conns ensures ConnWaits(conns[id]) {
        ConnWakes(id);
      }
    }
  }
}

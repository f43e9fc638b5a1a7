/**
  What an engine does with a datagram (src/kcpmux_protocol.c,
  src/kcpmux_engine.c): parse it, route it to the connection and stream it
  names, and act on it.
 */
module Input {
  import Kcp
  import Wire
  import S = Stream
  import Runs = StreamRuns
  import C = Conn
  import Steps = ConnSteps
  import Ids = StreamIds
  import opened Address
  import opened Engine

  /** A peer's connection, as CONNECT names it. */
  datatype Peer = Peer(addr: Addr, id: int)

  datatype Status = Done | BadParameter | BadFormat | NotFound | WrongState | Incompatible | OutOfMemory | KcpFailed

  /** Codes for which the datagram was turned away before anything was done. */
  predicate Refused(s: Status) {
    s == BadFormat || s == NotFound || s == WrongState
  }

  /**
    What is decided elsewhere: whether there is memory, the verdict on a new
    connection, whether new streams are wanted at all and this one is, what KCP
    makes of the payload and whether it succeeds, and when it wants its next
    update.
   */
  datatype Facts = Facts(
    memory: bool, verdict: int, listens: bool, accepted: bool, hooked: bool, part: Kcp.Packet, ok: bool, check: int)

  /** KCP after a payload; a failing input takes in no data. */
  function Taken(k: Kcp.Session, f: Facts): Kcp.Session {
    Kcp.Input(k, if f.ok then f.part else f.part.(pushes := map[]))
  }

  lemma TakenBehaves(s: S.Stream, f: Facts)
    ensures Runs.KcpBehaves(s, Runs.Payload(Taken(s.kcp, f), f.ok))
  {
  }

  /**
    All that a datagram can change: the engine's maps, identifiers and last
    records, peers' addresses, passive connections by peer, the latest peer
    stream of each connection and, for the record, every peer stream created.
   */
  datatype World = World(
    conns: Conns, streams: Streams, next: int, created: int, batch: seq<Key>, finals: map<int, S.Stream>,
    ends: map<int, C.Conn>, address: map<int, Addr>, passive: map<Peer, int>, marks: map<int, Ids.Mark>,
    births: map<int, seq<Ids.Id>>)

  function MarkOf(w: World, id: int): Ids.Mark {
    if id in w.marks then w.marks[id] else Ids.UNMARKED
  }

  function BirthsOf(w: World, id: int): seq<Ids.Id> {
    if id in w.births then w.births[id] else []
  }

  /** Everything but connection `id` and its streams is the same. */
  ghost predicate Apart(conns: Conns, streams: Streams, conns': Conns, streams': Streams, id: int) {
    && (forall i | i != id :: (i in conns <==> i in conns') && (i in conns ==> conns[i] == conns'[i]))
    && (forall k: Key | k.conn != id :: (k in streams <==> k in streams') && (k in streams ==> streams[k] == streams'[k]))
  }

  /** What was done concerns the engine's maps alone. */
  ghost predicate TablesSame(a: World, b: World) {
    && b.next == a.next && b.created == a.created && b.address == a.address && b.passive == a.passive
    && b.marks == a.marks && b.births == a.births
  }

  /** The mark of a connection stays, or moves to the new identifier of a peer's stream that was created. */
  ghost predicate Recorded(conns: Conns, id: int, m: Ids.Mark, ids: seq<Ids.Id>, m': Ids.Mark, ids': seq<Ids.Id>) {
    || (m' == m && ids' == ids)
    || (id in conns && m'.initialized && Ids.IsNew(conns[id].isInitiator, m, m'.latest) && ids' == ids + [m'.latest])
  }

  /** Of the world only connection `id`, its streams and what is kept about it have changed. */
  ghost predicate Touches(a: World, b: World, id: int) {
    && Apart(a.conns, a.streams, b.conns, b.streams, id) && a.next <= b.next
    && b.marks - {id} == a.marks - {id} && b.births - {id} == a.births - {id} && b.address - {id} == a.address - {id}
    && (id in b.conns ==> if id in a.conns then b.conns[id].isInitiator == a.conns[id].isInitiator else a.next <= id)
    && (id in b.marks || id in b.births ==> id < b.next)
    && b.created - |BirthsOf(b, id)| == a.created - |BirthsOf(a, id)|
    && Recorded(a.conns, id, MarkOf(a, id), BirthsOf(a, id), MarkOf(b, id), BirthsOf(b, id))
  }

  /** A passive connection has the address of the peer it was made for. */
  ghost predicate PassiveKept(w: World) {
    forall p | p in w.passive ::
      w.passive[p] in w.address && w.address[w.passive[p]] == p.addr && w.passive[p] < w.next
  }

  /** Each live connection's mark is what the streams created on it, each new when its turn came, have made of it. */
  ghost predicate MarksKept(w: World) {
    && (forall id | id in w.conns ::
          var isInitiator := w.conns[id].isInitiator;
          && MarkOf(w, id) == Ids.Offers(isInitiator, Ids.UNMARKED, BirthsOf(w, id))
          && Ids.Renewed(isInitiator, BirthsOf(w, id)))
    && (forall id | id in w.marks || id in w.births :: id < w.next)
  }

  lemma UnmarkedIsFine(isInitiator: bool)
    ensures Ids.Offers(isInitiator, Ids.UNMARKED, []) == Ids.UNMARKED && Ids.Renewed(isInitiator, [])
  {
  }

  lemma KeptElsewhere<V>(m: map<int, V>, m': map<int, V>, id: int, i: int)
    requires m' - {id} == m - {id} && i != id
    ensures i in m' <==> i in m
    ensures i in m ==> m'[i] == m[i]
  {
    assert i in m' <==> i in m' - {id};
    assert i in m <==> i in m - {id};
    assert i in m ==> (m' - {id})[i] == (m - {id})[i];
  }

  /** Whatever touches one connection in this way keeps the marks right. */
  lemma MarksGoOn(a: World, b: World, id: int)
    requires MarksKept(a) && Touches(a, b, id)
    ensures MarksKept(b)
  {
    hide Ids.Renewed, Ids.Offers, Ids.IsNew;
    forall i | i in b.conns
      ensures var side := b.conns[i].isInitiator;
        MarkOf(b, i) == Ids.Offers(side, Ids.UNMARKED, BirthsOf(b, i)) && Ids.Renewed(side, BirthsOf(b, i))
    {
      UnmarkedIsFine(b.conns[i].isInitiator);
      if i != id {
        KeptElsewhere(a.marks, b.marks, id, i);
        KeptElsewhere(a.births, b.births, id, i);
      } else if id in a.conns && BirthsOf(b, id) != BirthsOf(a, id) {
        Ids.RenewedGrows(a.conns[id].isInitiator, BirthsOf(a, id), MarkOf(b, id).latest);
      }
    }
    forall i | i in b.marks || i in b.births ensures i < b.next {
      if i != id {
        KeptElsewhere(a.marks, b.marks, id, i);
        KeptElsewhere(a.births, b.births, id, i);
      }
    }
  }

  // What was done to a connection or a stream.

  /** The streams of connection `id` have gone, each finalised with `reason`; all others are as they were. */
  ghost predicate Swept(was: Streams, streams: Streams, id: int, finals: map<int, S.Stream>, reason: S.Reason) {
    && (forall k | k in streams :: k.conn != id && k in was && streams[k] == was[k])
    && (forall k | k in was && k !in streams ::
          k.conn == id && was[k].serial in finals && finals[was[k].serial] == S.CloseInternal(was[k].s, reason))
  }

  /** Exactly operation `op` was done to connection `id`. */
  ghost predicate ConnDid(a: World, b: World, id: int, op: C.Op, clock: int) {
    id in a.conns && C.Usable(a.conns[id].config) &&
    var d := C.Apply(a.conns[id], op, clock);
    if d.closed
    then b.conns == Minus(a.conns, id) && b.ends == a.ends[id := d]
         && Swept(a.streams, b.streams, id, b.finals, Steps.Verdict(a.conns[id], op))
    else b.conns == a.conns[id := d] && b.streams == a.streams
  }

  /** Exactly operation `op` was done to stream `k`. */
  ghost predicate StreamDid(a: World, b: World, k: Key, op: Runs.Op, up: bool, clock: int, check: int) {
    k in a.streams &&
    var s := Runs.Apply(a.streams[k].s, Runs.Step(op, up, clock, clock, check));
    if s.closed then b.streams == Minus(a.streams, k) && b.finals == a.finals[a.streams[k].serial := s]
    else b.streams == a.streams[k := Entry(a.streams[k].serial, s)] && b.finals == a.finals
  }

  /** The connection has noted that it heard from its peer. */
  ghost predicate Heard(a: World, b: World, id: int, isPayload: bool, clock: int) {
    && id in a.conns && C.Usable(a.conns[id].config)
    && b.conns == a.conns[id := C.NoteReceive(a.conns[id], clock, isPayload)]
  }

  predicate ForConn(m: Wire.Message) {
    m.ConnectAck? || m.Keepalive? || m.Close? || m.CloseAck?
  }

  /** What a connection is to do about a message for it. */
  function ConnAsk(m: Wire.Message): C.Op
    requires ForConn(m)
  {
    match m
    case ConnectAck(_, source, version, result, _) =>
      C.Answered(source, version == Wire.VERSION && result == 0,
                 if version != Wire.VERSION || result == 2 then C.VERSION else C.REJECTED)
    case Keepalive(_, _, _) => C.Heard(false)
    case Close(_, reason) => C.PeerClose(reason as int)
    case CloseAck(_, _) => C.PeerCloseAck
  }

  const CONN_KINDS: set<Kcp.byte> := {Wire.T_CONNECT_ACK, Wire.T_KEEPALIVE, Wire.T_CLOSE, Wire.T_CLOSE_ACK}

  /** A parsed message is of the type its first byte says. */
  ghost predicate OfKind(kind: Kcp.byte, parsed: Wire.Parsed) {
    parsed.Parsed? ==>
      match parsed.message
      case Connect(_, _, _) => kind == Wire.T_CONNECT
      case ConnectAck(_, _, _, _, _) => kind == Wire.T_CONNECT_ACK
      case Keepalive(_, _, _) => kind == Wire.T_KEEPALIVE
      case Close(_, _) => kind == Wire.T_CLOSE
      case CloseAck(_, _) => kind == Wire.T_CLOSE_ACK
      case StreamClose(_, _, _) => kind == Wire.T_STREAM_CLOSE
      case StreamCloseAck(_, _, _) => kind == Wire.T_STREAM_CLOSE_ACK
      case StreamPayload(_, _, _) => kind == Wire.T_STREAM_PAYLOAD
  }

  lemma DecodeKeepsKind(buf: Wire.Bytes)
    requires |buf| >= Wire.COMMON
    ensures OfKind(buf[0], Wire.Decode(buf))
    ensures Wire.Decode(buf).Parsed? && !Wire.Decode(buf).message.Connect? ==>
      Wire.Decode(buf).message.dest == Wire.Number(buf[1..9]) != 0
  {
    hide Wire.Number;
  }

  /** Whether a connection in this state takes the message at all. */
  function ConnTakes(state: C.State, kind: Kcp.byte, parsed: Wire.Parsed): Status {
    if kind == Wire.T_CONNECT_ACK && state != C.Connecting then WrongState
    else if kind == Wire.T_CLOSE_ACK && state != C.Closing then WrongState
    else if parsed == Wire.Malformed then BadFormat else Done
  }

  function StreamAsk(m: Wire.Message): Runs.Op
    requires m.StreamClose? || m.StreamCloseAck?
  {
    if m.StreamClose? then Runs.PeerClose(m.reason as int) else Runs.PeerCloseAck
  }

  /** Stream identifiers on the wire are 32-bit numbers. */
  predicate Numbered(m: Wire.Message) {
    m.StreamPayload? || m.StreamClose? || m.StreamCloseAck? ==> 0 <= m.stream < Ids.RING
  }

  /** Whether there is a stream for the message, in a state to take it. */
  function StreamTakes(streams: Streams, id: int, parsed: Wire.Parsed): Status
    requires parsed.Parsed? ==> (parsed.message.StreamClose? || parsed.message.StreamCloseAck?) && Numbered(parsed.message)
  {
    if parsed == Wire.Malformed then BadFormat
    else
      var k := Key(id, parsed.message.stream);
      if parsed.message.StreamClose? then if k in streams then Done else NotFound
      else if k in streams && streams[k].s.state == S.Closing && streams[k].s.phase == S.WaitAck then Done
      else WrongState
  }

  // What datagrams come to.

  /** A first CONNECT of the right version: a connection is made, and kept only if the application agrees. */
  ghost predicate Introduced(
    a: World, b: World, peer: Peer, id: int, status: Status, f: Facts, config: C.Config, clock: int)
    requires C.Usable(config)
  {
    if a.next == ID_LIMIT then status == OutOfMemory && b == a
    else if !f.memory then
      status == OutOfMemory && a.next <= b.next <= a.next + 1 && b == a.(next := b.next)
    else
      && status == Done && id == a.next && b.next == id + 1 && id !in a.conns && b.streams == a.streams
      && b.created == a.created && b.address == a.address[id := peer.addr] && b.passive == a.passive[peer := id]
      && b.marks == a.marks[id := Ids.UNMARKED] && b.births == a.births[id := []]
      && var c := C.Met(id, peer.id, config, f.hooked, clock);
         if f.verdict == 0 then b.conns == a.conns[id := C.Admitted(c, clock)]
         else b.conns == a.conns && id in b.ends && b.ends[id] == Steps.TurnedDown(c, f.verdict)
  }

  /** A CONNECT that was not refused. */
  ghost predicate ConnectMet(
    a: World, b: World, peer: Peer, version: Kcp.byte, id: int, status: Status, f: Facts, config: C.Config, clock: int)
    requires C.Usable(config)
  {
    if peer in a.passive && a.passive[peer] in a.conns then
      && id == a.passive[peer] && TablesSame(a, b)
      && if version != Wire.VERSION then status == Incompatible && ConnDid(a, b, id, C.Reasked(2), clock)
         else status == Done && a.conns[id].state == C.Connected && ConnDid(a, b, id, C.Reasked(0), clock)
    else if version != Wire.VERSION then status == Incompatible && b == a
    else Introduced(a, b, peer, id, status, f, config, clock)
  }

  /** What became of a stream that the peer's payload created as `s`, with serial number `serial`. */
  ghost predicate Welcomed(
    a: World, b: World, k: Key, s: S.Stream, serial: int, data: Wire.Bytes, status: Status, f: Facts, clock: int)
  {
    if !f.accepted then
      var t := S.Reject(s, true, clock, f.check);
      && status == Done && b.conns == a.conns
      && if t.closed then b.streams == a.streams && b.finals == a.finals[serial := t]
         else b.streams == a.streams[k := Entry(serial, t)]
    else if data != [] && f.ok then
      && status == Done && Heard(a, b, k.conn, true, clock)
      && b.streams == a.streams[k := Entry(serial, S.HandlePayload(s, Taken(s.kcp, f), true, clock))]
    else
      var t := if data == [] then s else S.HandlePayload(s, Taken(s.kcp, f), false, clock);
      && status == (if data == [] then BadParameter else KcpFailed) && b.conns == a.conns && b.streams == a.streams
      && b.finals == a.finals[serial := S.Fail(t, true, clock, f.check)]
  }

  /** A payload that was not refused went to its stream, or created it. */
  ghost predicate Paid(
    a: World, b: World, k: Key, data: Wire.Bytes, status: Status, f: Facts, config: S.Config, clock: int)
  {
    if k in a.streams then
      if data == [] then status == BadParameter && b == a
      else
        && StreamDid(a, b, k, Runs.Payload(Taken(a.streams[k].s.kcp, f), f.ok), true, clock, 0) && TablesSame(a, b)
        && if f.ok then status == Done && Heard(a, b, k.conn, true, clock) else status == KcpFailed && b.conns == a.conns
    else
      && f.listens && k.conn in a.conns && Ids.IsNew(a.conns[k.conn].isInitiator, MarkOf(a, k.conn), k.id)
      && if !f.memory then status == OutOfMemory && b == a
         else
           && b.next == a.next && b.created == a.created + 1 && b.address == a.address && b.passive == a.passive
           && b.marks == a.marks[k.conn := Ids.Mark(true, k.id)]
           && b.births == a.births[k.conn := BirthsOf(a, k.conn) + [k.id]]
           && Welcomed(
                a, b, k, S.New(k.id, false, config, f.hooked, true, clock, f.check), a.created, data, status, f, clock)
  }

  /** What a datagram that was acted upon came to, by message. */
  ghost predicate Effect(
    a: World, b: World, m: Wire.Message, from: Addr, id: int, status: Status, f: Facts, config: C.Config,
    streamConfig: S.Config, clock: int)
    requires C.Usable(config)
  {
    Numbered(m) &&
    match m
    case Connect(source, version, _) => ConnectMet(a, b, Peer(from, source), version, id, status, f, config, clock)
    case StreamClose(dest, stream, _) =>
      && id == dest && status == Done && TablesSame(a, b) && Heard(a, b, id, false, clock)
      && StreamDid(a, b, Key(id, stream), StreamAsk(m), Up(b.conns, id), clock, f.check)
    case StreamCloseAck(dest, stream, _) =>
      && id == dest && status == Done && TablesSame(a, b) && Heard(a, b, id, false, clock)
      && StreamDid(a, b, Key(id, stream), StreamAsk(m), Up(b.conns, id), clock, f.check)
    case StreamPayload(dest, stream, data) => id == dest && Paid(a, b, Key(id, stream), data, status, f, streamConfig, clock)
    case _ => id == m.dest && status == Done && TablesSame(a, b) && ConnDid(a, b, id, ConnAsk(m), clock)
  }

  // How the pieces fit.

  lemma SweptByCascade(
    streams: Streams, streams': Streams, id: int, queue: seq<Owner>, finals: map<int, S.Stream>, reason: S.Reason)
    requires Cascaded(streams, streams', id, {}, queue, finals, reason)
    ensures Swept(streams, streams', id, finals, reason)
  {
    hide S.CloseInternal;
    assert forall k | k in streams' && k.conn == id :: k in Own(streams', id);
  }

  lemma ApartBySweep(
    conns: Conns, streams: Streams, streams': Streams, id: int, finals: map<int, S.Stream>, reason: S.Reason)
    requires Swept(streams, streams', id, finals, reason)
    ensures Apart(conns, streams, Minus(conns, id), streams', id)
  {
    hide S.CloseInternal;
  }

  lemma ApartByPut(conns: Conns, streams: Streams, id: int, d: C.Conn)
    ensures Apart(conns, streams, conns[id := d], streams, id)
  {
  }

  lemma ApartByStream(conns: Conns, streams: Streams, k: Key, e: Entry)
    ensures Apart(conns, streams, conns, Minus(streams, k), k.conn)
    ensures Apart(conns, streams, conns, streams[k := e], k.conn)
  {
  }

  lemma ApartTwice(c0: Conns, s0: Streams, c1: Conns, s1: Streams, c2: Conns, s2: Streams, id: int)
    requires Apart(c0, s0, c1, s1, id) && Apart(c1, s1, c2, s2, id)
    ensures Apart(c0, s0, c2, s2, id)
  {
  }

  /** The world without stream `k`. */
  function Lacking(w: World, k: Key): World {
    w.(streams := Minus(w.streams, k))
  }

  lemma PutBack(streams: Streams, k: Key, e: Entry)
    ensures Minus(streams, k)[k := e] == streams[k := e] && Minus(streams[k := e], k) == Minus(streams, k)
  {
  }

  lemma RejectionWelcomed(a: World, b: World, k: Key, data: Wire.Bytes, f: Facts, clock: int)
    requires !f.accepted && k in a.streams && b.conns == a.conns
    requires var e := a.streams[k]; var t := S.Reject(e.s, true, clock, f.check);
      if t.closed then b.streams == Minus(a.streams, k) && b.finals == a.finals[e.serial := t]
      else b.streams == a.streams[k := Entry(e.serial, t)]
    ensures Welcomed(Lacking(a, k), b, k, a.streams[k].s, a.streams[k].serial, data, Done, f, clock)
  {
    hide S.Reject, Minus;
    var e := a.streams[k];
    PutBack(a.streams, k, Entry(e.serial, S.Reject(e.s, true, clock, f.check)));
  }

  lemma PayloadWelcomed(a: World, b: World, k: Key, data: Wire.Bytes, f: Facts, clock: int)
    requires f.accepted && data != [] && f.ok && k in a.streams && !a.streams[k].s.closed
    requires StreamDid(a, b, k, Runs.Payload(Taken(a.streams[k].s.kcp, f), f.ok), true, clock, 0)
    requires Heard(a, b, k.conn, true, clock)
    ensures Welcomed(Lacking(a, k), b, k, a.streams[k].s, a.streams[k].serial, data, Done, f, clock)
  {
    hide Taken, S.HandlePayload, Minus;
    var e := a.streams[k];
    var t := S.HandlePayload(e.s, Taken(e.s.kcp, f), true, clock);
    PayloadKeepsOpen(e.s, Taken(e.s.kcp, f), true, clock);
    PutBack(a.streams, k, Entry(e.serial, t));
  }

  /** A payload never finalises its stream. */
  lemma PayloadLeavesStream(a: World, b: World, k: Key, data: Wire.Bytes, f: Facts, up: bool, clock: int)
    requires k in a.streams && !a.streams[k].s.closed
    requires if data == [] then b == a
      else StreamDid(a, b, k, Runs.Payload(Taken(a.streams[k].s.kcp, f), f.ok), up, clock, 0)
    ensures k in b.streams && b.streams[k].serial == a.streams[k].serial && Minus(b.streams, k) == Minus(a.streams, k)
    ensures b.streams[k].s ==
      if data == [] then a.streams[k].s else S.HandlePayload(a.streams[k].s, Taken(a.streams[k].s.kcp, f), f.ok, clock)
    ensures b.finals == a.finals
  {
    hide Taken, S.HandlePayload, Minus;
    var e := a.streams[k];
    var t := S.HandlePayload(e.s, Taken(e.s.kcp, f), f.ok, clock);
    PayloadKeepsOpen(e.s, Taken(e.s.kcp, f), f.ok, clock);
    PutBack(a.streams, k, Entry(e.serial, t));
  }

  lemma FailureWelcomed(a: World, b: World, c: World, k: Key, data: Wire.Bytes, status: Status, f: Facts, clock: int)
    requires f.accepted && k in a.streams && k in b.streams && b.conns == a.conns && b.finals == a.finals
    requires !(data != [] && f.ok) && status == if data == [] then BadParameter else KcpFailed
    requires b.streams[k].serial == a.streams[k].serial && Minus(b.streams, k) == Minus(a.streams, k)
    requires b.streams[k].s ==
      if data == [] then a.streams[k].s else S.HandlePayload(a.streams[k].s, Taken(a.streams[k].s.kcp, f), f.ok, clock)
    requires c.conns == b.conns && c.streams == Minus(b.streams, k)
    requires c.finals == b.finals[b.streams[k].serial := S.Fail(b.streams[k].s, true, clock, f.check)]
    ensures Welcomed(Lacking(a, k), c, k, a.streams[k].s, a.streams[k].serial, data, status, f, clock)
  {
    hide S.HandlePayload, S.Fail, Taken, Minus;
  }

  lemma TakenOut(streams: Streams, k: Key, e: Entry)
    requires k !in streams
    ensures Minus(streams[k := e], k) == streams
  {
  }

  lemma PutThenDrop<V>(m: map<int, V>, id: int, v: V)
    ensures m[id := v] - {id} == m - {id}
  {
  }

  /** Creation and welcome together. */
  lemma PaidByWelcome(
    a: World, b: World, c: World, k: Key, data: Wire.Bytes, status: Status, f: Facts, config: S.Config, clock: int)
    requires k !in a.streams && f.listens && f.memory && k.conn in a.conns
    requires Ids.IsNew(a.conns[k.conn].isInitiator, MarkOf(a, k.conn), k.id)
    requires var s := S.New(k.id, false, config, f.hooked, true, clock, f.check);
      && b == a.(
           streams := a.streams[k := Entry(a.created, s)], created := a.created + 1,
           marks := a.marks[k.conn := Ids.Mark(true, k.id)], births := a.births[k.conn := BirthsOf(a, k.conn) + [k.id]])
      && TablesSame(b, c) && Welcomed(Lacking(b, k), c, k, s, a.created, data, status, f, clock)
    ensures Paid(a, c, k, data, status, f, config, clock)
  {
    hide S.Reject, S.Fail, S.HandlePayload, Taken, S.New, Ids.IsNew, Minus;
    TakenOut(a.streams, k, b.streams[k]);
  }

  /** An identifier may be spent on nothing. */
  lemma NextMoves(a: World, b: World)
    requires MarksKept(a) && PassiveKept(a) && b == a.(next := b.next) && a.next <= b.next
    ensures Touches(a, b, 0) && MarksKept(b) && PassiveKept(b)
  {
    TouchesNothing(a, 0);
    MarksGoOn(a, b, 0);
  }

  /** A new connection, kept or not. */
  lemma NewcomerTouches(a: World, b: World, peer: Peer, id: int)
    requires MarksKept(a) && PassiveKept(a) && id == a.next && b.next == id + 1 && id !in a.conns
    requires b.conns == a.conns || (id in b.conns && b.conns == a.conns[id := b.conns[id]])
    requires b.streams == a.streams && b.created == a.created
    requires b.address == a.address[id := peer.addr] && b.passive == a.passive[peer := id]
    requires b.marks == a.marks[id := Ids.UNMARKED] && b.births == a.births[id := []]
    ensures Touches(a, b, id) && MarksKept(b) && PassiveKept(b)
  {
    PutThenDrop(a.marks, id, Ids.UNMARKED);
    PutThenDrop(a.births, id, []);
    PutThenDrop(a.address, id, peer.addr);
    MarksGoOn(a, b, id);
  }

  /** What leaves the sides of connections alone, and may give a new one an address. */
  lemma OrderBySides(a: World, b: World, id: int, to: Addr)
    requires MarksKept(a) && PassiveKept(a) && SidesKept(a.conns, b.conns, a.next) && a.next <= b.next
    requires b.marks == a.marks && b.births == a.births && b.passive == a.passive
    requires b.address == a.address || (a.next <= id && b.address == a.address[id := to])
    ensures MarksKept(b) && PassiveKept(b)
  {
    hide Ids.Renewed, Ids.Offers;
    forall i | i in b.conns && i !in a.conns
      ensures MarkOf(b, i) == Ids.Offers(b.conns[i].isInitiator, Ids.UNMARKED, BirthsOf(b, i))
      ensures Ids.Renewed(b.conns[i].isInitiator, BirthsOf(b, i))
    {
      UnmarkedIsFine(b.conns[i].isInitiator);
    }
  }

  /** Between two streams on a connection with the same identifier the mark has travelled more than half the ring. */
  ghost predicate Farther(isInitiator: bool, ids: seq<Ids.Id>, i: int, j: int)
    requires 0 <= i < j < |ids|
  {
    Ids.Travel(isInitiator, Ids.Mark(true, ids[i]), ids[i + 1..j]) > Ids.HALF
  }

  /** What may happen at an endpoint. */
  datatype Event =
    | Datagram(buf: Wire.Bytes, from: Addr, facts: Facts)
    | Dialling(to: Addr, config: C.Config, hooked: bool)
    | Doing(command: Command)

  lemma NeverTwice(w: World, id: int, i: int, j: int)
    requires MarksKept(w) && id in w.conns && 0 <= i < j < |BirthsOf(w, id)| && BirthsOf(w, id)[i] == BirthsOf(w, id)[j]
    ensures Farther(w.conns[id].isInitiator, BirthsOf(w, id), i, j)
  {
    Ids.NeverTwice(w.conns[id].isInitiator, BirthsOf(w, id), i, j);
  }

  lemma GoneIsGone(conns: Conns, id: int)
    ensures id !in Minus(conns, id)
  {
  }

  /** Nothing touched, or only what was done to the engine's maps. */
  lemma TouchesMaps(a: World, b: World, id: int)
    requires TablesSame(a, b) && Apart(a.conns, a.streams, b.conns, b.streams, id) && MarksKept(a)
    requires id in b.conns ==> id in a.conns && b.conns[id].isInitiator == a.conns[id].isInitiator
    ensures Touches(a, b, id)
  {
    hide Apart;
  }

  /** One thing after another, of which the second leaves the tables alone. */
  lemma TouchesOn(a: World, b: World, c: World, id: int)
    requires Touches(a, b, id) && Touches(b, c, id) && TablesSame(b, c) && (id in c.conns ==> id in b.conns)
    ensures Touches(a, c, id)
  {
    hide Apart, Ids.IsNew;
    ApartTwice(a.conns, a.streams, b.conns, b.streams, c.conns, c.streams, id);
  }

  lemma TouchesNothing(w: World, id: int)
    requires MarksKept(w)
    ensures Touches(w, w, id)
  {
  }

  lemma PayloadKeepsOpen(s: S.Stream, kcp: Kcp.Session, ok: bool, clock: int)
    ensures S.HandlePayload(s, kcp, ok, clock).closed == s.closed
  {
    hide S.Schedule;
    Runs.AccumulateFrame(s.(kcp := kcp), clock);
    Runs.ScheduleFrame(s.(kcp := kcp), clock);
    Runs.ScheduleFrame(s.(kcp := kcp, pending := s.pending + 1, inBatch := false), clock);
  }

  lemma NewIsOpen(id: int, config: S.Config, hooked: bool, clock: int, check: int)
    ensures var s := S.New(id, false, config, hooked, true, clock, check); s.state == S.Open && !s.closed
  {
  }

  lemma IsNewOwns(isInitiator: bool, m: Ids.Mark, id: Ids.Id)
    ensures Ids.IsNew(isInitiator, m, id) ==> id != 0 && !Ids.Owns(isInitiator, id)
  {
  }

  lemma TooShortToDecode(buf: Wire.Bytes)
    requires |buf| < Wire.COMMON
    ensures Wire.Decode(buf) == Wire.Malformed
  {
  }

  lemma ParsedSource(buf: Wire.Bytes)
    requires Wire.Decode(buf).Parsed? && Wire.Decode(buf).message.Connect?
    ensures Wire.Decode(buf).message.source != 0
  {
    hide Wire.Number;
  }

  lemma ParsedStream(buf: Wire.Bytes)
    ensures Wire.Decode(buf).Parsed? ==> Numbered(Wire.Decode(buf).message)
  {
    hide Wire.Number;
    if |buf| >= Wire.COMMON + 4 {
      StreamNumberFits(buf[9..][..4]);
    }
  }

  lemma StreamNumberFits(bs: Wire.Bytes)
    requires |bs| == 4
    ensures 0 <= Wire.Number(bs) < Ids.RING
  {
    Wire.BigEndianOfNumber(bs);
    assert Wire.Pow256(4) == 256 * (256 * (256 * (256 * Wire.Pow256(0))));
  }

  // What datagrams are turned away, and with which status.

  /** A status that refuses exactly if there is an objection, and then for that reason. */
  predicate Turned(status: Status, objection: Status) {
    if objection == Done then !Refused(status) else status == objection && Refused(status)
  }

  /** The destination is a connection of the sender. */
  predicate Reaches(w: World, from: Addr, dest: int) {
    dest in w.conns && dest in w.address && w.address[dest] == from
  }

  /** Why a payload on a connection is turned away; Done if it is not. */
  function PayloadObjection(w: World, k: Key, data: Wire.Bytes, listens: bool): Status
    requires k.conn in w.conns
  {
    var side := w.conns[k.conn].isInitiator;
    if w.conns[k.conn].state != C.Connected then WrongState
    else if k in w.streams then if data != [] && !S.KcpActive(w.streams[k].s) then WrongState else Done
    else if k.id == 0 || (k.id % 2 == 1) == side then BadFormat
    else if listens && Ids.IsNew(side, MarkOf(w, k.conn), k.id) then Done else NotFound
  }

  /** A CONNECT is only turned away by a connection that its peer has already and that is not connected. */
  function ConnectObjection(w: World, peer: Peer, version: Kcp.byte): Status {
    if peer in w.passive && w.passive[peer] in w.conns && version == Wire.VERSION
       && w.conns[w.passive[peer]].state != C.Connected then WrongState else Done
  }

  /** Why a message for a connection of the sender is turned away; Done if it is not. */
  function RoutedObjection(w: World, m: Wire.Message, listens: bool): Status
    requires Numbered(m) && !m.Connect? && m.dest in w.conns
  {
    match m
    case ConnectAck(dest, _, _, _, _) => if w.conns[dest].state == C.Connecting then Done else WrongState
    case CloseAck(dest, _) => if w.conns[dest].state == C.Closing then Done else WrongState
    case StreamClose(dest, stream, _) => if Key(dest, stream) in w.streams then Done else NotFound
    case StreamCloseAck(dest, stream, _) =>
      var k := Key(dest, stream);
      if k in w.streams && w.streams[k].s.state == S.Closing && w.streams[k].s.phase == S.WaitAck then Done else WrongState
    case StreamPayload(dest, stream, data) => PayloadObjection(w, Key(dest, stream), data, listens)
    case _ => Done
  }

  /** Why a message is turned away; Done if it is not. */
  function MessageObjection(w: World, m: Wire.Message, from: Addr, listens: bool): Status
    requires Numbered(m)
  {
    if m.Connect? then ConnectObjection(w, Peer(from, m.source), m.version)
    else if !Reaches(w, from, m.dest) then NotFound
    else RoutedObjection(w, m, listens)
  }

  /** What is wrong with a malformed message of a type to a connection in a state: some look at the state first. */
  function KindObjection(state: C.State, kind: Kcp.byte): Status {
    if || (kind == Wire.T_CONNECT_ACK && state != C.Connecting)
       || (kind == Wire.T_CLOSE_ACK && state != C.Closing)
       || (kind == Wire.T_STREAM_PAYLOAD && state != C.Connected) then WrongState
    else BadFormat
  }

  /** The status for bytes that are no message. */
  function FormatObjection(w: World, buf: Wire.Bytes, from: Addr): Status {
    if |buf| < Wire.COMMON || buf[0] == Wire.T_CONNECT || Wire.Number(buf[1..9]) == 0 then BadFormat
    else
      var dest := Wire.Number(buf[1..9]);
      if !Reaches(w, from, dest) then NotFound else KindObjection(w.conns[dest].state, buf[0])
  }

  /** Why a datagram is turned away; Done if it is acted upon. */
  ghost function Objection(w: World, buf: Wire.Bytes, from: Addr, listens: bool): Status {
    match Wire.Decode(buf)
    case Malformed => FormatObjection(w, buf, from)
    case Parsed(m) => ParsedStream(buf); MessageObjection(w, m, from, listens)
  }

  class Endpoint {
    const engine: Engine
    const connConfig: C.Config
    const streamConfig: S.Config
    var address: map<int, Addr>
    var passive: map<Peer, int>
    var marks: map<int, Ids.Mark>
    ghost var births: map<int, seq<Ids.Id>>

    constructor (engine: Engine, connConfig: C.Config, streamConfig: S.Config)
      requires engine.conns == map[]
      ensures this.engine == engine && this.connConfig == connConfig && this.streamConfig == streamConfig && InOrder()
    {
      this.engine, this.connConfig, this.streamConfig := engine, connConfig, streamConfig;
      address, passive, marks, births := map[], map[], map[], map[];
    }

    ghost function View(): World
      reads this, engine
    {
      World(
        engine.conns, engine.streams, engine.nextConnId, engine.streamCreated, engine.pendingBatch, engine.finals,
        engine.ends, address, passive, marks, births)
    }

    ghost predicate InOrder()
      reads this, engine
    {
      PassiveKept(View()) && MarksKept(View())
    }

    ghost predicate Valid()
      reads this, engine
    {
      engine.Inv() && engine.operationDepth > 0 && C.Usable(connConfig) && S.Acceptable(streamConfig)
    }

    /** What all handlers promise, with `id` the one connection they may touch. */
    twostate predicate Handled(status: Status, id: int)
      reads this, engine
    {
      && Valid() && engine.clock == old(engine.clock) && engine.operationDepth == old(engine.operationDepth)
      && Touches(old(View()), View(), id)
      && (Refused(status) ==> View() == old(View()) && engine.pendingRelease == old(engine.pendingRelease))
    }

    /** The connection a datagram from `from` names. */
    predicate Routed(from: Addr, id: int)
      reads this, engine
    {
      id in engine.conns && id in address && address[id] == from
    }

    method ConnEvent(id: int, op: C.Op)
      requires Valid() && id in engine.conns && MarksKept(View())
      modifies engine
      ensures Handled(Done, id) && TablesSame(old(View()), View())
      ensures ConnDid(old(View()), View(), id, op, engine.clock)
    {
      hide Engine.Counted, Engine.Populated, Cascaded, Minus, C.Apply, C.Usable, S.Acceptable, Apart, Steps.Verdict;
      hide Touches, Swept, MarksKept;
      engine.SideStays(id, op);
      engine.ConnStep(id, op);
      if C.Apply(old(engine.conns)[id], op, engine.clock).closed {
        ghost var reason := Steps.Verdict(old(engine.conns)[id], op);
        SweptByCascade(old(engine.streams), engine.streams, id, engine.pendingRelease, engine.finals, reason);
        ApartBySweep(old(engine.conns), old(engine.streams), engine.streams, id, engine.finals, reason);
        GoneIsGone(old(engine.conns), id);
      } else {
        ApartByPut(old(engine.conns), old(engine.streams), id, engine.conns[id]);
      }
      TouchesMaps(old(View()), View(), id);
    }

    method StreamEvent(k: Key, op: Runs.Op, check: int)
      requires Valid() && k in engine.streams && Runs.KcpBehaves(engine.streams[k].s, op) && MarksKept(View())
      modifies engine
      ensures Handled(Done, k.conn) && TablesSame(old(View()), View()) && engine.conns == old(engine.conns)
      ensures StreamDid(old(View()), View(), k, op, Up(engine.conns, k.conn), engine.clock, check)
    {
      hide Engine.Counted, Engine.Populated, Minus, Runs.Apply, Runs.KcpBehaves, C.Usable, S.Acceptable, Apart;
      hide Touches, MarksKept;
      var st := Runs.Step(op, Up(engine.conns, k.conn), engine.clock, engine.clock, check);
      ghost var s := Runs.Apply(engine.streams[k].s, st);
      engine.StreamStep(k, op, engine.clock, check);
      ApartByStream(engine.conns, old(engine.streams), k, Entry(old(engine.streams)[k].serial, s));
      TouchesMaps(old(View()), View(), k.conn);
    }

    method Hear(id: int, isPayload: bool)
      requires Valid() && id in engine.conns && MarksKept(View())
      modifies engine
      ensures Handled(Done, id) && TablesSame(old(View()), View())
      ensures engine.streams == old(engine.streams) && engine.finals == old(engine.finals)
      ensures Heard(old(View()), View(), id, isPayload, engine.clock)
    {
      hide Engine.Counted, Engine.Populated, Minus, C.Usable, S.Acceptable, Apart, Cascaded, Touches, MarksKept;
      engine.HearStays(id, isPayload);
      engine.SideStays(id, C.Heard(isPayload));
      engine.ConnStep(id, C.Heard(isPayload));
      ApartByPut(old(engine.conns), old(engine.streams), id, engine.conns[id]);
      TouchesMaps(old(View()), View(), id);
    }

    /** A message has been heard from the peer before it is acted upon. */
    method HeardThen(k: Key, op: Runs.Op, check: int)
      requires Valid() && k in engine.streams && k.conn in engine.conns && (op.PeerClose? || op.PeerCloseAck?)
      requires MarksKept(View())
      modifies engine
      ensures Handled(Done, k.conn) && TablesSame(old(View()), View())
      ensures Heard(old(View()), View(), k.conn, false, engine.clock)
      ensures StreamDid(old(View()), View(), k, op, Up(engine.conns, k.conn), engine.clock, check)
    {
      hide Engine.Counted, Engine.Populated, Minus, Runs.Apply, C.Usable, S.Acceptable, Touches, MarksKept;
      ghost var a := View();
      Hear(k.conn, false);
      ghost var b := View();
      MarksGoOn(a, b, k.conn);
      StreamEvent(k, op, check);
      TouchesOn(a, b, View(), k.conn);
    }

    /** CONNECT_ACK, KEEPALIVE, CLOSE and CLOSE_ACK, for the connection they were routed to. */
    method HandleConnMessage(id: int, kind: Kcp.byte, parsed: Wire.Parsed) returns (status: Status)
      requires Valid() && id in engine.conns && OfKind(kind, parsed) && MarksKept(View())
      modifies engine
      ensures Handled(status, id) && TablesSame(old(View()), View())
      ensures status == if kind in CONN_KINDS then ConnTakes(old(engine.conns)[id].state, kind, parsed) else BadFormat
      ensures status == Done ==>
        && parsed.Parsed? && ForConn(parsed.message)
        && ConnDid(old(View()), View(), id, ConnAsk(parsed.message), engine.clock)
    {
      hide Engine.Counted, Engine.Populated, C.Usable, S.Acceptable, ConnDid, Touches, MarksKept;
      TouchesNothing(View(), id);
      if kind !in CONN_KINDS {
        return BadFormat;
      }
      if kind == Wire.T_CONNECT_ACK && engine.conns[id].state != C.Connecting {
        return WrongState;
      }
      if kind == Wire.T_CLOSE_ACK && engine.conns[id].state != C.Closing {
        return WrongState;
      }
      if parsed == Wire.Malformed {
        return BadFormat;
      }
      match parsed.message {
        case ConnectAck(_, source, version, result, _) =>
          var ok := version == Wire.VERSION && result == 0;
          var why := if version != Wire.VERSION || result == 2 then C.VERSION else C.REJECTED;
          ConnEvent(id, C.Answered(source, ok, why));
        case Keepalive(_, _, _) => ConnEvent(id, C.Heard(false));
        case Close(_, reason) => ConnEvent(id, C.PeerClose(reason as int));
        case CloseAck(_, _) => ConnEvent(id, C.PeerCloseAck);
      }
      return Done;
    }

    /** STREAM_CLOSE and STREAM_CLOSE_ACK. */
    method HandleStreamClose(id: int, parsed: Wire.Parsed, check: int) returns (status: Status)
      requires Valid() && id in engine.conns && MarksKept(View())
      requires parsed.Parsed? ==>
        (parsed.message.StreamClose? || parsed.message.StreamCloseAck?) && Numbered(parsed.message)
      modifies engine
      ensures Handled(status, id) && TablesSame(old(View()), View())
      ensures status == StreamTakes(old(engine.streams), id, parsed)
      ensures status == Done ==>
        && Heard(old(View()), View(), id, false, engine.clock)
        && StreamDid(old(View()), View(), Key(id, parsed.message.stream), StreamAsk(parsed.message),
                     Up(engine.conns, id), engine.clock, check)
    {
      hide Engine.Counted, Engine.Populated, C.Usable, S.Acceptable, StreamDid, Touches, MarksKept;
      TouchesNothing(View(), id);
      if parsed == Wire.Malformed {
        return BadFormat;
      }
      match parsed.message {
        case StreamClose(_, stream, reason) =>
          var k := Key(id, stream);
          if k !in engine.streams {
            return NotFound;
          }
          HeardThen(k, Runs.PeerClose(reason as int), check);
        case StreamCloseAck(_, stream, _) =>
          var k := Key(id, stream);
          if k !in engine.streams || engine.streams[k].s.state != S.Closing || engine.streams[k].s.phase != S.WaitAck {
            return WrongState;
          }
          HeardThen(k, Runs.PeerCloseAck, check);
      }
      return Done;
    }

    /** A payload for a stream that exists. */
    method HandlePayload(k: Key, data: Wire.Bytes, f: Facts) returns (status: Status)
      requires Valid() && k in engine.streams && k.conn in engine.conns && MarksKept(View())
      modifies engine
      ensures Handled(status, k.conn) && TablesSame(old(View()), View())
      ensures data == [] ==> status == BadParameter && View() == old(View())
      ensures data != [] ==> status == if !S.KcpActive(old(engine.streams)[k].s) then WrongState
        else if f.ok then Done else KcpFailed
      ensures status == Done || status == KcpFailed ==>
        StreamDid(old(View()), View(), k, Runs.Payload(Taken(old(engine.streams)[k].s.kcp, f), f.ok),
                  Up(old(engine.conns), k.conn), engine.clock, 0)
      ensures status == Done ==> Heard(old(View()), View(), k.conn, true, engine.clock)
      ensures status == KcpFailed ==> engine.conns == old(engine.conns)
    {
      hide Engine.Counted, Engine.Populated, C.Usable, S.Acceptable, Kcp.Input, Taken, Touches, MarksKept, Runs.Apply, Minus;
      TouchesNothing(View(), k.conn);
      if data == [] {
        return BadParameter;
      }
      var s := engine.streams[k].s;
      if !S.KcpActive(s) {
        return WrongState;
      }
      TakenBehaves(s, f);
      ghost var a := View();
      StreamEvent(k, Runs.Payload(Taken(s.kcp, f), f.ok), 0);
      if !f.ok {
        return KcpFailed;
      }
      ghost var b := View();
      MarksGoOn(a, b, k.conn);
      Hear(k.conn, true);
      TouchesOn(a, b, View(), k.conn);
      return Done;
    }

    method RejectEvent(k: Key, check: int)
      requires Valid() && k in engine.streams && engine.streams[k].s.state == S.Open && MarksKept(View())
      modifies engine
      ensures Handled(Done, k.conn) && TablesSame(old(View()), View()) && engine.conns == old(engine.conns)
      ensures var e := old(engine.streams)[k]; var t := S.Reject(e.s, Up(engine.conns, k.conn), engine.clock, check);
        if t.closed then engine.streams == Minus(old(engine.streams), k) && engine.finals == old(engine.finals)[e.serial := t]
        else engine.streams == old(engine.streams)[k := Entry(e.serial, t)]
    {
      hide Engine.Counted, Engine.Populated, C.Usable, S.Acceptable, Touches, MarksKept, Apart, Minus, S.Reject;
      ghost var a, e := View(), engine.streams[k];
      engine.RejectStream(k, check);
      ApartByStream(a.conns, a.streams, k, Entry(e.serial, S.Reject(e.s, Up(engine.conns, k.conn), engine.clock, check)));
      TouchesMaps(a, View(), k.conn);
    }

    method FailEvent(k: Key, check: int)
      requires Valid() && k in engine.streams && MarksKept(View())
      modifies engine
      ensures Handled(Done, k.conn) && TablesSame(old(View()), View()) && engine.conns == old(engine.conns)
      ensures engine.streams == Minus(old(engine.streams), k)
      ensures var e := old(engine.streams)[k];
        engine.finals == old(engine.finals)[e.serial := S.Fail(e.s, Up(engine.conns, k.conn), engine.clock, check)]
    {
      hide Engine.Counted, Engine.Populated, C.Usable, S.Acceptable, Touches, MarksKept, Apart, Minus, S.Fail;
      ghost var a, e := View(), engine.streams[k];
      engine.FailStream(k, check);
      ApartByStream(a.conns, a.streams, k, e);
      TouchesMaps(a, View(), k.conn);
    }

    /** What becomes of a stream that was just created. */
    method Welcome(k: Key, data: Wire.Bytes, f: Facts) returns (status: Status)
      requires Valid() && k in engine.streams && Up(engine.conns, k.conn) && MarksKept(View())
      requires engine.streams[k].s.state == S.Open && !engine.streams[k].s.closed
      modifies engine
      ensures Handled(Done, k.conn) && TablesSame(old(View()), View()) && !Refused(status)
      ensures var a, e := old(View()), old(engine.streams)[k];
        Welcomed(Lacking(a, k), View(), k, e.s, e.serial, data, status, f, engine.clock)
    {
      hide Engine.Counted, Engine.Populated, C.Usable, S.Acceptable, Taken, Touches, MarksKept, Apart;
      hide Minus, S.Reject, S.HandlePayload, StreamDid, Heard, Welcomed;
      ghost var a := View();
      if !f.accepted {
        RejectEvent(k, f.check);
        RejectionWelcomed(a, View(), k, data, f, engine.clock);
        return Done;
      }
      status := HandlePayload(k, data, f);
      if status == Done {
        PayloadWelcomed(a, View(), k, data, f, engine.clock);
      } else {
        ghost var b := View();
        MarksGoOn(a, b, k.conn);
        PayloadLeavesStream(a, b, k, data, f, true, engine.clock);
        FailEvent(k, f.check);
        TouchesOn(a, b, View(), k.conn);
        FailureWelcomed(a, b, View(), k, data, status, f, engine.clock);
      }
    }

    /** A stream for the peer: the mark moves before anyone can refuse it. */
    method OpenPeerStream(k: Key, f: Facts)
      requires Valid() && Up(engine.conns, k.conn) && k !in engine.streams && InOrder()
      requires Ids.IsNew(engine.conns[k.conn].isInitiator, MarkOf(View(), k.conn), k.id)
      modifies engine, this`marks, this`births
      ensures Handled(Done, k.conn) && InOrder()
      ensures var a := old(View());
        View() == a.(
          streams := a.streams[k := Entry(a.created, S.New(k.id, false, streamConfig, f.hooked, true, engine.clock, f.check))],
          created := a.created + 1, marks := a.marks[k.conn := Ids.Mark(true, k.id)],
          births := a.births[k.conn := BirthsOf(a, k.conn) + [k.id]])
    {
      hide Engine.Counted, Engine.Populated, C.Usable, S.Acceptable, Apart, Ids.IsNew, S.New, MarksKept;
      ghost var a := View();
      engine.UpIsKnown(k.conn);
      engine.OpenStream(k, streamConfig, false, f.hooked, f.check);
      marks := marks[k.conn := Ids.Mark(true, k.id)];
      births := births[k.conn := BirthsOf(a, k.conn) + [k.id]];
      ApartByStream(a.conns, a.streams, k, engine.streams[k]);
      PutThenDrop(a.marks, k.conn, Ids.Mark(true, k.id));
      PutThenDrop(a.births, k.conn, BirthsOf(a, k.conn) + [k.id]);
      MarksGoOn(a, View(), k.conn);
    }

    /** A payload for a stream that does not exist creates it, if its identifier is new and someone is listening. */
    method HandleNewStream(k: Key, data: Wire.Bytes, f: Facts) returns (status: Status)
      requires Valid() && Up(engine.conns, k.conn) && k !in engine.streams && InOrder()
      modifies engine, this`marks, this`births
      ensures Handled(status, k.conn) && InOrder()
      ensures Turned(status, PayloadObjection(old(View()), k, data, f.listens))
      ensures !Refused(status) ==> Paid(old(View()), View(), k, data, status, f, streamConfig, engine.clock)
    {
      hide Engine.Counted, Engine.Populated, C.Usable, S.Acceptable, Touches, MarksKept, Ids.IsNew, Welcomed, S.New;
      TouchesNothing(View(), k.conn);
      var isInitiator := engine.conns[k.conn].isInitiator;
      var mark := if k.conn in marks then marks[k.conn] else Ids.UNMARKED;
      IsNewOwns(isInitiator, mark, k.id);
      if k.id == 0 || Ids.Owns(isInitiator, k.id) {
        return BadFormat;
      }
      if !Ids.IsNew(isInitiator, mark, k.id) {
        return NotFound;
      }
      if !f.listens {
        return NotFound;
      }
      if !f.memory {
        return OutOfMemory;
      }
      status := CreateStream(k, data, f);
    }

    method CreateStream(k: Key, data: Wire.Bytes, f: Facts) returns (status: Status)
      requires Valid() && Up(engine.conns, k.conn) && k !in engine.streams && InOrder() && f.listens && f.memory
      requires Ids.IsNew(engine.conns[k.conn].isInitiator, MarkOf(View(), k.conn), k.id)
      modifies engine, this`marks, this`births
      ensures Handled(status, k.conn) && InOrder() && !Refused(status)
      ensures Paid(old(View()), View(), k, data, status, f, streamConfig, engine.clock)
    {
      hide Engine.Counted, Engine.Populated, C.Usable, S.Acceptable, Touches, MarksKept, Ids.IsNew, Welcomed, S.New, Paid;
      hide Lacking;
      ghost var a := View();
      NewIsOpen(k.id, streamConfig, f.hooked, engine.clock, f.check);
      OpenPeerStream(k, f);
      ghost var b := View();
      status := Welcome(k, data, f);
      TouchesOn(a, b, View(), k.conn);
      MarksGoOn(b, View(), k.conn);
      PaidByWelcome(a, b, View(), k, data, status, f, streamConfig, engine.clock);
    }

    method HandleStreamPayload(id: int, parsed: Wire.Parsed, f: Facts) returns (status: Status)
      requires Valid() && id in engine.conns && InOrder()
      requires parsed.Parsed? ==> parsed.message.StreamPayload? && Numbered(parsed.message)
      modifies engine, this`marks, this`births
      ensures Handled(status, id) && InOrder()
      ensures parsed == Wire.Malformed ==>
        status == if old(engine.conns)[id].state != C.Connected then WrongState else BadFormat
      ensures parsed.Parsed? ==>
        Turned(status, PayloadObjection(old(View()), Key(id, parsed.message.stream), parsed.message.data, f.listens))
      ensures !Refused(status) ==>
        && parsed.Parsed?
        && Paid(old(View()), View(), Key(id, parsed.message.stream), parsed.message.data, status, f, streamConfig, engine.clock)
    {
      hide Engine.Counted, Engine.Populated, C.Usable, S.Acceptable, Touches, MarksKept, Ids.IsNew, StreamDid, Welcomed, S.New;
      TouchesNothing(View(), id);
      if engine.conns[id].state != C.Connected {
        return WrongState;
      }
      if parsed == Wire.Malformed {
        return BadFormat;
      }
      match parsed.message {
        case StreamPayload(_, stream, data) =>
          var k := Key(id, stream);
          if k in engine.streams {
            ghost var a := View();
            status := HandlePayload(k, data, f);
            MarksGoOn(a, View(), id);
          } else {
            status := HandleNewStream(k, data, f);
          }
      }
    }

    /** A peer not heard from before; see module Handshake for what it comes to between engines. */
    method Introduce(peer: Peer, f: Facts) returns (status: Status, ghost id: int)
      requires Valid() && InOrder()
      modifies engine, this`address, this`passive, this`marks, this`births
      ensures Handled(status, id) && InOrder() && id !in old(engine.conns) && !Refused(status)
      ensures Introduced(old(View()), View(), peer, id, status, f, connConfig, engine.clock)
    {
      hide Engine.Counted, Engine.Populated, C.Usable, S.Acceptable, Touches, MarksKept, C.Met, C.Admitted, Steps.TurnedDown;
      hide PassiveKept;
      ghost var a := View();
      id := 0;
      engine.ZeroIsNoConn();
      engine.NextIsFree();
      if !f.memory || engine.nextConnId == ID_LIMIT {
        var spends: bool := *;
        if spends && engine.nextConnId < ID_LIMIT {
          engine.SpendId();
        }
        NextMoves(a, View());
        return OutOfMemory, id;
      }
      var made := engine.Admit(peer.id, connConfig, f.hooked, f.verdict);
      address, passive, marks := address[made := peer.addr], passive[peer := made], marks[made := Ids.UNMARKED];
      births := births[made := []];
      NewcomerTouches(a, View(), peer, made);
      return Done, made;
    }

    /** A CONNECT. */
    method HandleConnect(from: Addr, source: int, version: Kcp.byte, f: Facts) returns (status: Status, ghost id: int)
      requires Valid() && source != 0 && InOrder()
      modifies engine, this`address, this`passive, this`marks, this`births
      ensures Handled(status, id) && InOrder()
      ensures id in old(engine.conns) ==> Peer(from, source) in old(passive) && old(passive)[Peer(from, source)] == id
      ensures Turned(status, ConnectObjection(old(View()), Peer(from, source), version))
      ensures !Refused(status) ==>
        ConnectMet(old(View()), View(), Peer(from, source), version, id, status, f, connConfig, engine.clock)
    {
      hide Engine.Counted, Engine.Populated, C.Apply, C.Usable, S.Acceptable, ConnDid, Touches, MarksKept, Introduced;
      ghost var a := View();
      TouchesNothing(a, 0);
      engine.ZeroIsNoConn();
      var peer := Peer(from, source);
      id := 0;
      if peer in passive && passive[peer] in engine.conns {
        var known := passive[peer];
        id := known;
        TouchesNothing(a, id);
        if version != Wire.VERSION {
          ConnEvent(known, C.Reasked(2));
          MarksGoOn(a, View(), id);
          return Incompatible, id;
        }
        if engine.conns[known].state != C.Connected {
          return WrongState, id;
        }
        ConnEvent(known, C.Reasked(0));
        MarksGoOn(a, View(), id);
        return Done, id;
      }
      if version != Wire.VERSION {
        return Incompatible, id;
      }
      status, id := Introduce(peer, f);
    }

    /** Any message but a CONNECT, for the connection it was routed to. */
    method HandleRouted(from: Addr, dest: int, kind: Kcp.byte, parsed: Wire.Parsed, f: Facts) returns (status: Status)
      requires Valid() && InOrder() && dest in engine.conns && kind != Wire.T_CONNECT && OfKind(kind, parsed)
      requires parsed.Parsed? ==> Numbered(parsed.message) && !parsed.message.Connect? && parsed.message.dest == dest
      modifies engine, this`marks, this`births
      ensures Handled(status, dest) && InOrder()
      ensures parsed == Wire.Malformed ==> status == KindObjection(old(engine.conns)[dest].state, kind)
      ensures parsed.Parsed? ==> Turned(status, RoutedObjection(old(View()), parsed.message, f.listens))
      ensures !Refused(status) ==>
        && parsed.Parsed?
        && Effect(
             old(View()), View(), parsed.message, from, dest, status, f, connConfig, streamConfig, engine.clock)
    {
      hide Engine.Counted, Engine.Populated, C.Usable, S.Acceptable, Touches, ConnDid, StreamDid, Welcomed, Paid, Heard, MarksKept;
      ghost var a := View();
      if kind == Wire.T_STREAM_PAYLOAD {
        status := HandleStreamPayload(dest, parsed, f);
      } else {
        if kind == Wire.T_STREAM_CLOSE || kind == Wire.T_STREAM_CLOSE_ACK {
          status := HandleStreamClose(dest, parsed, f.check);
        } else {
          status := HandleConnMessage(dest, kind, parsed);
        }
        MarksGoOn(a, View(), dest);
      }
    }

    /**
      Any datagram whatever: it touches at most one connection, `id`, which if
      it existed is one that the sender's address belongs to; one that is
      refused changes nothing, and any other is well formed and has exactly the
      effect its message asks for.  It is refused exactly if `Objection` finds
      something in what it says and in the world it meets.
     */
    method ProtocolInput(buf: Wire.Bytes, from: Addr, f: Facts) returns (status: Status, ghost id: int)
      requires Valid() && buf != [] && InOrder()
      modifies engine, this`address, this`passive, this`marks, this`births
      ensures Handled(status, id) && InOrder()
      ensures Turned(status, Objection(old(View()), buf, from, f.listens))
      ensures id in old(engine.conns) && !Refused(status) ==> id in old(address) && old(address)[id] == from
      ensures !Refused(status) ==>
        && Wire.Decode(buf).Parsed?
        && Effect(
             old(View()), View(), Wire.Decode(buf).message, from, id, status, f, connConfig, streamConfig, engine.clock)
    {
      hide Engine.Counted, Engine.Populated, C.Usable, S.Acceptable, Touches, Wire.Decode, Wire.Number;
      hide ConnDid, StreamDid, Welcomed, ConnectMet, Paid, Heard, MarksKept, RoutedObjection, KindObjection;
      ghost var a := View();
      TouchesNothing(a, 0);
      engine.ZeroIsNoConn();
      id := 0;
      if |buf| < Wire.COMMON {
        TooShortToDecode(buf);
        return BadFormat, id;
      }
      DecodeKeepsKind(buf);
      ParsedStream(buf);
      var kind, dest, parsed := buf[0], Wire.Number(buf[1..9]), Wire.Decode(buf);
      if kind == Wire.T_CONNECT {
        match parsed {
          case Parsed(Connect(source, version, _)) =>
            ParsedSource(buf);
            status, id := HandleConnect(from, source, version, f);
          case _ => return BadFormat, id;
        }
        return;
      }
      if dest == 0 {
        return BadFormat, id;
      }
      if !Routed(from, dest) {
        return NotFound, id;
      }
      id := dest;
      status := HandleRouted(from, dest, kind, parsed, f);
    }

    /** A datagram, as the host hands it to the engine. */
    method Input(buf: Wire.Bytes, from: Addr, f: Facts) returns (status: Status, ghost id: int)
      requires engine.Inv() && C.Usable(connConfig) && S.Acceptable(streamConfig) && InOrder()
      modifies engine, this`address, this`passive, this`marks, this`births
      ensures engine.Inv() && InOrder() && engine.operationDepth == old(engine.operationDepth)
      ensures engine.clock == old(engine.clock) && Touches(old(View()), View(), id)
      ensures id in old(engine.conns) && !Refused(status) ==> id in old(address) && old(address)[id] == from
      ensures Refused(status) || buf == [] ==> View() == old(View())
      ensures buf != [] ==> Turned(status, Objection(old(View()), buf, from, f.listens))
      ensures buf == [] <==> status == BadParameter && Wire.Decode(buf) == Wire.Malformed
      ensures buf != [] && !Refused(status) ==>
        && Wire.Decode(buf).Parsed?
        && Effect(
             old(View()), View(), Wire.Decode(buf).message, from, id, status, f, connConfig, streamConfig, engine.clock)
    {
      hide Engine.Counted, Engine.Populated, C.Usable, S.Acceptable, Touches, PassiveKept, MarksKept, Effect, Wire.Decode;
      id := 0;
      if buf == [] {
        TouchesNothing(View(), id);
        engine.ZeroIsNoConn();
        TooShortToDecode(buf);
        return BadParameter, id;
      }
      engine.OperationEnter();
      status, id := ProtocolInput(buf, from, f);
      engine.OperationLeave();
    }

    /** An outgoing connection. */
    method Dial(to: Addr, config: C.Config, hooked: bool) returns (id: int)
      requires engine.Inv() && C.Unsigned(config) && InOrder()
      modifies engine, this`address
      ensures engine.Inv() && InOrder() && engine.streams == old(engine.streams)
      ensures id != 0 ==> Routed(to, id) && id !in old(engine.conns)
    {
      hide Engine.Counted, Engine.Populated, PassiveKept, MarksKept;
      engine.OperationEnter();
      id := MakeConn(to, config, hooked);
      engine.OperationLeave();
    }

    method MakeConn(to: Addr, config: C.Config, hooked: bool) returns (id: int)
      requires engine.Inv() && C.Unsigned(config) && InOrder()
      modifies engine, this`address
      ensures engine.Inv() && InOrder() && engine.streams == old(engine.streams)
      ensures id != 0 ==> Routed(to, id) && id !in old(engine.conns)
    {
      hide Engine.Counted, Engine.Populated, C.Usable, C.Connect, C.Prepare, PassiveKept, MarksKept, SidesKept;
      ghost var a := View();
      id := engine.Connect(config, hooked);
      if id != 0 {
        address := address[id := to];
      }
      OrderBySides(a, View(), id, to);
    }

    /** Anything else that the application, KCP and the host may make the engine do. */
    method Do(c: Command)
      requires engine.Inv() && InOrder() && !c.PeerOpening?
      modifies engine
      ensures engine.Inv() && InOrder()
    {
      hide Engine.Counted, Engine.Populated, PassiveKept, MarksKept, SidesKept;
      ghost var a := View();
      engine.Execute(c);
      OrderBySides(a, View(), 0, Addr([]));
    }

    /** Whatever comes, from peers or from within. */
    method Serve(events: seq<Event>)
      requires engine.Inv() && C.Usable(connConfig) && S.Acceptable(streamConfig) && InOrder()
      modifies engine, this`address, this`passive, this`marks, this`births
      ensures engine.Inv() && InOrder()
      ensures forall id, i, j | id in engine.conns && 0 <= i < j < |BirthsOf(View(), id)| ::
        BirthsOf(View(), id)[i] == BirthsOf(View(), id)[j] ==>
          Farther(engine.conns[id].isInitiator, BirthsOf(View(), id), i, j)
    {
      hide Engine.Counted, Engine.Populated, C.Usable, S.Acceptable, Touches, PassiveKept, MarksKept, Effect;
      for n := 0 to |events|
        invariant engine.Inv() && InOrder()
      {
        match events[n] {
          case Datagram(buf, from, f) => var status, id := Input(buf, from, f);
          case Dialling(to, config, hooked) =>
            if C.Unsigned(config) { var id := Dial(to, config, hooked); }
          case Doing(c) =>
            if !c.PeerOpening? { Do(c); }
        }
      }
      forall id, i, j | id in engine.conns && 0 <= i < j < |BirthsOf(View(), id)|
        ensures BirthsOf(View(), id)[i] == BirthsOf(View(), id)[j] ==>
          Farther(engine.conns[id].isInitiator, BirthsOf(View(), id), i, j)
      {
        if BirthsOf(View(), id)[i] == BirthsOf(View(), id)[j] {
          NeverTwice(View(), id, i, j);
        }
      }
    }
  }
}

/**
  The connection handshake (src/kcpmux_protocol.c, src/kcpmux_engine.c) among
  any number of engines, over a network that loses, duplicates and reorders
  datagrams but does not forge them.
 */
module Handshake {
  import C = Conn
  import opened ConnSteps
  import opened Address

  /** An identifier together with an address, as both of an engine's tables are keyed. */
  datatype Key = Key(addr: Addr, id: int)

  datatype Packet =
    | ConnectPacket(from: Addr, to: Addr, source: int, version: int)
    | AckPacket(from: Addr, to: Addr, dest: int, source: int, version: int, result: int)

  const OK: int := 0
  const BAD_VERSION: int := 2

  /**
    An engine: `conns` by peer address and local identifier, `passive` by peer
    address and peer identifier, and the calls of conn_connect_notify.
   */
  datatype Host = Host(version: int, next: int, conns: map<Key, C.Conn>, passive: map<Key, int>, notices: seq<Key>)

  /** How a connection came to be; a passive one was made for initiator `peerId`, and accepted or not. */
  datatype Birth = Initiated(remote: Addr) | MadeFor(remote: Addr, peerId: int, accepted: bool)

  predicate IsFor(b: Birth, known: Key) {
    b.MadeFor? && b.remote == known.addr && b.peerId == known.id
  }

  /** What an event at an engine leads to: its new state, what it sends, and what connection it made. */
  datatype Outcome = Outcome(host: Host, out: set<Packet>, births: map<Key, Birth>)

  function Unmoved(host: Host): Outcome {
    Outcome(host, {}, map[])
  }

  /** Everything a connection has sent, as far as the handshake goes. */
  function Packets(self: Addr, remote: Addr, version: int, c: C.Conn): set<Packet> {
    (if C.SentConnect in c.log then {ConnectPacket(self, remote, c.localId, version)} else {})
    + (set e | e in c.log && e.SentConnectAck? :: AckPacket(self, remote, c.peerId, c.localId, version, e.result))
  }

  /** A changed connection goes back to the tables, or out of them when it was finalised. */
  function Settle(host: Host, key: Key, d: C.Conn): Host {
    if d.closed
    then host.(conns := host.conns - {key},
               passive := if d.isInitiator then host.passive else host.passive - {Key(key.addr, d.peerId)})
    else host.(conns := host.conns[key := d])
  }

  function Begin(host: Host, self: Addr, to: Addr, config: C.Config, hooked: bool, clock: int): Outcome {
    if host.next == ID_LIMIT then Unmoved(host)
    else if !C.Unsigned(config) || C.Prepare(config) == C.Unacceptable then Unmoved(host.(next := host.next + 1))
    else
      var c := C.Connect(host.next, C.Prepare(config).config, hooked, clock);
      Outcome(
        host.(next := host.next + 1, conns := host.conns[Key(to, host.next) := c]),
        Packets(self, to, host.version, c), map[Key(self, host.next) := Initiated(to)])
  }

  /** Whatever else befalls a connection, answers and repeated questions aside: those need a datagram. */
  function Act(host: Host, self: Addr, key: Key, op: C.Op, clock: int): Outcome {
    if op.Answered? || op.Reasked? || key !in host.conns || !C.Usable(host.conns[key].config) then Unmoved(host)
    else
      var d := C.Apply(host.conns[key], op, clock);
      Outcome(Settle(host, key, d), Packets(self, key.addr, host.version, d), map[])
  }

  /** A CONNECT; `verdict` is what the application answers if it is asked. */
  function HandleConnect(
    host: Host, self: Addr, p: Packet, config: C.Config, hooked: bool, verdict: int, clock: int): Outcome
    requires p.ConnectPacket? && C.Usable(config)
  {
    var known := Key(p.from, p.source);
    if known in host.passive then
      var key := Key(p.from, host.passive[known]);
      // The tables agree and configurations are usable, so this never applies.
      if key !in host.conns || !C.Usable(host.conns[key].config) then Unmoved(host)
      else
        var c := host.conns[key];
        if p.version != host.version then Answer(host, self, key, c, BAD_VERSION)
        else if c.state != C.Connected then Unmoved(host)
        else Answer(host, self, key, C.NoteReceive(c, clock, false), OK)
    else if p.version != host.version || host.next == ID_LIMIT then Unmoved(host)
    else Meet(host, self, p, config, hooked, verdict, clock)
  }

  function Answer(host: Host, self: Addr, key: Key, c: C.Conn, result: int): Outcome {
    var d := C.Logged(c, C.SentConnectAck(result));
    Outcome(host.(conns := host.conns[key := d]), Packets(self, key.addr, host.version, d), map[])
  }

  /** A first CONNECT: the application is asked, and the connection kept only if it agrees. */
  function Meet(host: Host, self: Addr, p: Packet, config: C.Config, hooked: bool, verdict: int, clock: int): Outcome
    requires p.ConnectPacket? && C.Usable(config)
  {
    var known := Key(p.from, p.source);
    var c := C.Met(host.next, p.source, config, hooked, clock);
    var asked := host.(next := host.next + 1, notices := host.notices + [known]);
    var births := map[Key(self, host.next) := MadeFor(p.from, p.source, verdict == OK)];
    if verdict == OK then
      var d := C.Admitted(c, clock);
      Outcome(
        asked.(conns := host.conns[Key(p.from, host.next) := d], passive := host.passive[known := host.next]),
        Packets(self, p.from, host.version, d), births)
    else Outcome(asked, Packets(self, p.from, host.version, C.Logged(c, C.SentConnectAck(verdict))), births)
  }

  function HandleAck(host: Host, p: Packet, clock: int): Outcome
    requires p.AckPacket?
  {
    var key := Key(p.from, p.dest);
    if p.dest == 0 || key !in host.conns || !C.Usable(host.conns[key].config) || p.source == 0 then Unmoved(host)
    else
      var ok := p.version == host.version && p.result == OK;
      var why := if p.version != host.version || p.result == BAD_VERSION then C.VERSION else C.REJECTED;
      Unmoved(Settle(host, key, C.HandleConnectAck(host.conns[key], p.source, ok, why, clock)))
  }

  // The whole system.

  /** `born` remembers every connection there ever was, by engine and identifier. */
  datatype System = System(hosts: map<Addr, Host>, net: set<Packet>, born: map<Key, Birth>)

  datatype Step =
    | Begins(at: Addr, to: Addr, config: C.Config, hooked: bool, clock: int)
    | Acts(at: Addr, key: Key, op: C.Op, clock: int)
    | ConnectArrives(at: Addr, p: Packet, config: C.Config, hooked: bool, verdict: int, clock: int)
    | AckArrives(at: Addr, p: Packet, clock: int)

  function Event(host: Host, step: Step, net: set<Packet>): Outcome {
    match step
    case Begins(at, to, config, hooked, clock) => Begin(host, at, to, config, hooked, clock)
    case Acts(at, key, op, clock) => Act(host, at, key, op, clock)
    case ConnectArrives(at, p, config, hooked, verdict, clock) =>
      if !p.ConnectPacket? || p !in net || p.to != at || !C.Usable(config) then Unmoved(host)
      else HandleConnect(host, at, p, config, hooked, verdict, clock)
    case AckArrives(at, p, clock) =>
      if !p.AckPacket? || p !in net || p.to != at then Unmoved(host) else HandleAck(host, p, clock)
  }

  /** Datagrams stay deliverable for ever: any number of times, in any order, or never. */
  function Next(s: System, step: Step): System {
    if step.at !in s.hosts then s
    else
      var o := Event(s.hosts[step.at], step, s.net);
      System(s.hosts[step.at := o.host], s.net + o.out, s.born + o.births)
  }

  function After(s: System, run: seq<Step>): System {
    if run == [] then s else Next(After(s, run[..|run| - 1]), run[|run| - 1])
  }

  ghost predicate Init(s: System) {
    && s.net == {} && s.born == map[]
    && (forall a | a in s.hosts ::
          0 < s.hosts[a].next < ID_LIMIT / 2 && s.hosts[a].conns == map[] && s.hosts[a].passive == map[])
  }

  // What a connection's own life keeps.

  /** Only initiators send CONNECT, only acceptors answer, and an initiator is connected only to a known peer. */
  ghost predicate Proper(c: C.Conn) {
    && !c.closed && C.Awake(c)
    && (c.state == C.Connecting ==> c.isInitiator)
    && (C.SentConnect in c.log ==> c.isInitiator)
    && (forall e | e in c.log && e.SentConnectAck? :: !c.isInitiator)
    && (c.isInitiator && c.state == C.Connected ==> c.peerId != 0)
    && (!c.isInitiator ==> c.peerId != 0)
  }

  /** A step of a connection's own keeps it proper, if it survives. */
  lemma ApplyKeepsProper(c: C.Conn, op: C.Op, clock: int)
    requires Proper(c) && !op.Answered? && !op.Reasked?
    ensures C.Usable(c.config)
    ensures var d := C.Apply(c, op, clock); Steady(c, d) && (d.closed || Proper(d))
  {
    hide C.Awake, C.Apply;
    C.AwakeIsUsable(c);
    C.ApplyEvolves(c, op, clock);
    ApplyIsSteady(c, op, clock);
  }

  lemma AnswerKeepsProper(c: C.Conn, peerId: int, ok: bool, why: C.Reason, clock: int)
    requires Proper(c) && peerId != 0
    ensures C.Usable(c.config)
    ensures var d := C.HandleConnectAck(c, peerId, ok, why, clock);
      && d.isInitiator == c.isInitiator && d.localId == c.localId && (d.closed || Proper(d))
      && (d.peerId == c.peerId || (c.isInitiator && d.peerId == peerId && ok))
  {
    hide C.Awake, C.RefreshTimer;
    C.AwakeIsUsable(c);
    C.AnswerEvolves(c, peerId, ok, why, clock);
    if c.state == C.Connecting {
      var d := c.(lastRecv := C.Clock.Max(c.lastRecv, clock));
      C.RefreshFrame(d.(peerId := peerId, state := C.Connected), clock);
      C.RefreshFrame(d.(state := C.Failed), clock);
    }
  }

  // What every step of the system keeps.

  /** Connection `id` of `at` was made for connection `peer` of `remote` and accepted. */
  ghost predicate Made(born: map<Key, Birth>, at: Addr, id: int, remote: Addr, peer: int) {
    Key(at, id) in born && born[Key(at, id)] == MadeFor(remote, peer, true)
  }

  ghost predicate Known(born: map<Key, Birth>, at: Addr, key: Key, c: C.Conn) {
    && c.localId == key.id && 0 < key.id
    && Key(at, key.id) in born
    && born[Key(at, key.id)] == (if c.isInitiator then Initiated(key.addr) else MadeFor(key.addr, c.peerId, true))
    && (c.isInitiator && c.peerId != 0 ==> Made(born, key.addr, c.peerId, at, key.id))
  }

  /** The two tables of an engine describe the same connections. */
  ghost predicate TablesAgree(host: Host) {
    && (forall key | key in host.conns && !host.conns[key].isInitiator ::
          var known := Key(key.addr, host.conns[key].peerId);
          known in host.passive && host.passive[known] == key.id)
    && (forall known | known in host.passive ::
          var key := Key(known.addr, host.passive[known]);
          key in host.conns && !host.conns[key].isInitiator && host.conns[key].peerId == known.id)
  }

  ghost predicate HostKept(at: Addr, host: Host, born: map<Key, Birth>) {
    && 0 < host.next <= ID_LIMIT && TablesAgree(host)
    && (forall key | key in host.conns ::
          key.id < host.next && Proper(host.conns[key]) && Known(born, at, key, host.conns[key]))
  }

  /** Every datagram was sent by the connection it claims to come from, and only accepted ones say so. */
  ghost predicate Genuine(born: map<Key, Birth>, p: Packet) {
    && p.source != 0
    && match p
       case ConnectPacket(from, to, source, _) => Key(from, source) in born && born[Key(from, source)] == Initiated(to)
       case AckPacket(from, to, dest, source, _, result) =>
         && Key(from, source) in born && IsFor(born[Key(from, source)], Key(to, dest))
         && (result == OK ==> born[Key(from, source)].accepted)
  }

  ghost predicate NetKept(net: set<Packet>, born: map<Key, Birth>) {
    forall p | p in net :: Genuine(born, p)
  }

  /** Passive connections are made only for connections that were really initiated towards their engine. */
  ghost predicate Founded(born: map<Key, Birth>, births: map<Key, Birth>) {
    forall k | k in births && births[k].MadeFor? ::
      Key(births[k].remote, births[k].peerId) in born
      && born[Key(births[k].remote, births[k].peerId)] == Initiated(k.addr)
  }

  ghost predicate BornKept(born: map<Key, Birth>, hosts: map<Addr, Host>) {
    forall k | k in born :: k.addr in hosts && k.id < hosts[k.addr].next
  }

  ghost predicate Inv(s: System) {
    && (forall a | a in s.hosts :: HostKept(a, s.hosts[a], s.born))
    && NetKept(s.net, s.born) && BornKept(s.born, s.hosts) && Founded(s.born, s.born)
  }

  ghost predicate Extends(born: map<Key, Birth>, later: map<Key, Birth>) {
    forall k | k in born :: k in later && later[k] == born[k]
  }

  lemma HostLater(at: Addr, host: Host, born: map<Key, Birth>, later: map<Key, Birth>)
    requires HostKept(at, host, born) && Extends(born, later)
    ensures HostKept(at, host, later)
  {
    hide Proper, TablesAgree;
  }

  lemma NetLater(net: set<Packet>, born: map<Key, Birth>, later: map<Key, Birth>)
    requires NetKept(net, born) && Extends(born, later)
    ensures NetKept(net, later)
  {
  }

  /** What an event at an engine may come to. */
  ghost predicate OutcomeKept(at: Addr, host: Host, born: map<Key, Birth>, o: Outcome) {
    && host.next <= o.host.next && (forall k | k in o.births :: k.addr == at && host.next <= k.id < o.host.next)
    && HostKept(at, o.host, born + o.births) && NetKept(o.out, born + o.births) && Founded(born, o.births)
  }

  lemma OneHostMoves(s: System, at: Addr, o: Outcome)
    requires Inv(s) && at in s.hosts && OutcomeKept(at, s.hosts[at], s.born, o)
    ensures Inv(System(s.hosts[at := o.host], s.net + o.out, s.born + o.births))
  {
    hide HostKept, Genuine;
    var later := s.born + o.births;
    assert forall k | k in s.born && k in o.births :: k.id < s.hosts[at].next;
    assert Extends(s.born, later);
    NetLater(s.net, s.born, later);
    forall a | a in s.hosts && a != at ensures HostKept(a, s.hosts[a], later) {
      HostLater(a, s.hosts[a], s.born, later);
    }
  }

  lemma UnmovedIsKept(at: Addr, was: Host, host: Host, born: map<Key, Birth>)
    requires HostKept(at, host, born) && was.next <= host.next
    ensures OutcomeKept(at, was, born, Unmoved(host))
  {
    hide HostKept;
    assert born + map[] == born;
  }

  /** What a connection sends is genuine, even as it is finalised. */
  lemma SendsGenuinely(born: map<Key, Birth>, at: Addr, key: Key, version: int, c: C.Conn)
    requires Key(at, c.localId) in born && c.localId == key.id != 0
    requires if c.isInitiator then born[Key(at, c.localId)] == Initiated(key.addr)
      else IsFor(born[Key(at, c.localId)], Key(key.addr, c.peerId))
    requires C.SentConnectAck(OK) in c.log && !c.isInitiator ==> born[Key(at, c.localId)].accepted
    requires C.SentConnect in c.log ==> c.isInitiator
    requires forall e | e in c.log && e.SentConnectAck? :: !c.isInitiator
    ensures NetKept(Packets(at, key.addr, version, c), born)
  {
  }

  lemma SettleKeeps(at: Addr, host: Host, key: Key, d: C.Conn, born: map<Key, Birth>)
    requires HostKept(at, host, born) && key in host.conns && (d.closed || (Proper(d) && Known(born, at, key, d)))
    requires var c := host.conns[key]; d.isInitiator == c.isInitiator && (!c.isInitiator ==> d.peerId == c.peerId)
    ensures HostKept(at, Settle(host, key, d), born)
  {
    hide Proper, Known;
  }

  lemma ActKeeps(at: Addr, host: Host, key: Key, op: C.Op, clock: int, born: map<Key, Birth>)
    requires HostKept(at, host, born)
    ensures OutcomeKept(at, host, born, Act(host, at, key, op, clock))
  {
    hide Proper, C.Apply, C.Usable, Settle;
    UnmovedIsKept(at, host, host, born);
    if !op.Answered? && !op.Reasked? && key in host.conns && C.Usable(host.conns[key].config) {
      var c := host.conns[key];
      ApplyKeepsProper(c, op, clock);
      var d := C.Apply(c, op, clock);
      StaysKnown(born, at, key, c, d);
      SettleKeeps(at, host, key, d, born);
      SendsGenuinely(born, at, key, host.version, d);
      SettleKeepsNext(host, key, d);
      assert born + map[] == born;
    }
  }

  lemma SettleKeepsNext(host: Host, key: Key, d: C.Conn)
    ensures Settle(host, key, d).next == host.next && Settle(host, key, d).version == host.version
  {
  }

  lemma StaysKnown(born: map<Key, Birth>, at: Addr, key: Key, c: C.Conn, d: C.Conn)
    requires Proper(c) && Known(born, at, key, c) && Steady(c, d)
    ensures Known(born, at, key, d)
    ensures C.SentConnect in d.log ==> d.isInitiator
    ensures forall e | e in d.log && e.SentConnectAck? :: !d.isInitiator
  {
  }

  lemma BeginKeeps(at: Addr, host: Host, to: Addr, config: C.Config, hooked: bool, clock: int, born: map<Key, Birth>)
    requires HostKept(at, host, born) && Key(at, host.next) !in born
    ensures OutcomeKept(at, host, born, Begin(host, at, to, config, hooked, clock))
  {
    hide HostKept, C.Connect, Packets, Proper, NetKept;
    UnmovedIsKept(at, host, host, born);
    if host.next != ID_LIMIT {
      IdSpent(at, host, host.notices, born);
      UnmovedIsKept(at, host, host.(next := host.next + 1), born);
      if C.Unsigned(config) && C.Prepare(config) != C.Unacceptable {
        var key := Key(to, host.next);
        var c := C.Connect(host.next, C.Prepare(config).config, hooked, clock);
        InitiatorIsProper(host.next, C.Prepare(config).config, hooked, clock);
        var later := born + map[Key(at, host.next) := Initiated(to)];
        HostLater(at, host, born, later);
        NewcomerKept(at, host, key, c, Begin(host, at, to, config, hooked, clock).host, later);
        SendsGenuinely(later, at, key, host.version, c);
      }
    }
  }

  lemma IdSpent(at: Addr, host: Host, notices: seq<Key>, born: map<Key, Birth>)
    requires HostKept(at, host, born) && host.next != ID_LIMIT
    ensures 0 < host.next < ID_LIMIT
    ensures HostKept(at, host.(next := host.next + 1), born)
    ensures HostKept(at, host.(next := host.next + 1, notices := notices), born)
  {
    hide Proper, Known;
  }

  lemma InitiatorIsProper(id: int, config: C.Config, hooked: bool, clock: int)
    requires C.Usable(config)
    ensures var c := C.Connect(id, config, hooked, clock);
      && Proper(c) && c.isInitiator && c.localId == id && c.peerId == 0 && c.log == [C.SentConnect]
  {
    hide C.RefreshTimer, C.Awake;
    C.BirthWakes(id, 0, config, hooked, clock);
    var c := C.New(true, id, 0, config, hooked, clock).(lastCtrl := clock, state := C.Connecting);
    C.RefreshFrame(c, clock);
    C.RefreshFrame(C.Logged(C.RefreshTimer(c, clock).(lastCtrl := clock), C.SentConnect), clock);
    assert c.log + [C.SentConnect] == [C.SentConnect];
  }

  lemma NewcomerKept(at: Addr, host: Host, key: Key, c: C.Conn, after: Host, born: map<Key, Birth>)
    requires HostKept(at, host, born) && host.next < ID_LIMIT && key.id == host.next && Proper(c) && Known(born, at, key, c)
    requires after == if c.isInitiator then host.(next := host.next + 1, conns := host.conns[key := c])
      else host.(next := host.next + 1, conns := host.conns[key := c], notices := after.notices,
                 passive := host.passive[Key(key.addr, c.peerId) := key.id])
    requires !c.isInitiator ==> Key(key.addr, c.peerId) !in host.passive
    ensures HostKept(at, after, born)
  {
    hide Proper, Known;
  }

  lemma AckKeeps(at: Addr, host: Host, p: Packet, clock: int, born: map<Key, Birth>)
    requires HostKept(at, host, born) && p.AckPacket? && p.to == at && Genuine(born, p)
    ensures OutcomeKept(at, host, born, HandleAck(host, p, clock))
  {
    hide Proper, C.HandleConnectAck, C.Usable, Settle;
    var key := Key(p.from, p.dest);
    UnmovedIsKept(at, host, host, born);
    if p.dest != 0 && key in host.conns && C.Usable(host.conns[key].config) {
      var c := host.conns[key];
      var ok := p.version == host.version && p.result == OK;
      var why := if p.version != host.version || p.result == BAD_VERSION then C.VERSION else C.REJECTED;
      AnswerKeepsProper(c, p.source, ok, why, clock);
      var d := C.HandleConnectAck(c, p.source, ok, why, clock);
      SettleKeeps(at, host, key, d, born);
      SettleKeepsNext(host, key, d);
      UnmovedIsKept(at, host, Settle(host, key, d), born);
    }
  }

  lemma MeetKeeps(
    at: Addr, host: Host, p: Packet, config: C.Config, hooked: bool, verdict: int, clock: int, born: map<Key, Birth>)
    requires HostKept(at, host, born) && Key(at, host.next) !in born && host.next != ID_LIMIT
    requires p.ConnectPacket? && p.to == at && Genuine(born, p) && C.Usable(config) && Key(p.from, p.source) !in host.passive
    ensures OutcomeKept(at, host, born, Meet(host, at, p, config, hooked, verdict, clock))
  {
    hide HostKept, Packets, Proper, NetKept, C.NoteReceive, C.Admitted, C.Usable;
    var key := Key(p.from, host.next);
    var later := born + map[Key(at, host.next) := MadeFor(p.from, p.source, verdict == OK)];
    var c := C.Met(host.next, p.source, config, hooked, clock);
    AcceptorIsProper(host.next, p.source, config, hooked, clock);
    HostLater(at, host, born, later);
    IdSpent(at, host, host.notices + [Key(p.from, p.source)], later);
    if verdict == OK {
      var d := C.Admitted(c, clock);
      NewcomerKept(at, host, key, d, Meet(host, at, p, config, hooked, verdict, clock).host, later);
      SendsGenuinely(later, at, key, host.version, d);
    } else {
      SendsGenuinely(later, at, key, host.version, C.Logged(c, C.SentConnectAck(verdict)));
    }
  }

  lemma AcceptorIsProper(id: int, peerId: int, config: C.Config, hooked: bool, clock: int)
    requires C.Usable(config) && peerId != 0
    ensures var c := C.Met(id, peerId, config, hooked, clock);
      && !c.isInitiator && c.localId == id && c.peerId == peerId && c.log == [] && C.Usable(c.config)
      && var d := C.Admitted(c, clock);
         Proper(d) && !d.isInitiator && d.localId == id && d.peerId == peerId && C.SentConnect !in d.log
  {
    hide C.Awake, C.SetState, C.NoteReceive;
    C.BirthWakes(id, peerId, config, hooked, clock);
    var b := C.New(false, id, peerId, config, hooked, clock);
    ReceiveIsSteady(b, clock, false);
    var c := C.NoteReceive(b, clock, false);
    C.AdmissionEvolves(c, clock);
    ConnectedLog(c, clock);
  }

  lemma ConnectedLog(c: C.Conn, clock: int)
    requires C.Usable(c.config) && c.log == []
    ensures var d := C.SetState(c, C.Connected, clock);
      C.SentConnect !in d.log && d.isInitiator == c.isInitiator && d.localId == c.localId
  {
    hide C.RefreshTimer;
    C.RefreshFrame(c.(state := C.Connected), clock);
  }

  lemma AnsweringKeeps(at: Addr, host: Host, key: Key, c: C.Conn, result: int, born: map<Key, Birth>)
    requires HostKept(at, host, born) && key in host.conns && !host.conns[key].isInitiator
    requires Proper(c) && Steady(host.conns[key], c)
    ensures OutcomeKept(at, host, born, Answer(host, at, key, c, result))
  {
    hide Proper, Packets;
    var d := C.Logged(c, C.SentConnectAck(result));
    StillProper(c, result);
    StaysKnown(born, at, key, host.conns[key], c);
    SettleKeeps(at, host, key, d, born);
    SendsGenuinely(born, at, key, host.version, d);
    assert born + map[] == born;
  }

  lemma StillProper(c: C.Conn, result: int)
    requires Proper(c) && !c.isInitiator
    ensures Proper(C.Logged(c, C.SentConnectAck(result)))
  {
  }

  lemma ReceiveKeepsProper(c: C.Conn, clock: int)
    requires Proper(c)
    ensures C.Usable(c.config) && Proper(C.NoteReceive(c, clock, false)) && Steady(c, C.NoteReceive(c, clock, false))
  {
    hide C.Awake, C.NoteReceive;
    C.AwakeIsUsable(c);
    ReceiveIsSteady(c, clock, false);
    C.ReceiveWakes(c, clock, false);
  }

  lemma ConnectKeeps(
    at: Addr, host: Host, p: Packet, config: C.Config, hooked: bool, verdict: int, clock: int, born: map<Key, Birth>)
    requires HostKept(at, host, born) && Key(at, host.next) !in born
    requires p.ConnectPacket? && p.to == at && Genuine(born, p) && C.Usable(config)
    ensures OutcomeKept(at, host, born, HandleConnect(host, at, p, config, hooked, verdict, clock))
  {
    hide Answer, Meet, Proper, Known, OutcomeKept, C.NoteReceive, C.Usable;
    var known := Key(p.from, p.source);
    UnmovedIsKept(at, host, host, born);
    if known in host.passive {
      var key := Key(p.from, host.passive[known]);
      var c := host.conns[key];
      ReceiveKeepsProper(c, clock);
      AnsweringKeeps(at, host, key, c, BAD_VERSION, born);
      AnsweringKeeps(at, host, key, C.NoteReceive(c, clock, false), OK, born);
    } else if p.version == host.version && host.next != ID_LIMIT {
      MeetKeeps(at, host, p, config, hooked, verdict, clock, born);
    }
  }

  lemma NextKeeps(s: System, step: Step)
    requires Inv(s)
    ensures Inv(Next(s, step))
  {
    hide HostKept, OutcomeKept, Begin, Act, HandleConnect, HandleAck, C.Usable, Genuine;
    if step.at in s.hosts {
      var at, host := step.at, s.hosts[step.at];
      assert Key(at, host.next) !in s.born;
      UnmovedIsKept(at, host, host, s.born);
      match step {
        case Begins(_, to, config, hooked, clock) => BeginKeeps(at, host, to, config, hooked, clock, s.born);
        case Acts(_, key, op, clock) => ActKeeps(at, host, key, op, clock, s.born);
        case ConnectArrives(_, p, config, hooked, verdict, clock) =>
          if p.ConnectPacket? && p in s.net && p.to == at && C.Usable(config) {
            ConnectKeeps(at, host, p, config, hooked, verdict, clock, s.born);
          }
        case AckArrives(_, p, clock) =>
          if p.AckPacket? && p in s.net && p.to == at {
            AckKeeps(at, host, p, clock, s.born);
          }
      }
      OneHostMoves(s, at, Event(host, step, s.net));
    }
  }

  lemma {:induction false} RunsKeepInv(s: System, run: seq<Step>)
    requires Init(s)
    ensures Inv(After(s, run))
  {
    hide Next;
    if run == [] {
    } else {
      RunsKeepInv(s, run[..|run| - 1]);
      NextKeeps(After(s, run[..|run| - 1]), run[|run| - 1]);
    }
  }

  // Theorems.

  /** A connected initiator at `at`. */
  ghost predicate ConnectedTo(s: System, at: Addr, key: Key) {
    at in s.hosts && key in s.hosts[at].conns
    && s.hosts[at].conns[key].isInitiator && s.hosts[at].conns[key].state == C.Connected
  }

  /** A connected initiator's peer identifier names a connection that its peer made for exactly it, and accepted. */
  lemma HandshakeAgrees(s: System, run: seq<Step>, at: Addr, key: Key)
    requires Init(s) && ConnectedTo(After(s, run), at, key)
    ensures var t := After(s, run); var c := t.hosts[at].conns[key];
      c.localId == key.id && c.peerId != 0 && Made(t.born, key.addr, c.peerId, at, key.id)
  {
    hide After, Init;
    RunsKeepInv(s, run);
    var host := After(s, run).hosts[at];
    assert HostKept(at, host, After(s, run).born);
  }

  /** No two connected initiators, of one engine or of several, share a peer's identifier. */
  lemma PeersAreNotShared(s: System, run: seq<Step>, at: Addr, key: Key, at': Addr, key': Key)
    requires Init(s) && ConnectedTo(After(s, run), at, key) && ConnectedTo(After(s, run), at', key')
    requires key.addr == key'.addr
    requires After(s, run).hosts[at].conns[key].peerId == After(s, run).hosts[at'].conns[key'].peerId
    ensures at == at' && key == key'
  {
    hide After, Init;
    HandshakeAgrees(s, run, at, key);
    HandshakeAgrees(s, run, at', key');
  }

  function Count(notices: seq<Key>, known: Key): nat {
    if notices == [] then 0 else Count(notices[..|notices| - 1], known) + if notices[|notices| - 1] == known then 1 else 0
  }

  /** Connections that `at` ever made for the initiator `known`. */
  ghost function MadeEver(born: map<Key, Birth>, at: Addr, known: Key): set<Key> {
    set k | k in born && k.addr == at && IsFor(born[k], known)
  }

  ghost predicate Lives(s: System, at: Addr, known: Key) {
    at in s.hosts && known in s.hosts[at].passive
  }

  /** The passive connection for `known` is there before every step of the run. */
  ghost predicate LivesThroughout(s: System, at: Addr, known: Key, run: seq<Step>) {
    if run == [] then true
    else Lives(After(s, run[..|run| - 1]), at, known) && LivesThroughout(s, at, known, run[..|run| - 1])
  }

  /** The application is asked exactly when a CONNECT of the right version finds no connection and an identifier is left. */
  lemma AskedExactlyWhenNew(host: Host, self: Addr, p: Packet, config: C.Config, hooked: bool, verdict: int, clock: int)
    requires p.ConnectPacket? && C.Usable(config)
    ensures var o := HandleConnect(host, self, p, config, hooked, verdict, clock);
      var unknown := Key(p.from, p.source) !in host.passive && p.version == host.version && host.next != ID_LIMIT;
      && o.host.notices == host.notices + (if unknown then [Key(p.from, p.source)] else [])
      && o.host.next == host.next + (if unknown then 1 else 0)
      && o.births == if unknown then map[Key(self, host.next) := MadeFor(p.from, p.source, verdict == OK)] else map[]
  {
    hide Packets, C.NoteReceive, C.Admitted, C.Logged;
  }

  /** A CONNECT that is known is answered again if the connection is up, or with a version error, and otherwise ignored. */
  lemma KnownIsAnsweredAgain(
    at: Addr, host: Host, born: map<Key, Birth>, p: Packet, config: C.Config, hooked: bool, verdict: int, clock: int)
    requires HostKept(at, host, born) && p.ConnectPacket? && C.Usable(config) && Key(p.from, p.source) in host.passive
    ensures var o := HandleConnect(host, at, p, config, hooked, verdict, clock);
      var id := host.passive[Key(p.from, p.source)]; var key := Key(p.from, id);
      && key in host.conns && o.host.conns.Keys == host.conns.Keys && o.host.passive == host.passive
      && (p.version != host.version ==> AckPacket(at, p.from, p.source, id, host.version, BAD_VERSION) in o.out)
      && (p.version == host.version && host.conns[key].state == C.Connected ==>
            AckPacket(at, p.from, p.source, id, host.version, OK) in o.out)
      && (p.version == host.version && host.conns[key].state != C.Connected ==> o == Unmoved(host))
  {
    hide C.Awake, C.NoteReceive, C.Usable;
    var id := host.passive[Key(p.from, p.source)];
    var c := host.conns[Key(p.from, id)];
    assert Proper(c) && Known(born, at, Key(p.from, id), c);
    ReceiveKeepsProper(c, clock);
    AnswerIsSent(host, at, Key(p.from, id), c, BAD_VERSION);
    AnswerIsSent(host, at, Key(p.from, id), C.NoteReceive(c, clock, false), OK);
  }

  lemma AnswerIsSent(host: Host, at: Addr, key: Key, c: C.Conn, result: int)
    requires key in host.conns
    ensures var o := Answer(host, at, key, c, result);
      AckPacket(at, key.addr, c.peerId, c.localId, host.version, result) in o.out && o.host.conns.Keys == host.conns.Keys
  {
    assert C.SentConnectAck(result) in C.Logged(c, C.SentConnectAck(result)).log;
  }

  /** A refused CONNECT is answered with the verdict and nothing else, and leaves no connection behind. */
  lemma RefusalIsAnswered(host: Host, at: Addr, p: Packet, config: C.Config, hooked: bool, verdict: int, clock: int)
    requires p.ConnectPacket? && p.source != 0 && C.Usable(config) && verdict != OK && p.version == host.version
    requires Key(p.from, p.source) !in host.passive && host.next != ID_LIMIT
    ensures var o := HandleConnect(host, at, p, config, hooked, verdict, clock);
      && o.host.conns == host.conns && o.host.passive == host.passive
      && o.out == {AckPacket(at, p.from, p.source, host.next, host.version, verdict)}
  {
    hide C.NoteReceive, C.Usable, C.Admitted;
    AcceptorIsProper(host.next, p.source, config, hooked, clock);
    var c := C.Met(host.next, p.source, config, hooked, clock);
    assert C.Logged(c, C.SentConnectAck(verdict)).log == [C.SentConnectAck(verdict)];
  }

  /** An answer matters to an initiator still connecting, and decides: connected to the answerer, or gone. */
  lemma AnswersDecide(at: Addr, host: Host, born: map<Key, Birth>, p: Packet, clock: int)
    requires HostKept(at, host, born) && p.AckPacket? && p.dest != 0 && p.source != 0 && Key(p.from, p.dest) in host.conns
    ensures var key := Key(p.from, p.dest); var o := HandleAck(host, p, clock);
      if host.conns[key].state != C.Connecting then o.host == host
      else if p.version == host.version && p.result == OK
      then key in o.host.conns && o.host.conns[key].state == C.Connected && o.host.conns[key].peerId == p.source
      else key !in o.host.conns
  {
    hide C.RefreshTimer, C.Awake;
    var c := host.conns[Key(p.from, p.dest)];
    assert Proper(c);
    C.AwakeIsUsable(c);
    assert host.conns[Key(p.from, p.dest) := c] == host.conns;
    var d := c.(lastRecv := C.Clock.Max(c.lastRecv, clock), peerId := p.source, state := C.Connected);
    C.RefreshFrame(d, clock);
  }

  /** An event where `known` has its connection neither asks about it again nor makes another. */
  lemma EventSparesKnown(host: Host, step: Step, net: set<Packet>, known: Key)
    requires known in host.passive
    ensures var o := Event(host, step, net);
      && Count(o.host.notices, known) == Count(host.notices, known)
      && (forall k | k in o.births :: k == Key(step.at, host.next) && !IsFor(o.births[k], known))
      && (known in o.host.passive ==> o.host.passive[known] == host.passive[known])
  {
    hide Packets, C.Apply, C.Connect, C.Usable, HandleConnect, HandleAck, C.HandleConnectAck;
    match step {
      case ConnectArrives(at, p, config, hooked, verdict, clock) =>
        if p.ConnectPacket? && p in net && p.to == at && C.Usable(config) {
          AskedExactlyWhenNew(host, at, p, config, hooked, verdict, clock);
          CountOneMore(host.notices, Key(p.from, p.source), known);
          ConnectSparesPassive(host, at, p, config, hooked, verdict, clock, known);
        }
      case AckArrives(at, p, clock) =>
        if p.AckPacket? && p in net && p.to == at {
          AckSparesPassive(host, p, clock, known);
        }
      case _ =>
    }
  }

  lemma CountOneMore(notices: seq<Key>, k: Key, known: Key)
    ensures Count(notices + [k], known) == Count(notices, known) + if k == known then 1 else 0
    ensures Count(notices + [], known) == Count(notices, known)
  {
    assert (notices + [k])[..|notices|] == notices;
    assert notices + [] == notices;
  }

  lemma ConnectSparesPassive(
    host: Host, self: Addr, p: Packet, config: C.Config, hooked: bool, verdict: int, clock: int, known: Key)
    requires p.ConnectPacket? && C.Usable(config) && known in host.passive
    ensures var o := HandleConnect(host, self, p, config, hooked, verdict, clock);
      known in o.host.passive && o.host.passive[known] == host.passive[known]
  {
    hide Packets, C.NoteReceive, C.Admitted, C.Logged;
  }

  lemma AckSparesPassive(host: Host, p: Packet, clock: int, known: Key)
    requires p.AckPacket? && known in host.passive
    ensures var o := HandleAck(host, p, clock);
      && o.host.notices == host.notices && o.births == map[]
      && (known in o.host.passive ==> o.host.passive[known] == host.passive[known])
  {
    hide C.HandleConnectAck;
  }

  lemma StepSparesKnown(s: System, step: Step, at: Addr, known: Key)
    requires Inv(s) && Lives(s, at, known)
    ensures var t := Next(s, step);
      && at in t.hosts && Count(t.hosts[at].notices, known) == Count(s.hosts[at].notices, known)
      && MadeEver(t.born, at, known) == MadeEver(s.born, at, known)
      && (Lives(t, at, known) ==> t.hosts[at].passive[known] == s.hosts[at].passive[known])
  {
    hide Event, HostKept, NetKept, Count;
    if step.at == at {
      EventSparesKnown(s.hosts[at], step, s.net, known);
    } else if step.at in s.hosts {
      EventsAreLocal(s.hosts[step.at], step, s.net);
    }
  }

  lemma EventsAreLocal(host: Host, step: Step, net: set<Packet>)
    ensures forall k | k in Event(host, step, net).births :: k.addr == step.at
  {
    hide Packets, Settle, C.Apply, C.Connect, C.Usable, C.HandleConnectAck, C.NoteReceive, C.Admitted, C.Logged;
  }

  /**
    While a passive connection lives, no retransmitted or duplicated CONNECT
    makes another for the same initiator or has the application asked again.
   */
  lemma {:induction false} RetransmissionsMakeNothing(s: System, run: seq<Step>, more: seq<Step>, at: Addr, known: Key)
    requires Init(s) && LivesThroughout(After(s, run), at, known, more) && Lives(After(s, run), at, known)
    ensures var t, u := After(s, run), After(After(s, run), more);
      && at in u.hosts && Count(u.hosts[at].notices, known) == Count(t.hosts[at].notices, known)
      && MadeEver(u.born, at, known) == MadeEver(t.born, at, known)
      && (Lives(u, at, known) ==> u.hosts[at].passive[known] == t.hosts[at].passive[known])
  {
    hide Next, MadeEver, Count;
    if more != [] {
      var front := more[..|more| - 1];
      RetransmissionsMakeNothing(s, run, front, at, known);
      RunsJoin(s, run, front);
      RunsKeepInv(s, run + front);
      StepSparesKnown(After(After(s, run), front), more[|more| - 1], at, known);
    }
  }

  lemma {:induction false} RunsJoin(s: System, run: seq<Step>, more: seq<Step>)
    ensures After(After(s, run), more) == After(s, run + more)
  {
    hide Next;
    if more == [] {
      assert run + [] == run;
    } else {
      RunsJoin(s, run, more[..|more| - 1]);
      assert (run + more)[..|run + more| - 1] == run + more[..|more| - 1];
    }
  }

  /** Every passive connection was made for a connection that its peer had really initiated towards this engine. */
  lemma AcceptedWereInitiated(s: System, run: seq<Step>, at: Addr, key: Key)
    requires Init(s)
    requires var t := After(s, run); at in t.hosts && key in t.hosts[at].conns && !t.hosts[at].conns[key].isInitiator
    ensures var t := After(s, run); var peer := Key(key.addr, t.hosts[at].conns[key].peerId);
      peer in t.born && t.born[peer] == Initiated(at)
  {
    hide After, Init;
    RunsKeepInv(s, run);
    var t := After(s, run);
    assert HostKept(at, t.hosts[at], t.born);
    assert Known(t.born, at, key, t.hosts[at].conns[key]);
  }

  // When datagrams do get through, the handshake succeeds.

  ghost predicate ConnectedAs(s: System, at: Addr, remote: Addr, id: int, peerId: int) {
    && at in s.hosts && Key(remote, id) in s.hosts[at].conns
    && var c := s.hosts[at].conns[Key(remote, id)];
       c.state == C.Connected && c.localId == id && c.peerId == peerId && !c.closed
  }

  /** One CONNECT, its acceptance and one answer connect both ends to each other, whatever happened before. */
  lemma HandshakeCompletes(
    s: System, a: Addr, b: Addr, config: C.Config, theirs: C.Config, hooked: bool, t0: int, t1: int, t2: int)
    requires Inv(s) && a in s.hosts && b in s.hosts && a != b && s.hosts[a].version == s.hosts[b].version
    requires s.hosts[a].next < ID_LIMIT && s.hosts[b].next < ID_LIMIT
    requires C.Unsigned(config) && C.Prepare(config) != C.Unacceptable && C.Usable(theirs)
    ensures var i, j, v := s.hosts[a].next, s.hosts[b].next, s.hosts[a].version;
      var t := Next(s, Begins(a, b, config, hooked, t0));
      var u := Next(t, ConnectArrives(b, ConnectPacket(a, b, i, v), theirs, hooked, OK, t1));
      var w := Next(u, AckArrives(a, AckPacket(b, a, i, j, v, OK), t2));
      ConnectedAs(w, a, b, i, j) && ConnectedAs(w, b, a, j, i)
  {
    hide Event, C.Usable, C.Unsigned, C.Prepare, Inv;
    var i, j, v := s.hosts[a].next, s.hosts[b].next, s.hosts[a].version;
    var t := Next(s, Begins(a, b, config, hooked, t0));
    FirstStep(s, a, b, config, hooked, t0);
    NewIsUnknown(s, a, b);
    var p := ConnectPacket(a, b, i, v);
    var u := Next(t, ConnectArrives(b, p, theirs, hooked, OK, t1));
    SecondStep(t.hosts[b], t.net, b, p, theirs, hooked, t1);
    ThirdStep(u.hosts[a], u.net, a, AckPacket(b, a, i, j, v, OK), t2);
  }

  lemma NewIsUnknown(s: System, a: Addr, b: Addr)
    requires Inv(s) && a in s.hosts && b in s.hosts
    ensures Key(a, s.hosts[a].next) !in s.hosts[b].passive && s.hosts[a].next != 0 && s.hosts[b].next != 0
  {
    assert HostKept(b, s.hosts[b], s.born) && HostKept(a, s.hosts[a], s.born);
    forall known | known in s.hosts[b].passive ensures known in s.born {
      var key := Key(known.addr, s.hosts[b].passive[known]);
      assert Known(s.born, b, key, s.hosts[b].conns[key]);
    }
  }

  lemma FirstStep(s: System, a: Addr, b: Addr, config: C.Config, hooked: bool, clock: int)
    requires a in s.hosts && s.hosts[a].next < ID_LIMIT && C.Unsigned(config) && C.Prepare(config) != C.Unacceptable
    ensures var o := Event(s.hosts[a], Begins(a, b, config, hooked, clock), s.net); var i := s.hosts[a].next;
      && ConnectPacket(a, b, i, s.hosts[a].version) in o.out && Key(b, i) in o.host.conns
      && o.host.version == s.hosts[a].version
      && var c := o.host.conns[Key(b, i)];
         c.state == C.Connecting && !c.closed && c.localId == i && C.Usable(c.config)
  {
    hide C.Connect, C.Awake;
    var prepared := C.Prepare(config).config;
    InitiatorIsProper(s.hosts[a].next, prepared, hooked, clock);
    C.BirthWakes(s.hosts[a].next, 0, prepared, hooked, clock);
  }

  lemma SecondStep(host: Host, net: set<Packet>, at: Addr, p: Packet, config: C.Config, hooked: bool, clock: int)
    requires p.ConnectPacket? && p in net && p.to == at && p.version == host.version && p.source != 0
    requires C.Usable(config) && Key(p.from, p.source) !in host.passive && host.next < ID_LIMIT
    ensures var o := Event(host, ConnectArrives(at, p, config, hooked, OK, clock), net);
      && AckPacket(at, p.from, p.source, host.next, host.version, OK) in o.out
      && Key(p.from, host.next) in o.host.conns
      && var c := o.host.conns[Key(p.from, host.next)];
         c.state == C.Connected && !c.closed && c.localId == host.next && c.peerId == p.source
  {
    hide C.NoteReceive, C.Awake, C.SetState, C.Usable;
    AcceptorIsProper(host.next, p.source, config, hooked, clock);
    var c := C.Met(host.next, p.source, config, hooked, clock);
    C.BirthWakes(host.next, p.source, config, hooked, clock);
    C.AdmissionEvolves(c, clock);
    assert C.SentConnectAck(OK) in C.Admitted(c, clock).log;
  }

  lemma ThirdStep(host: Host, net: set<Packet>, at: Addr, p: Packet, clock: int)
    requires p.AckPacket? && p in net && p.to == at && p.version == host.version && p.result == OK
    requires p.dest != 0 && p.source != 0 && Key(p.from, p.dest) in host.conns
    requires var c := host.conns[Key(p.from, p.dest)];
      c.state == C.Connecting && !c.closed && c.localId == p.dest && C.Usable(c.config)
    ensures var o := Event(host, AckArrives(at, p, clock), net);
      && Key(p.from, p.dest) in o.host.conns
      && var c := o.host.conns[Key(p.from, p.dest)];
         c.state == C.Connected && !c.closed && c.localId == p.dest && c.peerId == p.source
  {
    hide C.RefreshTimer, C.Usable;
    var c := host.conns[Key(p.from, p.dest)];
    var d := c.(lastRecv := C.Clock.Max(c.lastRecv, clock), peerId := p.source, state := C.Connected);
    C.RefreshFrame(d, clock);
  }
}

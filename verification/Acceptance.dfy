/**
  An endpoint (module Input) answers a CONNECT as an engine of the handshake
  (module Handshake) does, so what is proved of the handshake between engines
  is about endpoints.
 */
module Acceptance {
  import opened Address
  import C = Conn
  import Clock = Stream
  import E = Engine
  import H = Handshake
  import I = Input
  import Steps = ConnSteps
  import Kcp
  import Wire

  /** Live connections by peer address and identifier. */
  function Table(conns: E.Conns, address: map<int, Addr>): map<H.Key, C.Conn> {
    map id | id in conns && id in address :: H.Key(address[id], id) := conns[id]
  }

  /** Live passive connections by peer. */
  function PassiveTable(conns: E.Conns, passive: map<I.Peer, int>): map<H.Key, int> {
    map p | p in passive && passive[p] in conns :: H.Key(p.addr, p.id) := passive[p]
  }

  /** An endpoint as the handshake sees it; `notices` are the calls of conn_connect_notify so far. */
  function HostOf(w: I.World, notices: seq<H.Key>): H.Host {
    H.Host(Wire.VERSION as int, w.next, Table(w.conns, w.address), PassiveTable(w.conns, w.passive), notices)
  }

  /** Every live connection knows its peer's address, is not finalised and has a usable configuration. */
  ghost predicate Reachable(w: I.World) {
    && (forall id | id in w.conns :: id in w.address && !w.conns[id].closed && C.Usable(w.conns[id].config))
    && (forall id | id in w.conns :: id < w.next)
  }

  lemma TableAt(conns: E.Conns, address: map<int, Addr>, key: H.Key)
    ensures key in Table(conns, address) <==> key.id in conns && key.id in address && address[key.id] == key.addr
    ensures key in Table(conns, address) ==> Table(conns, address)[key] == conns[key.id]
  {
    if key.id in conns && key.id in address && address[key.id] == key.addr {
      assert H.Key(address[key.id], key.id) in Table(conns, address);
    }
  }

  lemma PassiveAt(conns: E.Conns, passive: map<I.Peer, int>, key: H.Key)
    ensures var p := I.Peer(key.addr, key.id);
      && (key in PassiveTable(conns, passive) <==> p in passive && passive[p] in conns)
      && (key in PassiveTable(conns, passive) ==> PassiveTable(conns, passive)[key] == passive[p])
  {
    var p := I.Peer(key.addr, key.id);
    if p in passive && passive[p] in conns {
      assert H.Key(p.addr, p.id) in PassiveTable(conns, passive);
    }
  }

  /** A connection that is changed in place. */
  lemma TablePut(conns: E.Conns, address: map<int, Addr>, id: int, d: C.Conn)
    requires id in conns && id in address
    ensures Table(conns[id := d], address) == Table(conns, address)[H.Key(address[id], id) := d]
  {
    hide Table;
    var left, right := Table(conns[id := d], address), Table(conns, address)[H.Key(address[id], id) := d];
    forall k: H.Key ensures (k in left <==> k in right) && (k in left ==> left[k] == right[k]) {
      TableAt(conns, address, k);
      TableAt(conns[id := d], address, k);
    }
  }

  lemma PassivePut(conns: E.Conns, passive: map<I.Peer, int>, id: int, d: C.Conn)
    requires id in conns
    ensures PassiveTable(conns[id := d], passive) == PassiveTable(conns, passive)
  {
    hide PassiveTable;
    var left, right := PassiveTable(conns[id := d], passive), PassiveTable(conns, passive);
    forall k: H.Key ensures (k in left <==> k in right) && (k in left ==> left[k] == right[k]) {
      PassiveAt(conns, passive, k);
      PassiveAt(conns[id := d], passive, k);
    }
  }

  /** A connection that is new. */
  lemma TableNew(conns: E.Conns, address: map<int, Addr>, id: int, d: C.Conn, addr: Addr)
    requires id !in conns
    ensures Table(conns[id := d], address[id := addr]) == Table(conns, address)[H.Key(addr, id) := d]
    ensures Table(conns, address[id := addr]) == Table(conns, address)
  {
    hide Table;
    var left, right := Table(conns[id := d], address[id := addr]), Table(conns, address)[H.Key(addr, id) := d];
    var same, was := Table(conns, address[id := addr]), Table(conns, address);
    forall k: H.Key
      ensures (k in left <==> k in right) && (k in left ==> left[k] == right[k])
      ensures (k in same <==> k in was) && (k in same ==> same[k] == was[k])
    {
      TableAt(conns, address, k);
      TableAt(conns, address[id := addr], k);
      TableAt(conns[id := d], address[id := addr], k);
    }
  }

  lemma PassiveNew(conns: E.Conns, passive: map<I.Peer, int>, id: int, d: C.Conn, peer: I.Peer)
    requires id !in conns && (peer in passive ==> passive[peer] !in conns) && forall p | p in passive :: passive[p] != id
    ensures PassiveTable(conns[id := d], passive[peer := id]) == PassiveTable(conns, passive)[H.Key(peer.addr, peer.id) := id]
    ensures PassiveTable(conns, passive[peer := id]) == PassiveTable(conns, passive)
  {
    hide PassiveTable;
    var left, right := PassiveTable(conns[id := d], passive[peer := id]), PassiveTable(conns, passive)[H.Key(peer.addr, peer.id) := id];
    var same, was := PassiveTable(conns, passive[peer := id]), PassiveTable(conns, passive);
    forall k: H.Key
      ensures (k in left <==> k in right) && (k in left ==> left[k] == right[k])
      ensures (k in same <==> k in was) && (k in same ==> same[k] == was[k])
    {
      PassiveAt(conns, passive, k);
      PassiveAt(conns, passive[peer := id], k);
      PassiveAt(conns[id := d], passive[peer := id], k);
    }
  }

  /** The known peer's case. */
  lemma SameAnswerToKnown(
    a: I.World, b: I.World, peer: I.Peer, version: Kcp.byte, id: int, status: I.Status, f: I.Facts, config: C.Config,
    clock: int, self: Addr, notices: seq<H.Key>)
    requires Reachable(a) && I.PassiveKept(a) && C.Usable(config) && peer in a.passive && a.passive[peer] in a.conns
    requires I.ConnectMet(a, b, peer, version, id, status, f, config, clock)
    ensures HostOf(b, notices) == H.HandleConnect(
      HostOf(a, notices), self, H.ConnectPacket(peer.addr, self, peer.id, version as int), config, f.hooked, f.verdict, clock).host
  {
    hide C.RefreshTimer, Table, PassiveTable, C.Usable, I.Swept;
    var key := H.Key(peer.addr, id);
    PassiveAt(a.conns, a.passive, H.Key(peer.addr, peer.id));
    TableAt(a.conns, a.address, key);
    C.RefreshFrame(a.conns[id].(lastRecv := Clock.Max(a.conns[id].lastRecv, clock)), clock);
    TablePut(a.conns, a.address, id, b.conns[id]);
    PassivePut(a.conns, a.passive, id, b.conns[id]);
  }

  /** The case of a peer not heard from before. */
  lemma SameAnswerToNew(
    a: I.World, b: I.World, peer: I.Peer, version: Kcp.byte, id: int, status: I.Status, f: I.Facts, config: C.Config,
    clock: int, self: Addr, notices: seq<H.Key>)
    requires Reachable(a) && I.PassiveKept(a) && C.Usable(config) && f.memory
    requires !(peer in a.passive && a.passive[peer] in a.conns)
    requires I.ConnectMet(a, b, peer, version, id, status, f, config, clock)
    ensures var asked := version == Wire.VERSION && a.next != ID_LIMIT;
      HostOf(b, if asked then notices + [H.Key(peer.addr, peer.id)] else notices) == H.HandleConnect(
        HostOf(a, notices), self, H.ConnectPacket(peer.addr, self, peer.id, version as int), config, f.hooked, f.verdict, clock).host
  {
    hide C.Met, C.Admitted, Steps.TurnedDown, Table, PassiveTable, C.Usable;
    PassiveAt(a.conns, a.passive, H.Key(peer.addr, peer.id));
    if version == Wire.VERSION && a.next != ID_LIMIT {
      var c := C.Admitted(C.Met(id, peer.id, config, f.hooked, clock), clock);
      TableNew(a.conns, a.address, id, c, peer.addr);
      PassiveNew(a.conns, a.passive, id, c, peer);
    }
  }
}

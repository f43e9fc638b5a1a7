/**
  Two endpoints of one stream over a network that loses, duplicates and
  reorders datagrams but does not forge them.  The stream exists on one side
  first; the other side creates its end when the first payload arrives.
 */
module GracefulClose {
  import opened Sets
  import opened Timer
  import Kcp
  import SendPath
  import opened Stream
  import opened StreamRuns
  import opened StreamSteps

  datatype Side = Left | Right

  function Other(x: Side): Side {
    if x == Left then Right else Left
  }

  datatype Datagram = Data(packet: Kcp.Packet) | CloseMsg(reason: Reason) | AckMsg(reason: Reason)

  /**
    An end of the stream.  `peerClosed` records that a normal close from the
    peer reached it while it was open, `quit` that it left the drain that
    followed other than by reading: through a local close, a timeout, a forced
    close or the end of the connection.
   */
  datatype End = Absent | Present(s: Stream, peerClosed: bool, quit: bool)

  /** `net` holds every datagram ever sent, with its destination; any of them may arrive at any time, or never. */
  datatype System = System(left: End, right: End, net: set<(Side, Datagram)>)

  function At(sys: System, x: Side): End {
    if x == Left then sys.left else sys.right
  }

  function Put(sys: System, x: Side, e: End): System {
    if x == Left then sys.(left := e) else sys.(right := e)
  }

  function Session(e: End): Kcp.Session {
    if e.Absent? then Kcp.FRESH else e.s.kcp
  }

  /** The control datagrams that a stream's log says were sent. */
  function Wire(x: Side, log: seq<Event>): set<(Side, Datagram)> {
    (set e | e in log && e.SentClose? :: (Other(x), CloseMsg(e.reason))) +
    (set e | e in log && e.SentCloseAck? :: (Other(x), AckMsg(e.reason)))
  }

  datatype Env = Env(up: bool, now: int, clock: int, check: int)

  datatype Action =
    | Transmit(packet: Kcp.Packet)
    | PayloadArrives(packet: Kcp.Packet, part: Kcp.Packet, ok: bool)
    | FirstPayload(packet: Kcp.Packet, part: Kcp.Packet, ok: bool, id: int, config: Config, hooked: bool, accepted: bool)
    | AppReads(size: int, ok: bool)
    | AppSends(data: SendPath.Bytes, room: nat, flush: bool)
    | Operate(op: Control)

  /** Operations that leave KCP's queues alone. */
  datatype Control =
    | CloseArrives(reason: Reason)
    | CloseAckArrives(reason: Reason)
    | AppCloses
    | AppFinishesBatch
    | EngineFinishesBatch
    | AppConfigures(config: Config)
    | TimerFires
    | ConnectionCloses(reason: Reason)

  /** KCP sends segments it holds and acknowledges segments it has. */
  ghost predicate Emits(k: Kcp.Session, p: Kcp.Packet) {
    && (forall i | i in p.pushes :: 0 <= i < |k.sent| && p.pushes[i] == k.sent[i])
    && (forall i | i in p.acks :: i in k.arrived)
  }

  /** KCP may ignore part of what arrives, for instance beyond its window. */
  ghost predicate PartOf(part: Kcp.Packet, p: Kcp.Packet) {
    && (forall i | i in part.pushes :: i in p.pushes && p.pushes[i] == part.pushes[i])
    && part.acks <= p.acks
  }

  /** The stream a first payload creates: refused by the application, or fed the payload and kept unless KCP fails. */
  function Created(s: Stream, part: Kcp.Packet, ok: bool, accepted: bool, env: Env): Stream {
    if !accepted then Reject(s, env.up, env.clock, env.check)
    else
      var t := HandlePayload(s, Kcp.Input(s.kcp, part), ok, env.clock);
      if ok then t else Fail(t, env.up, env.clock, env.check)
  }

  function Operated(s: Stream, op: Control, env: Env): Stream {
    match op
    case CloseArrives(reason) => HandleClose(s, reason, env.up, env.clock, env.check)
    case CloseAckArrives(_) => HandleCloseAck(s)
    case AppCloses => Close(s, env.up, env.clock, env.check)
    case AppFinishesBatch => FinishBatch(s, env.up, env.clock)
    case EngineFinishesBatch => if s.inBatch then FinishBatch(s.(inBatch := false), env.up, env.clock) else s
    case AppConfigures(config) => SetConfig(s, config, env.up, env.clock, env.check)
    case TimerFires => FireTimer(s, env.up, env.now, env.clock, env.check)
    case ConnectionCloses(reason) => CloseInternal(s, reason)
  }

  /** The normal close of the peer finds the stream open. */
  predicate Meets(s: Stream, op: Control) {
    op == CloseArrives(NORMAL) && !s.closed && s.state == Open
  }

  /** The end after an operation, with its history kept up to date. */
  function Continue(e: End, op: Control, env: Env): End
    requires e.Present?
  {
    var t := Operated(e.s, op, env);
    Present(t, e.peerClosed || Meets(e.s, op), e.quit || (Draining(e.s) && !Draining(t)))
  }

  ghost predicate InFlight(op: Control, x: Side, net: set<(Side, Datagram)>) {
    match op
    case CloseArrives(reason) => (x, CloseMsg(reason)) in net
    case CloseAckArrives(reason) => (x, AckMsg(reason)) in net
    case _ => true
  }

  /** One step of the system, at side `x`. */
  ghost predicate Next(sys: System, x: Side, a: Action, env: Env, sys': System) {
    var e := At(sys, x);
    match a
    case Transmit(p) =>
      && e.Present? && !e.s.closed && KcpActive(e.s) && Emits(e.s.kcp, p)
      && sys' == sys.(net := sys.net + {(Other(x), Data(p))})
    case PayloadArrives(p, part, ok) =>
      && e.Present? && (x, Data(p)) in sys.net && PartOf(part, p)
      && sys' == Put(sys, x, e.(s := HandlePayload(e.s, Kcp.Input(e.s.kcp, part), ok, env.clock)))
    case FirstPayload(p, part, ok, id, config, hooked, accepted) =>
      && e.Absent? && (x, Data(p)) in sys.net && PartOf(part, p) && Acceptable(config)
      && var t := Created(New(id, false, config, hooked, env.up, env.clock, env.check), part, ok, accepted, env);
         sys' == Put(sys, x, Present(t, false, false)).(net := sys.net + Wire(x, t.log))
    case AppReads(size, ok) =>
      && e.Present?
      && sys' == Put(sys, x, e.(s := Recv(e.s, size, ok, env.clock)))
    case AppSends(data, room, flush) =>
      && e.Present?
      && sys' == Put(sys, x, e.(s := SendData(e.s, data, room, flush, env.up, env.clock, env.check)))
    case Operate(op) =>
      && e.Present? && InFlight(op, x, sys.net)
      && var f := Continue(e, op, env);
         sys' == Put(sys, x, f).(net := sys.net + Wire(x, f.s.log))
  }

  /** The application has just opened the stream on the left. */
  ghost predicate Init(sys: System) {
    && sys.right == Absent && sys.net == {}
    && sys.left.Present? && !sys.left.peerClosed && !sys.left.quit
    && exists id, config, hooked, up, clock, check ::
         Acceptable(config) && sys.left.s == New(id, true, config, hooked, up, clock, check)
  }

  // The invariant, for the direction `from` -> `to`.

  /** What arrived is what was sent, what was acknowledged arrived, and reads follow arrival. */
  ghost predicate Reliable(k: Kcp.Session, r: Kcp.Session) {
    && (forall i | i in r.arrived :: 0 <= i < |k.sent| && r.arrived[i] == k.sent[i])
    && (forall i | i in k.acked :: 0 <= i < |k.sent| && i in r.arrived)
    && 0 <= r.taken && (forall i | 0 <= i < r.taken :: i in r.arrived)
    && (forall m | m in k.sent :: m != [])
  }

  ghost predicate Honest(e: End) {
    e.Present? ==>
      && Shaped(e.s)
      && (SentClose(NORMAL) in e.s.log || AwaitingNormal(e.s) ==> !KcpActive(e.s) && Kcp.WaitSnd(e.s.kcp) == 0)
  }

  ghost predicate Announced(e: End) {
    e.Present? && SentClose(NORMAL) in e.s.log
  }

  /** In-flight datagrams are genuine. */
  ghost predicate Genuine(from: End, to: End, net: set<(Side, Datagram)>, y: Side) {
    && (forall p | (y, Data(p)) in net :: forall i | i in p.pushes ::
          0 <= i < |Session(from).sent| && p.pushes[i] == Session(from).sent[i])
    && (forall p | (Other(y), Data(p)) in net :: forall i | i in p.acks :: i in Session(to).arrived)
    && ((y, CloseMsg(NORMAL)) in net ==> Announced(from))
  }

  /** An end that drains does so because the peer announced, and a drain that ended by reading is complete. */
  ghost predicate DrainsFully(from: End, to: End) {
    to.Present? ==>
      && (Draining(to.s) ==> Announced(from))
      && (to.peerClosed && !to.quit ==>
            Announced(from) &&
            (Draining(to.s) || (to.s.phase == Finalize && to.s.kcp.taken == |Session(from).sent|)))
  }

  ghost predicate Flow(from: End, to: End, net: set<(Side, Datagram)>, y: Side) {
    Reliable(Session(from), Session(to)) && Honest(from) && Genuine(from, to, net, y) && DrainsFully(from, to)
  }

  ghost predicate Inv(sys: System) {
    Flow(sys.left, sys.right, sys.net, Right) && Flow(sys.right, sys.left, sys.net, Left)
  }

  // How each kind of step keeps it.

  lemma WireMembers(x: Side, log: seq<Event>)
    ensures forall p, y :: (y, Data(p)) !in Wire(x, log)
    ensures forall r :: (Other(x), CloseMsg(r)) in Wire(x, log) ==> SentClose(r) in log
    ensures forall r :: (x, CloseMsg(r)) !in Wire(x, log)
  {
  }

  ghost function Numbers(n: int): (r: set<int>)
    ensures forall i :: i in r <==> 0 <= i < n
    ensures 0 <= n ==> |r| == n
  {
    if n <= 0 then {} else Numbers(n - 1) + {n - 1}
  }

  /** A full count of acknowledgements means that everything arrived. */
  lemma AllArrived(k: Kcp.Session, r: Kcp.Session)
    requires Reliable(k, r) && Kcp.WaitSnd(k) == 0
    ensures forall i | 0 <= i < |k.sent| :: i in r.arrived
  {
    SubsetOfSameSize(k.acked, Numbers(|k.sent|));
  }

  lemma {:induction false} SubsetOfSameSize<T>(a: set<T>, b: set<T>)
    requires a <= b && |a| == |b|
    ensures a == b
  {
    if x :| x in b && x !in a {
      assert a <= b - {x};
      SubsetSize(a, b - {x});
      assert false;
    }
  }

  lemma ControlKeeps(e: End, t: Stream, o: End, net: set<(Side, Datagram)>, x: Side)
    requires e.Present? && Careful(e.s, t)
    requires Flow(e, o, net, Other(x)) && Flow(o, e, net, x)
    ensures var f := Present(t, e.peerClosed, e.quit || (Draining(e.s) && !Draining(t)));
      var net' := net + Wire(x, t.log);
      Flow(f, o, net', Other(x)) && Flow(o, f, net', x)
  {
    WireMembers(x, t.log);
  }

  /** The peer's normal close meets an open stream. */
  lemma PeerCloseKeeps(e: End, o: End, net: set<(Side, Datagram)>, x: Side, env: Env)
    requires e.Present? && Meets(e.s, CloseArrives(NORMAL)) && (x, CloseMsg(NORMAL)) in net
    requires Flow(e, o, net, Other(x)) && Flow(o, e, net, x)
    ensures var f := Continue(e, CloseArrives(NORMAL), env);
      var net' := net + Wire(x, f.s.log);
      Flow(f, o, net', Other(x)) && Flow(o, f, net', x)
  {
    hide HandleClose;
    HandleCloseIsCareful(e.s, NORMAL, env.up, env.clock, env.check);
    WireMembers(x, HandleClose(e.s, NORMAL, env.up, env.clock, env.check).log);
    AllArrived(Session(o), e.s.kcp);
    DrainedIsComplete(Session(o), e.s.kcp);
  }

  /** When everything arrived, having nothing to read means having read everything. */
  lemma DrainedIsComplete(k: Kcp.Session, r: Kcp.Session)
    requires Reliable(k, r) && forall i | 0 <= i < |k.sent| :: i in r.arrived
    ensures Kcp.PeekSize(r) <= 0 ==> r.taken == |k.sent|
  {
    assert r.taken in r.arrived ==> r.arrived[r.taken] in k.sent;
    assert r.taken > |k.sent| ==> |k.sent| in r.arrived;
  }

  lemma PayloadFrame(s: Stream, kcp: Kcp.Session, ok: bool, clock: int)
    requires Shaped(s)
    ensures var t := HandlePayload(s, kcp, ok, clock);
      && Shaped(t) && t.state == s.state && t.phase == s.phase && t.closed == s.closed && t.reason == s.reason
      && t.kcp == (if s.closed || !KcpActive(s) then s.kcp else kcp)
      && (SentClose(NORMAL) in t.log <==> SentClose(NORMAL) in s.log)
      && (forall r :: SentClose(r) in t.log <==> SentClose(r) in s.log)
  {
    hide Accumulate;
    if !s.closed && KcpActive(s) {
      AccumulateChanges(s.(kcp := kcp), clock);
    }
  }

  lemma AccumulateChanges(s: Stream, clock: int)
    requires Shaped(s) && !s.closed
    ensures var t := Accumulate(s, clock);
      t == s.(pending := t.pending, inBatch := t.inBatch, alarm := t.alarm) && Shaped(t)
  {
    hide Schedule;
    TimerFrame(s, true, clock, clock);
    TimerFrame(s.(pending := s.pending + 1, inBatch := false), true, clock, clock);
  }

  /** Genuine input keeps both directions reliable. */
  lemma InputIsReliable(k: Kcp.Session, r: Kcp.Session, part: Kcp.Packet)
    requires Reliable(k, r) && Reliable(r, k)
    requires forall i | i in part.pushes :: 0 <= i < |r.sent| && part.pushes[i] == r.sent[i]
    requires forall i | i in part.acks :: i in r.arrived
    ensures Reliable(Kcp.Input(k, part), r) && Reliable(r, Kcp.Input(k, part))
  {
  }

  lemma PayloadKeeps(
    e: End, p: Kcp.Packet, part: Kcp.Packet, ok: bool, o: End, net: set<(Side, Datagram)>, x: Side, clock: int)
    requires e.Present? && (x, Data(p)) in net && PartOf(part, p)
    requires Flow(e, o, net, Other(x)) && Flow(o, e, net, x)
    ensures var f := e.(s := HandlePayload(e.s, Kcp.Input(e.s.kcp, part), ok, clock));
      Flow(f, o, net, Other(x)) && Flow(o, f, net, x)
  {
    hide HandlePayload, Reliable, Shaped;
    assert Other(Other(x)) == x;
    InputIsReliable(e.s.kcp, Session(o), part);
    PayloadFrame(e.s, Kcp.Input(e.s.kcp, part), ok, clock);
  }

  lemma RecvFrame(s: Stream, size: int, ok: bool, clock: int)
    requires Shaped(s)
    ensures var t := Recv(s, size, ok, clock);
      && Shaped(t) && t.state == s.state && t.closed == s.closed && t.log == s.log
      && if t.kcp == s.kcp then t.phase == s.phase && t.reason == s.reason
         else Kcp.Readable(s.kcp) && t.kcp == Kcp.Recv(s.kcp) &&
              (if Draining(s) && Kcp.PeekSize(t.kcp) <= 0 then t.phase == Finalize
               else t.phase == s.phase && t.reason == s.reason)
  {
    hide Schedule;
    var t := s.(kcp := Kcp.Recv(s.kcp));
    TimerFrame(ClearPending(t.(phase := Finalize)), true, clock, clock);
  }

  lemma ReadIsReliable(k: Kcp.Session, r: Kcp.Session)
    requires Reliable(k, r) && Reliable(r, k)
    ensures Kcp.Readable(r) ==> Reliable(k, Kcp.Recv(r)) && Reliable(Kcp.Recv(r), k)
  {
  }

  lemma ReadKeeps(e: End, size: int, ok: bool, o: End, net: set<(Side, Datagram)>, x: Side, clock: int)
    requires e.Present? && Flow(e, o, net, Other(x)) && Flow(o, e, net, x)
    ensures var f := e.(s := Recv(e.s, size, ok, clock));
      Flow(f, o, net, Other(x)) && Flow(o, f, net, x)
  {
    hide Recv, Reliable, Shaped;
    RecvFrame(e.s, size, ok, clock);
    ReadIsReliable(Session(o), e.s.kcp);
    if Draining(e.s) {
      AllArrived(Session(o), e.s.kcp);
      if Kcp.Readable(e.s.kcp) {
        DrainedIsComplete(Session(o), Kcp.Recv(e.s.kcp));
      }
    }
  }

  lemma SendFrame(s: Stream, size: int, kcp: Kcp.Session, sent: int, flush: bool, env: Env)
    requires Shaped(s)
    ensures var t := Send(s, size, kcp, sent, flush, env.up, env.clock, env.check);
      && Shaped(t) && t.state == s.state && t.phase == s.phase && t.closed == s.closed && t.reason == s.reason
      && t.log == s.log && (t.kcp == s.kcp || (CanSend(s, env.up) && t.kcp == kcp))
  {
    hide Accumulate, Schedule;
    if CanSend(s, env.up) {
      var t := s.(kcp := kcp, upSent := s.upSent + sent);
      AccumulateChanges(t, env.clock);
      TimerFrame(ClearPending(t), true, env.clock, env.check);
    }
  }

  lemma SendKeepsFlow(
    e: End, data: SendPath.Bytes, room: nat, flush: bool, o: End, net: set<(Side, Datagram)>, x: Side, env: Env)
    requires e.Present?
    requires Flow(e, o, net, Other(x)) && Flow(o, e, net, x)
    ensures var f := e.(s := SendData(e.s, data, room, flush, env.up, env.clock, env.check));
      Flow(f, o, net, Other(x)) && Flow(o, f, net, x)
  {
    hide Send, Shaped, SendPath.Accepted, SendPath.Flatten;
    if e.s.config.mss > 0 {
      var got := SendPath.Accepted(data, e.s.config.mss, room);
      SendPath.AcceptedIsSound(data, e.s.config.mss, room);
      SendFrame(e.s, |data|, Handed(e.s.kcp, got), |SendPath.Flatten(got)|, flush, env);
    }
  }

  lemma CreatedFrame(s: Stream, part: Kcp.Packet, ok: bool, accepted: bool, env: Env)
    requires Shaped(s) && !s.closed && s.state == Open && s.log == [] && s.kcp == Kcp.FRESH
    ensures var t := Created(s, part, ok, accepted, env);
      && Shaped(t) && SentClose(NORMAL) !in t.log && !AwaitingNormal(t) && !Draining(t)
      && (t.kcp == Kcp.FRESH || t.kcp == Kcp.Input(Kcp.FRESH, part))
  {
    hide Reject, Fail, HandlePayload;
    if accepted {
      PayloadFrame(s, Kcp.Input(s.kcp, part), ok, env.clock);
      FailFrame(HandlePayload(s, Kcp.Input(s.kcp, part), ok, env.clock), env);
    } else {
      RejectFrame(s, env);
    }
  }

  lemma FailFrame(s: Stream, env: Env)
    requires Shaped(s) && !s.closed && s.state == Open && SentClose(NORMAL) !in s.log
    ensures var t := Fail(s, env.up, env.clock, env.check);
      Shaped(t) && SentClose(NORMAL) !in t.log && !AwaitingNormal(t) && !Draining(t) && t.kcp == s.kcp
  {
    hide SetState;
    SetStateFrame(s, Failed, env.up, env.clock, env.check);
  }

  lemma RejectFrame(s: Stream, env: Env)
    requires Shaped(s) && !s.closed && s.state == Open && s.log == []
    ensures var t := Reject(s, env.up, env.clock, env.check);
      Shaped(t) && SentClose(NORMAL) !in t.log && !AwaitingNormal(t) && !Draining(t) && t.kcp == s.kcp
  {
    hide SetState, SendClose;
    var t := s.(hooked := false, reason := REJECTED, phase := WaitAck, retries := 0, lastCtrl := env.clock);
    SetStateFrame(t, Closing, env.up, env.clock, env.check);
    var u := SetState(t, Closing, env.up, env.clock, env.check);
    SendCloseFrame(u, REJECTED, env.up, env.clock, env.check);
  }

  lemma FirstPayloadKeeps(
    s: Stream, p: Kcp.Packet, part: Kcp.Packet, ok: bool, accepted: bool,
    o: End, net: set<(Side, Datagram)>, x: Side, env: Env)
    requires Shaped(s) && !s.closed && s.state == Open && s.log == [] && s.kcp == Kcp.FRESH
    requires (x, Data(p)) in net && PartOf(part, p)
    requires Flow(Absent, o, net, Other(x)) && Flow(o, Absent, net, x)
    ensures var t := Created(s, part, ok, accepted, env);
      var f := Present(t, false, false);
      var net' := net + Wire(x, t.log);
      Flow(f, o, net', Other(x)) && Flow(o, f, net', x)
  {
    hide Created, Reliable;
    assert Other(Other(x)) == x;
    CreatedFrame(s, part, ok, accepted, env);
    InputIsReliable(Kcp.FRESH, Session(o), part);
    WireMembers(x, Created(s, part, ok, accepted, env).log);
  }

  lemma TransmitKeeps(e: End, p: Kcp.Packet, o: End, net: set<(Side, Datagram)>, x: Side)
    requires e.Present? && Emits(e.s.kcp, p)
    requires Flow(e, o, net, Other(x)) && Flow(o, e, net, x)
    ensures var net' := net + {(Other(x), Data(p))};
      Flow(e, o, net', Other(x)) && Flow(o, e, net', x)
  {
    assert Other(Other(x)) == x;
  }

  lemma OperateKeeps(e: End, op: Control, o: End, net: set<(Side, Datagram)>, x: Side, env: Env)
    requires e.Present? && InFlight(op, x, net)
    requires Flow(e, o, net, Other(x)) && Flow(o, e, net, x)
    ensures var f := Continue(e, op, env);
      var net' := net + Wire(x, f.s.log);
      Flow(f, o, net', Other(x)) && Flow(o, f, net', x)
  {
    hide Flow, HandleClose, HandleCloseAck, Close, FinishBatch, SetConfig, FireTimer, CloseInternal, Careful, Shaped;
    if Meets(e.s, op) {
      PeerCloseKeeps(e, o, net, x, env);
    } else {
      OperationIsCareful(e, op, o, net, x, env);
      ControlKeeps(e, Operated(e.s, op, env), o, net, x);
    }
  }

  lemma OperationIsCareful(e: End, op: Control, o: End, net: set<(Side, Datagram)>, x: Side, env: Env)
    requires e.Present? && !Meets(e.s, op) && Flow(e, o, net, Other(x))
    ensures Careful(e.s, Operated(e.s, op, env))
  {
    hide HandleClose, HandleCloseAck, Close, FinishBatch, SetConfig, FireTimer, CloseInternal, Careful;
    match op {
      case CloseArrives(reason) => HandleCloseIsCareful(e.s, reason, env.up, env.clock, env.check);
      case CloseAckArrives(_) => CallsAreCareful(e.s, e.s.config, env.up, env.clock, env.check);
      case AppCloses => CloseIsCareful(e.s, env.up, env.clock, env.check);
      case AppFinishesBatch => CallsAreCareful(e.s, e.s.config, env.up, env.clock, env.check);
      case EngineFinishesBatch => BatchEndIsCareful(e.s, env.up, env.clock);
      case AppConfigures(config) => CallsAreCareful(e.s, config, env.up, env.clock, env.check);
      case TimerFires => FireIsCareful(e.s, env.up, env.now, env.clock, env.check);
      case ConnectionCloses(reason) => FinaliseIsCareful(e.s, reason);
    }
  }

  lemma InitIsInv(sys: System)
    requires Init(sys)
    ensures Inv(sys)
  {
  }

  lemma NextKeeps(sys: System, x: Side, a: Action, env: Env, sys': System)
    requires Inv(sys) && Next(sys, x, a, env, sys')
    ensures Inv(sys')
  {
    hide Flow, Recv, SendData, HandlePayload, Created, Continue, Wire;
    var e, o := At(sys, x), At(sys, Other(x));
    assert Flow(e, o, sys.net, Other(x)) && Flow(o, e, sys.net, x);
    match a {
      case Transmit(p) => TransmitKeeps(e, p, o, sys.net, x);
      case PayloadArrives(p, part, ok) => PayloadKeeps(e, p, part, ok, o, sys.net, x, env.clock);
      case FirstPayload(p, part, ok, id, config, hooked, accepted) =>
        var s := New(id, false, config, hooked, env.up, env.clock, env.check);
        FirstPayloadKeeps(s, p, part, ok, accepted, o, sys.net, x, env);
      case AppReads(size, ok) => ReadKeeps(e, size, ok, o, sys.net, x, env.clock);
      case AppSends(data, room, flush) => SendKeepsFlow(e, data, room, flush, o, sys.net, x, env);
      case Operate(op) => OperateKeeps(e, op, o, sys.net, x, env);
    }
  }

  datatype Label = Label(side: Side, action: Action, env: Env)

  /** A run: states and the steps between them. */
  ghost predicate IsRun(states: seq<System>, labels: seq<Label>) {
    && |states| == |labels| + 1 && Init(states[0])
    && forall i | 0 <= i < |labels| ::
         Next(states[i], labels[i].side, labels[i].action, labels[i].env, states[i + 1])
  }

  lemma {:induction false} RunsKeepInv(states: seq<System>, labels: seq<Label>, n: nat)
    requires IsRun(states, labels) && n < |states|
    ensures Inv(states[n])
    decreases n
  {
    hide Inv, Next;
    if n == 0 {
      InitIsInv(states[0]);
    } else {
      RunsKeepInv(states, labels, n - 1);
      var l := labels[n - 1];
      NextKeeps(states[n - 1], l.side, l.action, l.env, states[n]);
    }
  }

  /**
    Graceful close loses nothing.  Whenever in any run a stream that the
    peer's normal close found open has been finalised by draining, its
    application has read exactly the messages that the peer's KCP ever accepted.
   */
  lemma GracefulCloseLosesNothing(states: seq<System>, labels: seq<Label>, n: nat, x: Side)
    requires IsRun(states, labels) && n < |states|
    requires var e := At(states[n], x); e.Present? && e.s.closed && e.peerClosed && !e.quit
    ensures var e, o := At(states[n], x), At(states[n], Other(x));
      && o.Present? && o.s.state != Open
      && 0 <= e.s.kcp.taken && (forall i | 0 <= i < e.s.kcp.taken :: i in e.s.kcp.arrived)
      && Kcp.Taken(e.s.kcp) == o.s.kcp.sent
  {
    RunsKeepInv(states, labels, n);
    var e, o := At(states[n], x), At(states[n], Other(x));
    assert Flow(o, e, states[n].net, x);
  }
}

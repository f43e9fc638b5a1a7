/**
  What messages lead to, in terms of what connections note, what streams and
  connections say and where they go (src/kcpmux_protocol.c): the effect of a
  datagram, read off the charts.
 */
module Outcomes {
  import Kcp
  import Wire
  import S = Stream
  import Runs = StreamRuns
  import Chart = StreamChart
  import C = Conn
  import Steps = ConnSteps
  import CC = ConnChart
  import opened Address
  import opened Engine
  import opened Input

  /** Connection `id` lives on as `p` says, having said `says`, and no stream has changed. */
  ghost predicate LivesOn(a: World, b: World, id: int, p: CC.Mind, says: seq<C.Event>) {
    && id in a.conns && id in b.conns && b.streams == a.streams
    && CC.PostureOf(b.conns[id]) == CC.Live(p) && b.conns[id].log == a.conns[id].log + says
  }

  /** Connection `id` is gone with its streams, having said `says` and told everyone the reason. */
  ghost predicate EndsIn(a: World, b: World, id: int, state: C.State, says: seq<C.Event>, reason: C.Reason) {
    && id in a.conns && id !in b.conns && id in b.ends && b.ends[id].closed && b.ends[id].state == state
    && b.ends[id].log == a.conns[id].log + (says + Steps.Farewell(a.conns[id].hooked, reason))
    && (forall k | k in a.streams :: k in b.streams <==> k.conn != id)
    && (forall k | k in a.streams && k.conn == id ::
          a.streams[k].serial in b.finals && Chart.EndsWith(b.finals[a.streams[k].serial], reason))
  }

  /** The connections and streams of a world are live, and every stream has a connection. */
  ghost predicate Live(w: World) {
    && (forall id | id in w.conns :: !w.conns[id].closed && C.Usable(w.conns[id].config))
    && (forall k | k in w.streams :: !w.streams[k].s.closed && Runs.Shaped(w.streams[k].s) && k.conn in w.conns)
  }

  lemma SweptAreTold(a: World, b: World, id: int, reason: C.Reason)
    requires Live(a) && Swept(a.streams, b.streams, id, b.finals, reason)
    ensures forall k | k in a.streams && k !in b.streams ::
      a.streams[k].serial in b.finals && Chart.EndsWith(b.finals[a.streams[k].serial], reason)
  {
    hide S.CloseInternal, Chart.EndsWith, Runs.Shaped;
    forall k | k in a.streams && k !in b.streams
      ensures a.streams[k].serial in b.finals && Chart.EndsWith(b.finals[a.streams[k].serial], reason)
    {
      Chart.FinaliseTakes(a.streams[k].s, reason);
      Chart.EndTells(a.streams[k].s, S.CloseInternal(a.streams[k].s, reason), [], reason);
    }
  }

  /** What was done to a connection, read off its chart. */
  lemma ConnOutcome(a: World, b: World, id: int, op: C.Op, clock: int)
    requires Live(a) && ConnDid(a, b, id, op, clock)
    ensures var turn := CC.Charted(a.conns[id], op, clock);
      match turn.to
      case Live(p) => LivesOn(a, b, id, p, turn.says)
      case Over(state) =>
        && id !in b.conns && id in b.ends && b.ends[id].closed && b.ends[id].state == state
        && b.ends[id].log == a.conns[id].log + turn.says
        && (forall k | k in a.streams :: k in b.streams <==> k.conn != id)
        && (forall k | k in a.streams && k.conn == id ::
              && a.streams[k].serial in b.finals
              && Chart.EndsWith(b.finals[a.streams[k].serial], Steps.Verdict(a.conns[id], op)))
  {
    hide C.Apply, CC.Charted, Steps.Verdict, Runs.Shaped, Chart.EndsWith, C.Usable;
    CC.StepFollowsChart(a.conns[id], op, clock);
    if C.Apply(a.conns[id], op, clock).closed {
      var reason := Steps.Verdict(a.conns[id], op);
      SweptAreTold(a, b, id, reason);
    }
  }

  /**
    A CONNECT_ACK connects a connecting initiator to its sender exactly if the
    version is 4 and the result 0; any other version, and result 2, end it with
    reason 2, and any other result with reason 3.
   */
  lemma AnswerOutcome(
    a: World, b: World, m: Wire.Message, from: Addr, id: int, status: Status, f: Facts, config: C.Config,
    streamConfig: S.Config, clock: int)
    requires Live(a) && m.ConnectAck? && C.Usable(config) && m.dest in a.conns && a.conns[m.dest].state == C.Connecting
    requires Effect(a, b, m, from, id, status, f, config, streamConfig, clock)
    ensures var c := a.conns[m.dest];
      if m.version == 4 && m.result == 0
      then LivesOn(a, b, m.dest,
             CC.Noted(c).(state := C.Connected, peerId := m.source, lastRecv := S.Max(c.lastRecv, clock)),
             if c.hooked then [C.StateChanged(C.Connecting, C.Connected)] else [])
      else EndsIn(a, b, m.dest, C.Failed, [], if m.version != 4 || m.result == 2 then 2 else 3)
  {
    hide ConnDid, Swept, Runs.Shaped, Chart.EndsWith;
    ConnOutcome(a, b, m.dest, ConnAsk(m), clock);
  }

  /** A KEEPALIVE is noted, and nothing else. */
  lemma KeepaliveOutcome(
    a: World, b: World, m: Wire.Message, from: Addr, id: int, status: Status, f: Facts, config: C.Config,
    streamConfig: S.Config, clock: int)
    requires Live(a) && m.Keepalive? && C.Usable(config) && m.dest in a.conns
    requires Effect(a, b, m, from, id, status, f, config, streamConfig, clock)
    ensures var c := a.conns[m.dest]; LivesOn(a, b, m.dest, CC.Noted(c).(lastRecv := S.Max(c.lastRecv, clock)), [])
  {
    hide ConnDid, Swept, Runs.Shaped, Chart.EndsWith;
    ConnOutcome(a, b, m.dest, ConnAsk(m), clock);
  }

  /** A CLOSE is acknowledged and ends the connection and its streams, all with the reason it gives. */
  lemma CloseOutcome(
    a: World, b: World, m: Wire.Message, from: Addr, id: int, status: Status, f: Facts, config: C.Config,
    streamConfig: S.Config, clock: int)
    requires Live(a) && m.Close? && C.Usable(config) && m.dest in a.conns && a.conns[m.dest].state != C.Failed
    requires Effect(a, b, m, from, id, status, f, config, streamConfig, clock)
    ensures EndsIn(a, b, m.dest, C.Closed, [C.SentCloseAck(m.reason as int)], m.reason as int)
  {
    hide ConnDid, Swept, Runs.Shaped, Chart.EndsWith;
    ConnOutcome(a, b, m.dest, ConnAsk(m), clock);
  }

  /** A CLOSE_ACK ends a closing connection with the reason it was closed for. */
  lemma CloseAckOutcome(
    a: World, b: World, m: Wire.Message, from: Addr, id: int, status: Status, f: Facts, config: C.Config,
    streamConfig: S.Config, clock: int)
    requires Live(a) && m.CloseAck? && C.Usable(config) && m.dest in a.conns && a.conns[m.dest].state == C.Closing
    requires Effect(a, b, m, from, id, status, f, config, streamConfig, clock)
    ensures EndsIn(a, b, m.dest, C.Closed, [], a.conns[m.dest].reason)
  {
    hide ConnDid, Swept, Runs.Shaped, Chart.EndsWith;
    ConnOutcome(a, b, m.dest, ConnAsk(m), clock);
  }

  /** Stream `k` took a turn: it is where the turn leads, or over and on record. */
  ghost predicate StreamTook(a: World, b: World, k: Key, turn: Chart.Turn) {
    && k in a.streams
    && if turn.to == Chart.Over
       then k !in b.streams && a.streams[k].serial in b.finals && b.finals[a.streams[k].serial].closed
            && b.finals[a.streams[k].serial].log == a.streams[k].s.log + turn.says
       else k in b.streams && b.streams[k].serial == a.streams[k].serial && Chart.StageOf(b.streams[k].s) == turn.to
            && b.streams[k].s.log == a.streams[k].s.log + turn.says
  }

  lemma StreamOutcome(a: World, b: World, k: Key, op: Runs.Op, up: bool, clock: int, check: int)
    requires Live(a) && StreamDid(a, b, k, op, up, clock, check)
    ensures StreamTook(a, b, k, Chart.Charted(a.streams[k].s, Runs.Step(op, up, clock, clock, check)))
  {
    hide Runs.Apply, Chart.Charted, Runs.Shaped;
    Chart.StepFollowsChart(a.streams[k].s, Runs.Step(op, up, clock, clock, check));
  }

  /** STREAM_CLOSE and its acknowledgement do to the stream what they name, and the connection notes that it heard. */
  lemma StreamCloseOutcome(
    a: World, b: World, m: Wire.Message, from: Addr, id: int, status: Status, f: Facts, config: C.Config,
    streamConfig: S.Config, clock: int)
    requires Live(a) && (m.StreamClose? || m.StreamCloseAck?) && C.Usable(config)
    requires Effect(a, b, m, from, id, status, f, config, streamConfig, clock)
    ensures Numbered(m) && m.dest in a.conns && Key(m.dest, m.stream) in a.streams
    ensures var s := a.streams[Key(m.dest, m.stream)].s;
      StreamTook(a, b, Key(m.dest, m.stream),
        if m.StreamClose? then Chart.OnPeerClose(s, m.reason as int, clock) else Chart.OnPeerCloseAck(s))
    ensures HeardNoted(a, b, m.dest, false, clock)
  {
    hide StreamDid, Runs.Shaped, Chart.OnPeerClose, Chart.OnPeerCloseAck, C.NoteReceive, C.Usable, StreamTook;
    StreamDoneIsThere(a, b, Key(id, m.stream), StreamAsk(m), Up(b.conns, id), clock, f.check);
    StreamOutcome(a, b, Key(id, m.stream), StreamAsk(m), Up(b.conns, id), clock, f.check);
    HeardIsNoted(a, b, id, false, clock);
  }

  lemma StreamDoneIsThere(a: World, b: World, k: Key, op: Runs.Op, up: bool, clock: int, check: int)
    requires StreamDid(a, b, k, op, up, clock, check)
    ensures k in a.streams
  {
  }

  /** The connection notes the time, of a payload too, and says nothing. */
  ghost predicate HeardNoted(a: World, b: World, id: int, isPayload: bool, clock: int) {
    id in a.conns && id in b.conns && b.conns[id].log == a.conns[id].log &&
    var c := a.conns[id];
    CC.PostureOf(b.conns[id]) == CC.Live(
      CC.Noted(c).(lastRecv := S.Max(c.lastRecv, clock),
                   lastPayload := if isPayload then S.Max(c.lastPayload, clock) else c.lastPayload))
  }

  lemma HeardIsNoted(a: World, b: World, id: int, isPayload: bool, clock: int)
    requires Live(a) && Heard(a, b, id, isPayload, clock)
    ensures HeardNoted(a, b, id, isPayload, clock)
  {
    hide Runs.Shaped, C.NoteReceive;
    CC.HearingTakes(a.conns[id], isPayload, clock);
  }

  /** A payload for a stream reaches KCP and the application; the connection notes it exactly if KCP took it. */
  lemma PayloadOutcome(
    a: World, b: World, m: Wire.Message, from: Addr, id: int, status: Status, f: Facts, config: C.Config,
    streamConfig: S.Config, clock: int)
    requires Live(a) && m.StreamPayload? && C.Usable(config) && Numbered(m) && Key(m.dest, m.stream) in a.streams
    requires m.data != [] && S.KcpActive(a.streams[Key(m.dest, m.stream)].s)
    requires Effect(a, b, m, from, id, status, f, config, streamConfig, clock)
    ensures var k := Key(m.dest, m.stream); var s := a.streams[k].s;
      && StreamTook(a, b, k, Chart.OnPayload(s, Taken(s.kcp, f), f.ok))
      && k in b.streams && b.streams[k].s.kcp == Taken(s.kcp, f)
    ensures if f.ok then status == Done && HeardNoted(a, b, m.dest, true, clock)
      else status == KcpFailed && b.conns == a.conns
  {
    hide Runs.Shaped, C.NoteReceive, C.Usable, StreamTook, Taken, HeardNoted;
    var k := Key(m.dest, m.stream);
    var s := a.streams[k].s;
    StreamOutcome(a, b, k, Runs.Payload(Taken(s.kcp, f), f.ok), true, clock, 0);
    PayloadStaysOpen(s, Taken(s.kcp, f), f.ok, clock);
    if f.ok {
      HeardIsNoted(a, b, m.dest, true, clock);
    }
  }

  lemma PayloadStaysOpen(s: S.Stream, kcp: Kcp.Session, ok: bool, clock: int)
    requires !s.closed && S.KcpActive(s)
    ensures var t := S.HandlePayload(s, kcp, ok, clock); !t.closed && t.kcp == kcp
  {
    PayloadKeepsOpen(s, kcp, ok, clock);
  }
}

/**
  The life of a stream as a chart: its stages, and for every event and stage
  what is said and which stage comes next.  Every operation of
  src/kcpmux_stream.c follows the chart, so what an application is told, what a
  peer is sent and when can be read off it.
 */
module StreamChart {
  import opened Timer
  import Kcp
  import SendPath
  import opened Stream
  import opened StreamRuns
  import opened StreamSteps

  /**
    Open; draining before the close is announced; waiting for its
    acknowledgement, since the last announcement; letting the application empty
    what the peer left; about to end; over.
   */
  datatype Stage =
    | Opened
    | Draining(reason: Reason, since: int)
    | Awaiting(reason: Reason, retries: int, since: int)
    | Emptying(reason: Reason, since: int)
    | Ending(reason: Reason)
    | Over

  function StageOf(s: Stream): Stage {
    if s.closed then Over
    else match s.phase
      case NoPhase => Opened
      case LocalDrain => Stage.Draining(s.reason, s.drainStart)
      case WaitAck => Awaiting(s.reason, s.retries, s.lastCtrl)
      case RemoteDrain => Emptying(s.reason, s.drainStart)
      case Finalize => Ending(s.reason)
  }

  /** Where a step leads, and what is said on the way. */
  datatype Turn = Turn(to: Stage, says: seq<Event>)

  function Told(s: Stream, e: Event): seq<Event> {
    if s.hooked then [e] else []
  }

  /** An interval has passed; times beyond the clock's range stand at its end. */
  predicate Passed(since: int, interval: int, now: int) {
    since + interval <= now || INT64_MAX <= now
  }

  function Ends(s: Stream, said: seq<Event>, reason: Reason): Turn {
    Turn(Over, said + Farewell(s.hooked, reason))
  }

  /** The first announcement, after which the reason kept is `kept`. */
  function Announces(s: Stream, said: seq<Event>, kept: Reason, clock: int): Turn {
    var says := said + [SentClose(NORMAL)];
    if s.config.closeRetries == 0 then Ends(s, says, NORMAL) else Turn(Awaiting(kept, 0, clock), says)
  }

  function OnCloseCall(s: Stream, clock: int): Turn {
    match StageOf(s)
    case Opened =>
      var says := Told(s, StateChanged(Open, Closing));
      if s.isInitiator && s.upSent == 0 then Ends(s, says, NORMAL)
      else if Kcp.WaitSnd(s.kcp) == 0 then Announces(s, says, NORMAL, clock)
      else Turn(Stage.Draining(NORMAL, clock), says)
    case Emptying(_, _) => Turn(Ending(NORMAL), [])
    case l => Turn(l, [])
  }

  function OnPeerClose(s: Stream, reason: Reason, clock: int): Turn {
    if reason != NORMAL then Ends(s, [SentCloseAck(reason)], reason)
    else match StageOf(s)
      case Opened =>
        Turn(if Kcp.Readable(s.kcp) then Emptying(NORMAL, clock) else Ending(NORMAL),
             [SentCloseAck(NORMAL)] + Told(s, StateChanged(Open, Closing)))
      case Draining(_, _) => Turn(Ending(NORMAL), [SentCloseAck(NORMAL)])
      case Awaiting(_, _, _) => Turn(Ending(NORMAL), [SentCloseAck(NORMAL)])
      case l => Turn(l, [SentCloseAck(NORMAL)])
  }

  function OnPeerCloseAck(s: Stream): Turn {
    match StageOf(s)
    case Awaiting(reason, _, _) => Ends(s, [], reason)
    case l => Turn(l, [])
  }

  function OnPayload(s: Stream, kcp: Kcp.Session, ok: bool): Turn {
    var l := StageOf(s);
    Turn(l, if l == Opened && ok && s.readBlocked && Kcp.Readable(kcp) then Told(s, ReadNotify) else [])
  }

  /** The last message left by the peer is read. */
  predicate Empties(s: Stream, size: int, ok: bool) {
    size > 0 && ok && 0 < Kcp.PeekSize(s.kcp) <= size && !Kcp.Readable(Kcp.Recv(s.kcp))
  }

  function OnRecv(s: Stream, size: int, ok: bool): Turn {
    match StageOf(s)
    case Emptying(reason, _) => Turn(if Empties(s, size, ok) then Ending(reason) else StageOf(s), [])
    case l => Turn(l, [])
  }

  function OnFire(s: Stream, now: int, clock: int): Turn {
    match StageOf(s)
    case Opened =>
      Turn(Opened, if s.writeBlocked && Kcp.WaitSnd(s.kcp) < AsInt32(s.config.resumeBelow) then Told(s, WriteNotify) else [])
    case Draining(reason, since) =>
      if Kcp.WaitSnd(s.kcp) == 0 then Announces(s, [], reason, clock)
      else if Passed(since, s.config.drainTimeout, now) then Ends(s, [SentClose(TIMEOUT)], TIMEOUT)
      else Turn(StageOf(s), [])
    case Awaiting(reason, retries, since) =>
      if !Passed(since, s.config.ctrlTimeout, now) then Turn(StageOf(s), [])
      else if retries + 1 < s.config.closeRetries then Turn(Awaiting(reason, retries + 1, clock), [SentClose(reason)])
      else Ends(s, if retries < s.config.closeRetries then [SentClose(reason)] else [], reason)
    case Emptying(_, since) =>
      if Passed(since, s.config.drainTimeout, now) then Ends(s, [], TIMEOUT) else Turn(StageOf(s), [])
    case Ending(reason) => Ends(s, [], reason)
    case Over => Turn(Over, [])
  }

  /** The chart. */
  function Charted(s: Stream, st: Step): Turn {
    if s.closed then Turn(Over, [])
    else match st.op
      case CloseCall => OnCloseCall(s, st.clock)
      case PeerClose(reason) => OnPeerClose(s, reason, st.clock)
      case PeerCloseAck => OnPeerCloseAck(s)
      case Payload(kcp, ok) => OnPayload(s, kcp, ok)
      case RecvCall(size, ok) => OnRecv(s, size, ok)
      case Fire =>
        if st.up && s.alarm.state == InHeap && s.alarm.deadline <= st.now then OnFire(s, st.now, st.clock)
        else Turn(StageOf(s), [])
      case Finalise(reason) => Ends(s, [], reason)
      case _ => Turn(StageOf(s), [])
  }

  /** `t` is where the turn leads from `s`. */
  ghost predicate Takes(s: Stream, t: Stream, turn: Turn) {
    t.log == s.log + turn.says && StageOf(t) == turn.to && t.hooked == s.hooked
  }

  lemma FinaliseTakes(s: Stream, reason: Reason)
    requires !s.closed
    ensures Takes(s, CloseInternal(s, reason), Ends(s, [], reason))
  {
    var t := CloseInternal(s, reason);
    assert t.log == s.log + Farewell(s.hooked, reason);
  }

  /** Saying something first. */
  lemma SaysThenTakes(s: Stream, t: Stream, u: Stream, said: seq<Event>, turn: Turn)
    requires t.log == s.log + said && t.hooked == s.hooked && Takes(t, u, turn)
    ensures Takes(s, u, Turn(turn.to, said + turn.says))
  {
    assert s.log + said + turn.says == s.log + (said + turn.says);
  }

  lemma AnnounceTakes(s: Stream, up: bool, clock: int, check: int)
    requires Shaped(s) && !s.closed && s.phase == LocalDrain && Kcp.WaitSnd(s.kcp) == 0
    ensures Takes(s, AdvanceLocalClose(s, up, clock, check), Announces(s, [], s.reason, clock))
  {
    hide SendClose, CloseInternal;
    var t := s.(phase := WaitAck, retries := 0);
    SendCloseFrame(t, NORMAL, up, clock, check);
    var u := SendClose(t, NORMAL, up, clock, check);
    if s.config.closeRetries == 0 {
      FinaliseTakes(u, NORMAL);
      SaysThenTakes(s, u, CloseInternal(u, NORMAL), [SentClose(NORMAL)], Ends(u, [], NORMAL));
    }
  }

  lemma EnterTakes(s: Stream, up: bool, clock: int, check: int)
    requires s.state == Open
    ensures var t := SetState(s, Closing, up, clock, check);
      t == s.(state := Closing, alarm := t.alarm, log := s.log + Told(s, StateChanged(Open, Closing)))
  {
    hide RefreshTimer;
    TimerFrame(s.(state := Closing), up, clock, check);
  }

  lemma CloseTakes(s: Stream, up: bool, clock: int, check: int)
    requires Shaped(s) && !s.closed
    ensures Takes(s, Close(s, up, clock, check), OnCloseCall(s, clock))
  {
    hide SetState, AdvanceLocalClose, Schedule, CloseInternal, ScheduleFinalize;
    if s.state == Open {
      var t := s.(lastCtrl := clock, drainStart := clock, reason := NORMAL, retries := 0, phase := LocalDrain);
      EnterTakes(t, up, clock, check);
      var u := SetState(t, Closing, up, clock, check);
      var says := Told(s, StateChanged(Open, Closing));
      TimerFrame(u, up, clock, clock);
      var v := Schedule(u, clock, clock);
      if u.isInitiator && u.upSent == 0 {
        FinaliseTakes(u, NORMAL);
        SaysThenTakes(s, u, CloseInternal(u, NORMAL), says, Ends(u, [], NORMAL));
      } else if Kcp.WaitSnd(s.kcp) == 0 {
        AnnounceTakes(v, up, clock, check);
        SaysThenTakes(s, v, AdvanceLocalClose(v, up, clock, check), says, Announces(v, [], NORMAL, clock));
        assert says + ([] + [SentClose(NORMAL)]) == says + [SentClose(NORMAL)];
        assert says + ([] + [SentClose(NORMAL)] + Farewell(s.hooked, NORMAL)) == says + [SentClose(NORMAL)] + Farewell(s.hooked, NORMAL);
      } else {
        DrainingStays(v, up, clock, check);
      }
    } else {
      ScheduleFinalizeFrame(s, NORMAL, clock);
    }
  }

  lemma DrainingStays(s: Stream, up: bool, clock: int, check: int)
    requires Kcp.WaitSnd(s.kcp) != 0
    ensures AdvanceLocalClose(s, up, clock, check) == s
  {
  }

  lemma PeerCloseTakes(s: Stream, reason: Reason, up: bool, clock: int, check: int)
    requires Shaped(s) && !s.closed
    ensures Takes(s, HandleClose(s, reason, up, clock, check), OnPeerClose(s, reason, clock))
  {
    hide SetState, Schedule, CloseInternal, ScheduleFinalize;
    var t := Logged(s, SentCloseAck(reason));
    if reason != NORMAL {
      FinaliseTakes(t, reason);
      SaysThenTakes(s, t, CloseInternal(t, reason), [SentCloseAck(reason)], Ends(t, [], reason));
    } else if s.state == Closing {
      ScheduleFinalizeFrame(t, NORMAL, clock);
    } else {
      var u := t.(reason := reason, phase := RemoteDrain, drainStart := clock);
      EnterTakes(u, up, clock, check);
      var v := SetState(u, Closing, up, clock, check);
      ScheduleFinalizeFrame(v, reason, clock);
      assert v.log == s.log + ([SentCloseAck(NORMAL)] + Told(s, StateChanged(Open, Closing)));
    }
  }

  lemma DrainTakes(s: Stream, now: int, clock: int, check: int)
    requires Shaped(s) && !s.closed && s.phase == LocalDrain
    ensures Takes(s, UpdateClosing(s, true, now, clock, check), OnFire(s, now, clock))
  {
    hide SendClose, CloseInternal, RefreshTimer, AdvanceLocalClose;
    var t := ClearPending(s);
    if Kcp.WaitSnd(s.kcp) == 0 {
      AnnounceTakes(t, true, clock, check);
    } else if now >= DeadlineAfter(t.drainStart, t.config.drainTimeout) {
      var u := t.(reason := TIMEOUT);
      SendCloseFrame(u, TIMEOUT, true, clock, check);
      var v := SendClose(u, TIMEOUT, true, clock, check);
      FinaliseTakes(v, TIMEOUT);
      SaysThenTakes(s, v, CloseInternal(v, TIMEOUT), [SentClose(TIMEOUT)], Ends(v, [], TIMEOUT));
    } else {
      TimerFrame(t, true, now, check);
    }
  }

  lemma AwaitTakes(s: Stream, now: int, clock: int, check: int)
    requires Shaped(s) && !s.closed && s.phase == WaitAck
    ensures Takes(s, UpdateClosing(s, true, now, clock, check), OnFire(s, now, clock))
  {
    hide SendClose, CloseInternal;
    var r := s.(retries := s.retries + 1);
    SendCloseFrame(r, s.reason, true, clock, check);
    var t := SendClose(r, s.reason, true, clock, check);
    FinaliseTakes(t, s.reason);
    SaysThenTakes(s, t, CloseInternal(t, s.reason), [SentClose(s.reason)], Ends(t, [], s.reason));
    FinaliseTakes(s, s.reason);
  }

  lemma ClosingTakes(s: Stream, now: int, clock: int, check: int)
    requires Shaped(s) && !s.closed && s.state == Closing
    ensures Takes(s, UpdateClosing(s, true, now, clock, check), OnFire(s, now, clock))
  {
    hide CloseInternal, OnFire, UpdateClosing;
    match s.phase {
      case LocalDrain => DrainTakes(s, now, clock, check);
      case WaitAck => AwaitTakes(s, now, clock, check);
      case RemoteDrain => LastPhasesTake(s, now, clock, check);
      case Finalize => LastPhasesTake(s, now, clock, check);
    }
  }

  lemma LastPhasesTake(s: Stream, now: int, clock: int, check: int)
    requires !s.closed && (s.phase == RemoteDrain || s.phase == Finalize)
    ensures Takes(s, UpdateClosing(s, true, now, clock, check), OnFire(s, now, clock))
  {
    hide CloseInternal;
    FinaliseTakes(s, if s.phase == RemoteDrain then TIMEOUT else s.reason);
  }

  lemma OpenTakes(s: Stream, now: int, clock: int, check: int)
    requires Shaped(s) && !s.closed && s.state == Open
    ensures Takes(s, UpdateOpen(s, now, check), OnFire(s, now, clock))
  {
    hide Schedule;
    var t := ClearPending(s);
    TimerFrame(t, true, now, check);
    TimerFrame(Notify(t.(writeBlocked := false), WriteNotify), true, now, check);
  }

  lemma FireTakes(s: Stream, up: bool, now: int, clock: int, check: int)
    requires Shaped(s) && !s.closed && up && s.alarm.state == InHeap && s.alarm.deadline <= now
    ensures Takes(s, FireTimer(s, up, now, clock, check), OnFire(s, now, clock))
  {
    hide UpdateOpen, UpdateClosing, OnFire;
    var t := s.(alarm := s.alarm.(state := Running));
    if s.state == Open {
      OpenTakes(t, now, clock, check);
    } else {
      ClosingTakes(t, now, clock, check);
    }
    AlarmIsNotCharted(s, t.alarm, now, clock);
  }

  lemma AlarmIsNotCharted(s: Stream, alarm: Alarm, now: int, clock: int)
    ensures OnFire(s.(alarm := alarm), now, clock) == OnFire(s, now, clock)
  {
  }

  lemma PayloadTakes(s: Stream, kcp: Kcp.Session, ok: bool, clock: int)
    requires Shaped(s) && !s.closed
    ensures Takes(s, HandlePayload(s, kcp, ok, clock), OnPayload(s, kcp, ok))
  {
    hide Schedule;
    AccumulateFrame(s.(kcp := kcp), clock);
    ScheduleFrame(s.(kcp := kcp), clock);
    ScheduleFrame(s.(kcp := kcp, pending := s.pending + 1, inBatch := false), clock);
  }

  lemma RecvTakes(s: Stream, size: int, ok: bool, clock: int)
    requires Shaped(s) && !s.closed
    ensures Takes(s, Recv(s, size, ok, clock), OnRecv(s, size, ok))
  {
    hide ScheduleFinalize;
    ScheduleFinalizeFrame(s.(kcp := Kcp.Recv(s.kcp)), s.reason, clock);
  }

  lemma AccumulateStays(s: Stream, clock: int)
    ensures Takes(s, Accumulate(s, clock), Turn(StageOf(s), []))
  {
    hide Schedule;
    ScheduleFrame(s, clock);
    ScheduleFrame(s.(pending := s.pending + 1, inBatch := false), clock);
  }

  lemma SendStays(s: Stream, size: int, kcp: Kcp.Session, sent: int, flush: bool, up: bool, clock: int, check: int)
    ensures Takes(s, Send(s, size, kcp, sent, flush, up, clock, check), Turn(StageOf(s), []))
  {
    hide Accumulate, Schedule;
    var t := s.(kcp := kcp, upSent := s.upSent + sent);
    AccumulateStays(t, clock);
    TimerFrame(ClearPending(t), up, clock, check);
  }

  lemma CallsStay(s: Stream, c: Config, up: bool, clock: int, check: int)
    ensures Takes(s, FinishBatch(s, up, clock), Turn(StageOf(s), []))
    ensures Takes(s, FinishBatch(s.(inBatch := false), up, clock), Turn(StageOf(s), []))
    ensures Takes(s, SetConfig(s, c, up, clock, check), Turn(StageOf(s), []))
  {
    hide Schedule, RefreshTimer;
    ScheduleFrame(s.(inBatch := false, pending := if s.config.batch > 1 then s.config.batch else 0), clock);
    TimerFrame(ClearPending(s.(config := c.(mss := s.config.mss))), up, clock, check);
  }

  lemma AckTakes(s: Stream)
    requires Shaped(s) && !s.closed
    ensures Takes(s, HandleCloseAck(s), OnPeerCloseAck(s))
  {
    hide CloseInternal;
    FinaliseTakes(s, s.reason);
  }

  /** Every operation follows the chart. */
  lemma StepFollowsChart(s: Stream, st: Step)
    requires Shaped(s)
    ensures Takes(s, Apply(s, st), Charted(s, st))
  {
    hide Close, HandleClose, HandleCloseAck, HandlePayload, Recv, Send, FinishBatch, SetConfig, FireTimer, CloseInternal;
    hide OnCloseCall, OnPeerClose, OnPeerCloseAck, OnPayload, OnRecv, OnFire, Takes;
    if s.closed {
      OverStays(s, st);
      return;
    }
    StaysPut(s);
    match st.op {
      case CloseCall => CloseTakes(s, st.up, st.clock, st.check);
      case PeerClose(reason) => PeerCloseTakes(s, reason, st.up, st.clock, st.check);
      case PeerCloseAck => AckTakes(s);
      case Payload(kcp, ok) => PayloadTakes(s, kcp, ok, st.clock);
      case RecvCall(size, ok) => RecvTakes(s, size, ok, st.clock);
      case SendCall(data, room, flush) =>
        if s.config.mss > 0 {
          var got := SendPath.Accepted(data, s.config.mss, room);
          SendStays(s, |data|, Handed(s.kcp, got), |SendPath.Flatten(got)|, flush, st.up, st.clock, st.check);
        }
      case FinishBatchCall => CallsStay(s, s.config, st.up, st.clock, st.check);
      case EngineFinishBatch => CallsStay(s, s.config, st.up, st.clock, st.check);
      case SetConfigCall(config) => CallsStay(s, config, st.up, st.clock, st.check);
      case Fire =>
        if st.up && s.alarm.state == InHeap && s.alarm.deadline <= st.now {
          FireTakes(s, st.up, st.now, st.clock, st.check);
        } else {
          NotFired(s, st.up, st.now, st.clock, st.check);
        }
      case Finalise(reason) => FinaliseTakes(s, reason);
    }
  }

  lemma StaysPut(s: Stream)
    ensures Takes(s, s, Turn(StageOf(s), []))
  {
  }

  lemma NotFired(s: Stream, up: bool, now: int, clock: int, check: int)
    requires !(up && s.alarm.state == InHeap && s.alarm.deadline <= now)
    ensures Takes(s, FireTimer(s, up, now, clock, check), Turn(StageOf(s), []))
  {
    hide UpdateOpen, UpdateClosing;
  }

  lemma OverStays(s: Stream, st: Step)
    requires Shaped(s) && s.closed
    ensures Takes(s, Apply(s, st), Turn(Over, []))
  {
    hide Send;
    match st.op {
      case SendCall(data, room, flush) =>
        if s.config.mss > 0 {
          var got := SendPath.Accepted(data, s.config.mss, room);
          SendStays(s, |data|, Handed(s.kcp, got), |SendPath.Flatten(got)|, flush, st.up, st.clock, st.check);
        }
      case SetConfigCall(config) => CallsStay(s, config, st.up, st.clock, st.check);
      case _ =>
    }
  }

  // What the application is told at the end.

  /** Why a stream ends, by what happened and what came before. */
  function Verdict(s: Stream, op: Op): Reason {
    match op
    case PeerClose(reason) => reason
    case Finalise(reason) => reason
    case PeerCloseAck => s.reason
    case Fire =>
      if s.phase == RemoteDrain then TIMEOUT
      else if s.phase == LocalDrain then if Kcp.WaitSnd(s.kcp) == 0 then NORMAL else TIMEOUT
      else s.reason
    case _ => NORMAL
  }

  /** The stream is finalised, and its application was told why. */
  ghost predicate EndsWith(t: Stream, reason: Reason) {
    t.closed && (t.hooked ==> |t.log| >= 2 && t.log[|t.log| - 2] == CloseNotify(reason))
  }

  lemma FarewellTells(t: Stream, life: seq<Event>, reason: Reason)
    requires t.closed && t.log == life + Farewell(t.hooked, reason)
    ensures EndsWith(t, reason)
  {
  }

  lemma EndTells(s: Stream, t: Stream, said: seq<Event>, reason: Reason)
    requires Takes(s, t, Ends(s, said, reason))
    ensures EndsWith(t, reason)
  {
    assert s.log + (said + Farewell(s.hooked, reason)) == s.log + said + Farewell(s.hooked, reason);
    FarewellTells(t, s.log + said, reason);
  }

  /** Whatever ends a stream, its application is told the reason that event and stage call for. */
  lemma VerdictIsGiven(s: Stream, st: Step)
    requires Shaped(s) && !s.closed && Apply(s, st).closed
    ensures EndsWith(Apply(s, st), Verdict(s, st.op))
  {
    hide Apply, EndsWith, Farewell, Ends;
    StepFollowsChart(s, st);
    var t := Apply(s, st);
    match st.op {
      case CloseCall =>
        var says := Told(s, StateChanged(Open, Closing));
        EndsAre(s, t, says, NORMAL);
        EndsAre(s, t, says + [SentClose(NORMAL)], NORMAL);
      case PeerClose(reason) => EndsAre(s, t, [SentCloseAck(reason)], reason);
      case PeerCloseAck => EndsAre(s, t, [], s.reason);
      case Finalise(reason) => EndsAre(s, t, [], reason);
      case Fire =>
        EndsAre(s, t, [], Verdict(s, Fire));
        EndsAre(s, t, [SentClose(s.reason)], s.reason);
        EndsAre(s, t, [SentClose(TIMEOUT)], TIMEOUT);
        EndsAre(s, t, [] + [SentClose(NORMAL)], NORMAL);
      case _ =>
    }
  }

  lemma EndsAre(s: Stream, t: Stream, said: seq<Event>, reason: Reason)
    ensures Ends(s, said, reason).to == Over
    ensures Takes(s, t, Ends(s, said, reason)) ==> EndsWith(t, reason)
  {
    if Takes(s, t, Ends(s, said, reason)) {
      EndTells(s, t, said, reason);
    }
  }

  /** A stream whose first payload KCP would not take ends with ERROR. */
  lemma FailureIsTold(s: Stream, up: bool, clock: int, check: int)
    requires !s.closed
    ensures EndsWith(Fail(s, up, clock, check), ERROR)
  {
    hide CloseInternal;
    var t := SetState(s, Failed, up, clock, check);
    FinaliseTakes(t, ERROR);
    EndTells(t, CloseInternal(t, ERROR), [], ERROR);
  }

  /** A stream that is turned down is announced as such, and its application, which let it go, hears nothing more. */
  lemma RejectionIsAnnounced(s: Stream, up: bool, clock: int, check: int)
    requires Shaped(s) && !s.closed && s.state == Open
    ensures var t := Reject(s, up, clock, check);
      && !t.hooked
      && t.log == s.log + [SentClose(REJECTED)]
           + (if s.config.closeRetries == 0 then [KcpReleased, ReleaseQueued] else [])
      && StageOf(t) == if s.config.closeRetries == 0 then Over else Awaiting(REJECTED, 0, clock)
  {
    hide SetState, SendClose;
    var t := s.(hooked := false, reason := REJECTED, phase := WaitAck, retries := 0, lastCtrl := clock);
    EnterTakes(t, up, clock, check);
    var u := SetState(t, Closing, up, clock, check);
    SendCloseFrame(u, REJECTED, up, clock, check);
    var v := SendClose(u, REJECTED, up, clock, check);
    FinaliseTakes(v, REJECTED);
  }
}

/**
  The timer of a stream that is closing (src/kcpmux_stream.c): over every run it
  is due exactly when the current stage is to end, neither early nor late.
 */
module StreamTimer {
  import opened Timer
  import Kcp
  import SendPath
  import opened Stream
  import opened StreamRuns
  import opened StreamSteps
  import opened StreamChart
  import opened StreamWork

  /** From `clock` on, the timer is due exactly when the stage is over; a drain may also be looked at before. */
  ghost predicate Punctual(s: Stream, up: bool, clock: int) {
    up ==> forall t | clock <= t <= INT64_MAX :: DueInStage(s, t)
  }

  ghost predicate DueInStage(s: Stream, t: int) {
    match StageOf(s)
    case Draining(_, since) => Passed(since, s.config.drainTimeout, t) ==> IsDue(s, t)
    case Awaiting(_, _, since) => IsDue(s, t) <==> Passed(since, s.config.ctrlTimeout, t)
    case Emptying(_, since) => IsDue(s, t) <==> Passed(since, s.config.drainTimeout, t)
    case Ending(_) => IsDue(s, t)
    case _ => true
  }

  lemma RefreshIsPunctual(s: Stream, now: int, clock: int, check: int)
    requires !s.closed && s.registered && s.state == Closing && s.phase != NoPhase && now <= clock
    ensures Punctual(RefreshTimer(s, true, now, check), true, clock)
  {
  }

  lemma LaterIsPunctual(s: Stream, wasUp: bool, up: bool, was: int, clock: int)
    requires Punctual(s, wasUp, was) && (up ==> wasUp) && was <= clock
    ensures Punctual(s, up, clock)
  {
  }

  /** A stream that is open or over has no stage to end. */
  lemma OthersArePunctual(s: Stream, up: bool, clock: int)
    requires s.closed || s.phase == NoPhase
    ensures Punctual(s, up, clock)
  {
  }

  /** What does not concern the timer does not matter to it. */
  lemma SamePunctual(s: Stream, t: Stream, up: bool, clock: int)
    requires Punctual(s, up, clock) && StageOf(t) == StageOf(s) && t.config == s.config && t.alarm == s.alarm
    ensures Punctual(t, up, clock)
  {
    forall u | clock <= u <= INT64_MAX && up ensures DueInStage(t, u) {
      assert DueInStage(s, u);
    }
  }

  lemma EndingIsPunctual(s: Stream, reason: Reason, up: bool, clock: int)
    requires s.registered
    ensures Punctual(ScheduleFinalize(s, reason, clock), up, clock)
  {
  }

  lemma AnnounceIsPunctual(s: Stream, reason: Reason, up: bool, clock: int, check: int)
    requires !s.closed && s.registered && s.state == Closing && s.phase != NoPhase
    ensures Punctual(SendClose(s, reason, up, clock, check), up, clock)
  {
    hide RefreshTimer, Punctual;
    if up {
      RefreshIsPunctual(Logged(s.(lastCtrl := clock), SentClose(reason)), clock, clock, check);
    } else {
      DownIsPunctual(SendClose(s, reason, up, clock, check), clock);
    }
  }

  lemma DownIsPunctual(s: Stream, clock: int)
    ensures Punctual(s, false, clock)
  {
  }

  lemma EnterIsPunctual(s: Stream, up: bool, clock: int, check: int)
    requires !s.closed && s.registered && s.state == Open && s.phase != NoPhase
    ensures Punctual(SetState(s, Closing, up, clock, check), up, clock)
  {
    hide RefreshTimer, Punctual;
    if up {
      var t := RefreshTimer(s.(state := Closing), up, clock, check);
      RefreshIsPunctual(s.(state := Closing), clock, clock, check);
      SamePunctual(t, SetState(s, Closing, up, clock, check), up, clock);
    } else {
      DownIsPunctual(SetState(s, Closing, up, clock, check), clock);
    }
  }

  lemma FinalisedIsPunctual(s: Stream, reason: Reason, up: bool, clock: int)
    ensures Punctual(CloseInternal(s, reason), up, clock)
  {
    assert CloseInternal(s, reason).closed;
  }

  lemma AdvanceIsPunctual(s: Stream, up: bool, clock: int, check: int)
    requires !s.closed && s.registered && s.state == Closing && s.phase != NoPhase && Punctual(s, up, clock)
    ensures Punctual(AdvanceLocalClose(s, up, clock, check), up, clock)
  {
    hide SendClose, CloseInternal, Punctual;
    var t := s.(phase := WaitAck, retries := 0);
    AnnounceIsPunctual(t, NORMAL, up, clock, check);
    FinalisedIsPunctual(SendClose(t, NORMAL, up, clock, check), NORMAL, up, clock);
  }

  lemma CloseIsPunctual(s: Stream, up: bool, clock: int, check: int)
    requires Shaped(s) && !s.closed && Punctual(s, up, clock)
    ensures Punctual(Close(s, up, clock, check), up, clock)
  {
    hide SetState, AdvanceLocalClose, CloseInternal, Schedule, ScheduleFinalize, Punctual;
    if s.state == Open {
      var t := s.(lastCtrl := clock, drainStart := clock, reason := NORMAL, retries := 0, phase := LocalDrain);
      EnterTakes(t, up, clock, check);
      var u := SetState(t, Closing, up, clock, check);
      FinalisedIsPunctual(u, NORMAL, up, clock);
      TimerFrame(u, up, clock, clock);
      DrainAtOnce(u, up, clock);
      AdvanceIsPunctual(Schedule(u, clock, clock), up, clock, check);
    } else {
      EndingIsPunctual(s, NORMAL, up, clock);
    }
  }

  lemma DrainAtOnce(s: Stream, up: bool, clock: int)
    requires s.registered && s.phase == LocalDrain
    ensures Punctual(Schedule(s, clock, clock), up, clock)
  {
  }

  lemma PeerCloseIsPunctual(s: Stream, reason: Reason, up: bool, clock: int, check: int)
    requires Shaped(s) && !s.closed && Punctual(s, up, clock)
    ensures Punctual(HandleClose(s, reason, up, clock, check), up, clock)
  {
    hide SetState, CloseInternal, ScheduleFinalize, Punctual;
    var t := Logged(s, SentCloseAck(reason));
    SamePunctual(s, t, up, clock);
    FinalisedIsPunctual(t, reason, up, clock);
    EndingIsPunctual(t, NORMAL, up, clock);
    if s.state == Open {
      var u := t.(reason := reason, phase := RemoteDrain, drainStart := clock);
      EnterIsPunctual(u, up, clock, check);
      EnterTakes(u, up, clock, check);
      EndingIsPunctual(SetState(u, Closing, up, clock, check), reason, up, clock);
    }
  }

  lemma RecvIsPunctual(s: Stream, size: int, ok: bool, up: bool, clock: int)
    requires Shaped(s) && !s.closed && Punctual(s, up, clock)
    ensures Punctual(Recv(s, size, ok, clock), up, clock)
  {
    hide ScheduleFinalize, Punctual;
    var t := s.(kcp := Kcp.Recv(s.kcp));
    SamePunctual(s, t, up, clock);
    SamePunctual(s, s.(readBlocked := true), up, clock);
    SamePunctual(s, t.(readBlocked := true), up, clock);
    EndingIsPunctual(t, t.reason, up, clock);
  }

  /** Counting towards a batch only ever makes a draining stream due. */
  lemma PayloadIsPunctual(s: Stream, kcp: Kcp.Session, ok: bool, up: bool, clock: int)
    requires Shaped(s) && !s.closed && Punctual(s, up, clock)
    ensures Punctual(HandlePayload(s, kcp, ok, clock), up, clock)
  {
    hide Accumulate;
    if KcpActive(s) {
      AccumulateIsSooner(s.(kcp := kcp), clock);
      var t := HandlePayload(s, kcp, ok, clock);
      PayloadTakes(s, kcp, ok, clock);
      assert t.alarm == s.alarm || t.alarm == Alarm(InHeap, clock);
      forall u | clock <= u <= INT64_MAX && up ensures DueInStage(t, u) {
        assert DueInStage(s, u);
      }
    }
  }

  lemma AccumulateIsSooner(s: Stream, clock: int)
    requires s.registered
    ensures var t := Accumulate(s, clock);
      && t == s.(pending := t.pending, inBatch := t.inBatch, alarm := t.alarm)
      && (t.alarm == s.alarm || t.alarm == Alarm(InHeap, clock))
  {
    hide Schedule;
    ScheduledNow(s, clock);
    ScheduledNow(s.(pending := s.pending + 1, inBatch := false), clock);
  }

  lemma ScheduledNow(s: Stream, clock: int)
    requires s.registered
    ensures Schedule(s, clock, clock) == s.(alarm := Alarm(InHeap, clock))
  {
  }

  lemma UpdateIsPunctual(s: Stream, now: int, clock: int, check: int)
    requires Shaped(s) && !s.closed && s.state == Closing && now <= clock
    requires s.phase == WaitAck ==> now >= DeadlineAfter(s.lastCtrl, s.config.ctrlTimeout)
    requires s.phase == RemoteDrain ==> now >= DeadlineAfter(s.drainStart, s.config.drainTimeout)
    ensures Punctual(UpdateClosing(s, true, now, clock, check), true, clock)
    ensures s.alarm.state == Running ==> UpdateClosing(s, true, now, clock, check).alarm.state != Running
  {
    hide RefreshTimer, SendClose, CloseInternal, Punctual;
    var t := ClearPending(s);
    RefreshIsPunctual(t, now, clock, check);
    RefreshedIsNotRunning(t, now, check);
    var u := t.(phase := WaitAck, retries := 0);
    AnnounceIsPunctual(u, NORMAL, true, clock, check);
    AnnouncedIsNotRunning(u, NORMAL, clock, check);
    FinalisedRests(SendClose(u, NORMAL, true, clock, check), NORMAL, true, clock);
    FinalisedRests(SendClose(t.(reason := TIMEOUT), TIMEOUT, true, clock, check), TIMEOUT, true, clock);
    var r := s.(retries := s.retries + 1);
    AnnounceIsPunctual(r, s.reason, true, clock, check);
    AnnouncedIsNotRunning(r, s.reason, clock, check);
    FinalisedRests(SendClose(r, s.reason, true, clock, check), s.reason, true, clock);
    FinalisedRests(s, s.reason, true, clock);
    FinalisedRests(s, TIMEOUT, true, clock);
    SendCloseFrame(u, NORMAL, true, clock, check);
    SendCloseFrame(t.(reason := TIMEOUT), TIMEOUT, true, clock, check);
    SendCloseFrame(r, s.reason, true, clock, check);
  }

  lemma RefreshedIsNotRunning(s: Stream, now: int, check: int)
    requires s.registered
    ensures RefreshTimer(s, true, now, check).alarm.state != Running
  {
  }

  lemma AnnouncedIsNotRunning(s: Stream, reason: Reason, clock: int, check: int)
    requires !s.closed && s.registered
    ensures SendClose(s, reason, true, clock, check).alarm.state != Running
  {
  }

  lemma FinalisedRests(s: Stream, reason: Reason, up: bool, clock: int)
    ensures Punctual(CloseInternal(s, reason), up, clock)
    ensures !s.closed ==> CloseInternal(s, reason).alarm.state == Idle
  {
    FinalisedIsPunctual(s, reason, up, clock);
  }

  lemma FireIsPunctual(s: Stream, up: bool, now: int, clock: int, check: int)
    requires Kept(s, up, clock) && !s.closed && Punctual(s, up, clock) && now <= clock
    ensures Punctual(FireTimer(s, up, now, clock, check), up, clock)
  {
    hide UpdateOpen, UpdateClosing, Punctual;
    if !up {
      DownIsPunctual(FireTimer(s, up, now, clock, check), clock);
    } else if s.alarm.deadline <= now {
      var t := s.(alarm := s.alarm.(state := Running));
      if s.state == Closing {
        UpdateIsPunctual(t, now, clock, check);
      } else {
        OpenTakes(t, now, clock, check);
        OthersArePunctual(FireTimer(s, up, now, clock, check), up, clock);
      }
    }
  }

  lemma CallsArePunctual(s: Stream, c: Config, up: bool, clock: int, check: int)
    requires Shaped(s) && !s.closed && Punctual(s, up, clock)
    ensures Punctual(FinishBatch(s, up, clock), up, clock)
    ensures Punctual(FinishBatch(s.(inBatch := false), up, clock), up, clock)
    ensures Punctual(SetConfig(s, c, up, clock, check), up, clock)
  {
    hide RefreshTimer, Punctual;
    SamePunctual(s, s.(inBatch := false), up, clock);
    var t := ClearPending(s.(config := c.(mss := s.config.mss)));
    TimerFrame(t, up, clock, check);
    if s.state == Open {
      OthersArePunctual(FinishBatch(s, up, clock), up, clock);
      OthersArePunctual(FinishBatch(s.(inBatch := false), up, clock), up, clock);
      OthersArePunctual(RefreshTimer(t, up, clock, check), up, clock);
    } else if up {
      RefreshIsPunctual(t, clock, clock, check);
    } else {
      DownIsPunctual(RefreshTimer(t, up, clock, check), clock);
    }
  }

  /** Every operation keeps the timer punctual. */
  lemma ApplyIsPunctual(s: Stream, st: Step, wasUp: bool, was: int)
    requires Kept(s, wasUp, was) && Punctual(s, wasUp, was) && Follows(wasUp, was, st)
    ensures Punctual(Apply(s, st), st.up, st.clock)
  {
    hide Close, HandleClose, HandleCloseAck, HandlePayload, Recv, SendData, FinishBatch, SetConfig, FireTimer, CloseInternal;
    hide Punctual, Charted;
    LaterIsPunctual(s, wasUp, st.up, was, st.clock);
    KeptLater(s, wasUp, st.up, was, st.clock);
    if s.closed {
      StepFollowsChart(s, st);
      OverStays(s, st);
      OthersArePunctual(Apply(s, st), st.up, st.clock);
      return;
    }
    match st.op {
      case CloseCall => CloseIsPunctual(s, st.up, st.clock, st.check);
      case PeerClose(reason) => PeerCloseIsPunctual(s, reason, st.up, st.clock, st.check);
      case PeerCloseAck => AckIsPunctual(s, st.up, st.clock);
      case Payload(kcp, ok) => PayloadIsPunctual(s, kcp, ok, st.up, st.clock);
      case RecvCall(size, ok) => RecvIsPunctual(s, size, ok, st.up, st.clock);
      case SendCall(data, room, flush) => SendIsPunctual(s, st);
      case FinishBatchCall => CallsArePunctual(s, s.config, st.up, st.clock, st.check);
      case EngineFinishBatch => CallsArePunctual(s, s.config, st.up, st.clock, st.check);
      case SetConfigCall(config) => CallsArePunctual(s, config, st.up, st.clock, st.check);
      case Fire => FireIsPunctual(s, st.up, st.now, st.clock, st.check);
      case Finalise(reason) => FinalisedIsPunctual(s, reason, st.up, st.clock);
    }
  }

  lemma AckIsPunctual(s: Stream, up: bool, clock: int)
    requires Punctual(s, up, clock)
    ensures Punctual(HandleCloseAck(s), up, clock)
  {
    hide CloseInternal, Punctual;
    FinalisedIsPunctual(s, s.reason, up, clock);
  }

  /** Only an open stream can be sent on, and it stays open. */
  lemma SendIsPunctual(s: Stream, st: Step)
    requires Shaped(s) && !s.closed && Punctual(s, st.up, st.clock) && st.op.SendCall?
    ensures Punctual(Apply(s, st), st.up, st.clock)
  {
    hide Punctual, Enqueued, SendPath.Accepted, SendPath.Flatten;
    if CanSend(s, st.up) {
      StepFollowsChart(s, st);
      OthersArePunctual(Apply(s, st), st.up, st.clock);
    }
  }

  /**
    Over any run of a new stream: while its connection is up, a stream that waits
    for an acknowledgement or for its application to read is due exactly when
    that wait is over, one that is to end is due at once, and a drain is due when
    its time is over if not before.
   */
  lemma {:induction false} RunIsPunctual(s: Stream, up: bool, clock: int, run: seq<Step>)
    requires Kept(s, up, clock) && Punctual(s, up, clock) && Plausible(s, up, clock, run)
    ensures Punctual(After(s, run), LastUp(up, run), LastClock(clock, run))
    decreases |run|
  {
    hide Apply, Kept, Punctual;
    if run != [] {
      ApplyKeeps(s, run[0], up, clock);
      ApplyIsPunctual(s, run[0], up, clock);
      RunIsPunctual(Apply(s, run[0]), run[0].up, run[0].clock, run[1..]);
    }
  }
}

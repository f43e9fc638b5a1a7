/**
  What single operations on a stream guarantee about announcing a close and
  about draining.
 */
module StreamSteps {
  import opened Timer
  import Kcp
  import opened Stream
  import opened StreamRuns

  /** Waiting for the acknowledgement of a normal close. */
  predicate AwaitingNormal(s: Stream) {
    !s.closed && s.phase == WaitAck && s.reason == NORMAL
  }

  /** Letting the application read what is left after the peer's normal close. */
  predicate Draining(s: Stream) {
    !s.closed && s.state == Closing && s.phase == RemoteDrain
  }

  /**
    An operation that leaves KCP alone neither reopens a stream, nor announces
    a normal close before everything sent is acknowledged, nor starts a drain.
   */
  ghost predicate Careful(s: Stream, t: Stream) {
    && t.kcp == s.kcp && Shaped(t)
    && (s.state != Open ==> t.state != Open)
    && (s.phase == Finalize ==> t.phase == Finalize)
    && (!KcpActive(s) ==> !KcpActive(t))
    && (SentClose(NORMAL) in s.log ==> SentClose(NORMAL) in t.log)
    && (SentClose(NORMAL) in t.log ==>
          SentClose(NORMAL) in s.log || AwaitingNormal(s) || (Kcp.WaitSnd(s.kcp) == 0 && !KcpActive(t)))
    && (AwaitingNormal(t) ==> AwaitingNormal(s) || Kcp.WaitSnd(s.kcp) == 0)
    && (Draining(t) ==> Draining(s))
  }

  lemma TimerFrame(s: Stream, up: bool, now: int, check: int)
    ensures RefreshTimer(s, up, now, check) == s.(alarm := RefreshTimer(s, up, now, check).alarm)
    ensures Schedule(s, check, now) == s.(alarm := Schedule(s, check, now).alarm)
  {
  }

  lemma FinaliseIsCareful(s: Stream, reason: Reason)
    requires Shaped(s)
    ensures Careful(s, CloseInternal(s, reason))
  {
  }

  lemma SendCloseFrame(s: Stream, reason: Reason, up: bool, clock: int, check: int)
    requires !s.closed
    ensures var t := SendClose(s, reason, up, clock, check);
      t == s.(lastCtrl := clock, log := s.log + [SentClose(reason)], alarm := t.alarm)
  {
    hide RefreshTimer;
    TimerFrame(Logged(s.(lastCtrl := clock), SentClose(reason)), up, clock, check);
  }

  lemma AdvanceIsCareful(s: Stream, up: bool, clock: int, check: int)
    requires Shaped(s)
    ensures Careful(s, AdvanceLocalClose(s, up, clock, check))
  {
    hide SendClose, CloseInternal;
    if !s.closed && s.phase == LocalDrain && Kcp.WaitSnd(s.kcp) == 0 {
      var t := s.(phase := WaitAck, retries := 0);
      SendCloseFrame(t, NORMAL, up, clock, check);
      FinaliseIsCareful(SendClose(t, NORMAL, up, clock, check), NORMAL);
    }
  }

  lemma SetStateFrame(s: Stream, to: State, up: bool, clock: int, check: int)
    requires s.state != to
    ensures var t := SetState(s, to, up, clock, check);
      && t == s.(state := to, alarm := t.alarm, log := t.log)
      && (SentClose(NORMAL) in t.log <==> SentClose(NORMAL) in s.log)
  {
    hide RefreshTimer;
    TimerFrame(s.(state := to), up, clock, check);
  }

  lemma CloseIsCareful(s: Stream, up: bool, clock: int, check: int)
    requires Shaped(s)
    ensures Careful(s, Close(s, up, clock, check))
  {
    hide SetState, AdvanceLocalClose, Schedule, CloseInternal;
    if s.state == Open {
      var t := s.(lastCtrl := clock, drainStart := clock, reason := NORMAL, retries := 0, phase := LocalDrain);
      SetStateFrame(t, Closing, up, clock, check);
      var u := SetState(t, Closing, up, clock, check);
      FinaliseIsCareful(u, NORMAL);
      TimerFrame(u, up, clock, clock);
      AdvanceIsCareful(Schedule(u, clock, clock), up, clock, check);
    } else if s.state == Closing {
      TimerFrame(ClearPending(s.(reason := NORMAL, phase := Finalize)), up, clock, clock);
    }
  }

  /** A peer's close starts a drain only on an open stream, and leaves what is already readable to it. */
  lemma HandleCloseIsCareful(s: Stream, reason: Reason, up: bool, clock: int, check: int)
    requires Shaped(s)
    ensures var t := HandleClose(s, reason, up, clock, check);
      if reason == NORMAL && !s.closed && s.state == Open
      then t.kcp == s.kcp && !KcpActive(t) && !t.closed && t.state == Closing && Shaped(t)
           && (SentClose(NORMAL) in t.log <==> SentClose(NORMAL) in s.log)
           && t.phase == if Kcp.PeekSize(s.kcp) <= 0 then Finalize else RemoteDrain
      else Careful(s, t)
  {
    hide SetState, Schedule, CloseInternal, ScheduleFinalize;
    var t := Logged(s, SentCloseAck(reason));
    if s.closed {
    } else if reason != NORMAL {
      FinaliseIsCareful(t, reason);
    } else if s.state == Closing {
      ScheduleFinalizeFrame(t, NORMAL, clock);
    } else {
      var u := t.(reason := reason, phase := RemoteDrain, drainStart := clock);
      SetStateFrame(u, Closing, up, clock, check);
      ScheduleFinalizeFrame(SetState(u, Closing, up, clock, check), reason, clock);
    }
  }

  lemma ScheduleFinalizeFrame(s: Stream, reason: Reason, clock: int)
    ensures var t := ScheduleFinalize(s, reason, clock);
      t == s.(reason := reason, phase := Finalize, pending := 0, inBatch := false, alarm := t.alarm)
  {
    hide Schedule;
    TimerFrame(ClearPending(s.(reason := reason, phase := Finalize)), true, clock, clock);
  }

  lemma UpdateIsCareful(s: Stream, up: bool, now: int, clock: int, check: int)
    requires Shaped(s) && !s.closed && s.state == Closing
    ensures Careful(s, UpdateClosing(s, up, now, clock, check))
  {
    hide SendClose, CloseInternal, AdvanceLocalClose, RefreshTimer;
    match s.phase {
      case LocalDrain =>
        var t := ClearPending(s);
        AdvanceIsCareful(t, up, clock, check);
        var u := t.(reason := TIMEOUT);
        SendCloseFrame(u, TIMEOUT, up, clock, check);
        FinaliseIsCareful(SendClose(u, TIMEOUT, up, clock, check), TIMEOUT);
        TimerFrame(t, up, now, check);
      case WaitAck =>
        var r := s.(retries := s.retries + 1);
        SendCloseFrame(r, s.reason, up, clock, check);
        FinaliseIsCareful(SendClose(r, s.reason, up, clock, check), s.reason);
        FinaliseIsCareful(s, s.reason);
      case RemoteDrain => FinaliseIsCareful(s, TIMEOUT);
      case Finalize => FinaliseIsCareful(s, s.reason);
    }
  }

  lemma FireIsCareful(s: Stream, up: bool, now: int, clock: int, check: int)
    requires Shaped(s)
    ensures Careful(s, FireTimer(s, up, now, clock, check))
  {
    hide UpdateClosing, Schedule;
    var t := s.(alarm := s.alarm.(state := Running));
    if !s.closed && s.state == Closing {
      UpdateIsCareful(t, up, now, clock, check);
    }
    var u := ClearPending(t);
    TimerFrame(u, up, now, check);
    TimerFrame(Notify(u.(writeBlocked := false), WriteNotify), up, now, check);
  }

  /** What the remaining calls of the application do. */
  lemma CallsAreCareful(s: Stream, c: Config, up: bool, clock: int, check: int)
    requires Shaped(s)
    ensures Careful(s, SetConfig(s, c, up, clock, check)) && Careful(s, FinishBatch(s, up, clock))
    ensures Careful(s, HandleCloseAck(s))
  {
    hide RefreshTimer, CloseInternal;
    TimerFrame(ClearPending(s.(config := c.(mss := s.config.mss))), up, clock, check);
    FinaliseIsCareful(s, s.reason);
  }

  /** What the engine's end of a batch does. */
  lemma BatchEndIsCareful(s: Stream, up: bool, clock: int)
    requires Shaped(s)
    ensures Careful(s, if s.inBatch then FinishBatch(s.(inBatch := false), up, clock) else s)
  {
  }
}

/**
  How long a locally started close can take.  Updates are on time: nothing
  happens to a live stream later than its timer, and the clock stands still
  during an operation.  Configuration is fixed and the connection stays up.
 */
module BoundedClose {
  import opened Timer
  import Kcp
  import SendPath
  import opened Stream
  import opened StreamRuns
  import opened StreamSteps

  /** How many STREAM_CLOSE datagrams a log records. */
  function CloseSends(log: seq<Event>): int {
    if log == [] then 0
    else CloseSends(log[..|log| - 1]) + if log[|log| - 1].SentClose? then 1 else 0
  }

  lemma OneMore(log: seq<Event>, e: Event)
    ensures CloseSends(log + [e]) == CloseSends(log) + if e.SentClose? then 1 else 0
  {
    assert (log + [e])[..|log|] == log;
  }

  lemma FinaliseFrame(s: Stream, reason: Reason)
    requires !s.closed
    ensures var t := CloseInternal(s, reason);
      t.closed && (t.state == Closed || t.state == Failed) && CloseSends(t.log) == CloseSends(s.log)
  {
    hide CloseSends;
    OneMore(s.log, KcpReleased);
    var log := s.log + [KcpReleased];
    OneMore(log, CloseNotify(reason));
    OneMore(log, ReleaseQueued);
    OneMore(log + [CloseNotify(reason)], ReleaseQueued);
  }

  /** The latest moment at which a close started at `start` is still going on. */
  function Limit(c: Config, start: int, retries: int): int {
    start + c.drainTimeout + retries * c.ctrlTimeout
  }

  lemma LimitGrows(c: Config, start: int, r: int, n: int)
    requires Acceptable(c) && r <= n
    ensures Limit(c, start, r) <= Limit(c, start, n)
    ensures Limit(c, start, r + 1) == Limit(c, start, r) + c.ctrlTimeout
  {
    assert (n - r) * c.ctrlTimeout >= 0;
    assert n * c.ctrlTimeout - r * c.ctrlTimeout == (n - r) * c.ctrlTimeout;
    assert (r + 1) * c.ctrlTimeout == r * c.ctrlTimeout + c.ctrlTimeout;
  }

  /**
    A close that started at `start`, when the log recorded `base` announcements,
    is on schedule: each phase ends in time for the next ones to fit.
   */
  ghost predicate OnSchedule(s: Stream, c: Config, start: int, base: int) {
    && s.config == c && Acceptable(c)
    && if s.closed then (s.state == Closed || s.state == Failed) && CloseSends(s.log) <= base + 1 + c.closeRetries
       else
         && s.registered && s.state == Closing && s.alarm.state == InHeap
         && s.alarm.deadline <= Limit(c, start, c.closeRetries)
         && match s.phase
            case LocalDrain =>
              && s.drainStart == start && s.alarm.deadline <= DeadlineAfter(start, c.drainTimeout)
              && CloseSends(s.log) == base
            case WaitAck =>
              && 0 <= s.retries < c.closeRetries
              && s.lastCtrl <= Limit(c, start, s.retries)
              && s.alarm.deadline == DeadlineAfter(s.lastCtrl, c.ctrlTimeout)
              && CloseSends(s.log) == base + 1 + s.retries
            case Finalize => CloseSends(s.log) <= base + 1 + c.closeRetries
            case _ => false
  }

  /** A moment at which something may happen to the stream. */
  ghost predicate OnTime(s: Stream, time: int) {
    time <= INT64_MAX && (!s.closed ==> time <= s.alarm.deadline)
  }

  /** Announcing starts, or restarts, a full waiting period. */
  lemma AnnounceOnSchedule(s: Stream, reason: Reason, c: Config, start: int, base: int, time: int, check: int)
    requires s.config == c && Acceptable(c) && !s.closed && s.registered && s.state == Closing && s.phase == WaitAck
    requires 0 <= s.retries < c.closeRetries && time <= Limit(c, start, s.retries) && time <= INT64_MAX
    requires CloseSends(s.log) == base + s.retries
    ensures OnSchedule(SendClose(s, reason, true, time, check), c, start, base)
  {
    hide CloseSends, Limit, SendClose;
    OneMore(s.log, SentClose(reason));
    LimitGrows(c, start, s.retries, s.retries);
    LimitGrows(c, start, s.retries + 1, c.closeRetries);
    SendCloseFrame(s, reason, true, time, check);
    AnnounceAlarm(s, reason, time, check);
  }

  lemma AnnounceAlarm(s: Stream, reason: Reason, time: int, check: int)
    requires !s.closed && s.registered && s.state == Closing && s.phase == WaitAck && time <= INT64_MAX
    requires 0 < s.config.ctrlTimeout
    ensures SendClose(s, reason, true, time, check).alarm == Alarm(InHeap, DeadlineAfter(time, s.config.ctrlTimeout))
  {
  }

  lemma AdvanceOnSchedule(s: Stream, c: Config, start: int, base: int, time: int, check: int)
    requires OnSchedule(s, c, start, base) && !s.closed && s.phase == LocalDrain && OnTime(s, time)
    ensures OnSchedule(AdvanceLocalClose(s, true, time, check), c, start, base)
  {
    hide SendClose, CloseInternal, CloseSends, Limit;
    if Kcp.WaitSnd(s.kcp) == 0 {
      var t := s.(phase := WaitAck, retries := 0);
      LimitStart(c, start);
      if c.closeRetries == 0 {
        OneMore(s.log, SentClose(NORMAL));
        SendCloseFrame(t, NORMAL, true, time, check);
        FinaliseFrame(SendClose(t, NORMAL, true, time, check), NORMAL);
        FinaliseConfig(SendClose(t, NORMAL, true, time, check), NORMAL);
      } else {
        AnnounceOnSchedule(t, NORMAL, c, start, base, time, check);
      }
    }
  }

  lemma LimitStart(c: Config, start: int)
    ensures Limit(c, start, 0) == start + c.drainTimeout
  {
  }

  lemma FinaliseConfig(s: Stream, reason: Reason)
    ensures CloseInternal(s, reason).config == s.config
  {
  }

  /** The timer fires during the send drain. */
  lemma FireDraining(s: Stream, c: Config, start: int, base: int, time: int, check: int)
    requires OnSchedule(s.(alarm := s.alarm.(state := InHeap)), c, start, base) && !s.closed && s.phase == LocalDrain
    requires time == s.alarm.deadline <= INT64_MAX
    ensures OnSchedule(UpdateClosing(s, true, time, time, check), c, start, base)
  {
    hide SendClose, CloseInternal, CloseSends, Limit;
    var t := ClearPending(s);
    LimitStart(c, start);
    LimitGrows(c, start, 0, c.closeRetries);
    if Kcp.WaitSnd(t.kcp) == 0 {
      var u := t.(phase := WaitAck, retries := 0);
      if c.closeRetries == 0 {
        OneMore(s.log, SentClose(NORMAL));
        SendCloseFrame(u, NORMAL, true, time, check);
        FinaliseFrame(SendClose(u, NORMAL, true, time, check), NORMAL);
        FinaliseConfig(SendClose(u, NORMAL, true, time, check), NORMAL);
      } else {
        AnnounceOnSchedule(u, NORMAL, c, start, base, time, check);
      }
    } else if time >= DeadlineAfter(t.drainStart, t.config.drainTimeout) {
      var u := t.(reason := TIMEOUT);
      OneMore(s.log, SentClose(TIMEOUT));
      SendCloseFrame(u, TIMEOUT, true, time, check);
      FinaliseFrame(SendClose(u, TIMEOUT, true, time, check), TIMEOUT);
      FinaliseConfig(SendClose(u, TIMEOUT, true, time, check), TIMEOUT);
    }
  }

  /** The timer fires while the acknowledgement is missing. */
  lemma FireWaiting(s: Stream, c: Config, start: int, base: int, time: int, check: int)
    requires OnSchedule(s.(alarm := s.alarm.(state := InHeap)), c, start, base) && !s.closed && s.phase == WaitAck
    requires time == s.alarm.deadline <= INT64_MAX
    ensures OnSchedule(UpdateClosing(s, true, time, time, check), c, start, base)
  {
    hide SendClose, CloseInternal, CloseSends, Limit;
    var r := s.(retries := s.retries + 1);
    LimitGrows(c, start, s.retries, s.retries);
    if s.retries + 1 == c.closeRetries {
      OneMore(s.log, SentClose(s.reason));
      SendCloseFrame(r, s.reason, true, time, check);
      FinaliseFrame(SendClose(r, s.reason, true, time, check), s.reason);
      FinaliseConfig(SendClose(r, s.reason, true, time, check), s.reason);
    } else {
      AnnounceOnSchedule(r, s.reason, c, start, base, time, check);
    }
  }

  lemma FireOnSchedule(s: Stream, c: Config, start: int, base: int, time: int, check: int)
    requires OnSchedule(s, c, start, base) && OnTime(s, time)
    ensures OnSchedule(FireTimer(s, true, time, time, check), c, start, base)
  {
    hide UpdateClosing, CloseSends, Limit;
    if !s.closed && s.alarm.deadline <= time {
      var t := s.(alarm := s.alarm.(state := Running));
      match s.phase {
        case LocalDrain => FireDraining(t, c, start, base, time, check);
        case WaitAck => FireWaiting(t, c, start, base, time, check);
        case Finalize => FireFinalizing(t, c, start, base, time, check);
      }
    }
  }

  lemma FireFinalizing(s: Stream, c: Config, start: int, base: int, time: int, check: int)
    requires OnSchedule(s.(alarm := s.alarm.(state := InHeap)), c, start, base) && !s.closed && s.phase == Finalize
    ensures OnSchedule(UpdateClosing(s, true, time, time, check), c, start, base)
  {
    hide CloseInternal, CloseSends, Limit;
    FinaliseFrame(s, s.reason);
    FinaliseConfig(s, s.reason);
  }

  lemma FinaliseOnSchedule(s: Stream, reason: Reason, c: Config, start: int, base: int)
    requires OnSchedule(s, c, start, base)
    ensures OnSchedule(CloseInternal(s, reason), c, start, base)
  {
    hide CloseInternal, CloseSends, Limit;
    if !s.closed {
      FinaliseFrame(s, reason);
      FinaliseConfig(s, reason);
    } else {
      ClosedStays(s, reason);
    }
  }

  lemma ClosedStays(s: Stream, reason: Reason)
    requires s.closed
    ensures CloseInternal(s, reason) == s
  {
  }

  /** A peer's close ends the local one at once, or at the next firing, which is now. */
  lemma PeerCloseOnSchedule(s: Stream, reason: Reason, c: Config, start: int, base: int, time: int, check: int)
    requires OnSchedule(s, c, start, base) && OnTime(s, time)
    ensures OnSchedule(HandleClose(s, reason, true, time, check), c, start, base)
    ensures var t := HandleClose(s, reason, true, time, check);
      !s.closed ==> t.closed || (t.phase == Finalize && t.alarm.deadline <= s.alarm.deadline)
  {
    hide CloseInternal, CloseSends, Limit;
    if !s.closed {
      var t := Logged(s, SentCloseAck(reason));
      OneMore(s.log, SentCloseAck(reason));
      FinaliseFrame(t, reason);
      FinaliseConfig(t, reason);
    }
  }

  lemma PayloadOnSchedule(s: Stream, kcp: Kcp.Session, ok: bool, c: Config, start: int, base: int, time: int)
    requires OnSchedule(s, c, start, base) && OnTime(s, time)
    ensures OnSchedule(HandlePayload(s, kcp, ok, time), c, start, base)
  {
    hide CloseSends, Limit;
  }

  /** Nothing else affects a closing stream. */
  lemma RestOnSchedule(s: Stream, st: Step, c: Config, start: int, base: int)
    requires OnSchedule(s, c, start, base) && OnTime(s, st.clock) && st.up
    requires st.op.CloseCall? || st.op.RecvCall? || st.op.SendCall? || st.op.FinishBatchCall? || st.op.EngineFinishBatch?
    ensures OnSchedule(Apply(s, st), c, start, base)
  {
    hide CloseSends, Limit;
  }

  /** Steps at one moment on an up connection, with the configuration left alone. */
  ghost predicate Timely(s: Stream, st: Step) {
    st.up && st.now == st.clock && OnTime(s, st.clock) && !st.op.SetConfigCall?
  }

  lemma StepOnSchedule(s: Stream, st: Step, c: Config, start: int, base: int)
    requires OnSchedule(s, c, start, base) && Timely(s, st)
    ensures OnSchedule(Apply(s, st), c, start, base)
  {
    hide OnSchedule, HandleClose, HandlePayload, FireTimer, CloseInternal, Close, Recv, Send, FinishBatch;
    match st.op {
      case PeerClose(reason) => PeerCloseOnSchedule(s, reason, c, start, base, st.clock, st.check);
      case PeerCloseAck => FinaliseOnSchedule(s, s.reason, c, start, base);
      case Payload(kcp, ok) => PayloadOnSchedule(s, kcp, ok, c, start, base, st.clock);
      case Fire => FireOnSchedule(s, c, start, base, st.clock, st.check);
      case Finalise(reason) => FinaliseOnSchedule(s, reason, c, start, base);
      case _ => RestOnSchedule(s, st, c, start, base);
    }
  }

  ghost predicate TimelyRun(s: Stream, run: seq<Step>)
    decreases |run|
  {
    run != [] ==> Timely(s, run[0]) && TimelyRun(Apply(s, run[0]), run[1..])
  }

  lemma {:induction false} RunOnSchedule(s: Stream, run: seq<Step>, c: Config, start: int, base: int)
    requires OnSchedule(s, c, start, base) && TimelyRun(s, run)
    ensures OnSchedule(After(s, run), c, start, base)
    decreases |run|
  {
    hide OnSchedule, Apply;
    if run != [] {
      StepOnSchedule(s, run[0], c, start, base);
      RunOnSchedule(Apply(s, run[0]), run[1..], c, start, base);
    }
  }

  /** Starting the close puts it on schedule. */
  lemma CloseOnSchedule(s: Stream, start: int, check: int)
    requires Acceptable(s.config) && !s.closed && s.registered && s.state == Open && start <= INT64_MAX
    ensures OnSchedule(Close(s, true, start, check), s.config, start, CloseSends(s.log))
  {
    hide CloseInternal, CloseSends, Limit, SetState, AdvanceLocalClose;
    var t := s.(lastCtrl := start, drainStart := start, reason := NORMAL, retries := 0, phase := LocalDrain);
    var u := SetState(t, Closing, true, start, check);
    EnterClosing(t, start, check);
    if u.isInitiator && u.upSent == 0 {
      FinaliseFrame(u, NORMAL);
      FinaliseConfig(u, NORMAL);
    } else {
      LimitStart(s.config, start);
      LimitGrows(s.config, start, 0, s.config.closeRetries);
      AdvanceOnSchedule(Schedule(u, start, start), s.config, start, CloseSends(s.log), start, check);
    }
  }

  lemma EnterClosing(s: Stream, clock: int, check: int)
    requires s.state == Open
    ensures var t := SetState(s, Closing, true, clock, check);
      t == s.(state := Closing, alarm := t.alarm, log := t.log) && CloseSends(t.log) == CloseSends(s.log)
  {
    hide CloseSends;
    SetStateFrame(s, Closing, true, clock, check);
    OneMore(s.log, StateChanged(Open, Closing));
    hide RefreshTimer;
    TimerFrame(s.(state := Closing), true, clock, check);
  }

  /**
    Bounded close.  Whatever happens after the application closes a stream, at
    most 1 + close_retries announcements are sent, and if anything can still
    happen to the stream at `time` then `time` is within
    drain_timeout + close_retries * ctrl_timeout of the close.
   */
  lemma CloseIsBounded(s: Stream, start: int, check: int, run: seq<Step>, time: int)
    requires Acceptable(s.config) && !s.closed && s.registered && s.state == Open && start <= INT64_MAX
    requires TimelyRun(Close(s, true, start, check), run)
    ensures var t := After(Close(s, true, start, check), run);
      && CloseSends(t.log) <= CloseSends(s.log) + 1 + s.config.closeRetries
      && (!t.closed && OnTime(t, time) ==>
            time <= start + s.config.drainTimeout + s.config.closeRetries * s.config.ctrlTimeout)
  {
    hide CloseSends;
    CloseOnSchedule(s, start, check);
    RunOnSchedule(Close(s, true, start, check), run, s.config, start, CloseSends(s.log));
  }

  // The peer's close.

  /** A drain that the peer's close started at `start` is within its time. */
  ghost predicate WithinDrain(s: Stream, c: Config, start: int) {
    && s.config == c && Acceptable(c)
    && if s.closed then s.state == Closed || s.state == Failed
       else
         && s.registered && s.state == Closing && s.alarm.state == InHeap
         && s.alarm.deadline <= DeadlineAfter(start, c.drainTimeout)
         && (s.phase == RemoteDrain || s.phase == Finalize)
         && (s.phase == RemoteDrain ==> s.drainStart == start && s.alarm.deadline == DeadlineAfter(start, c.drainTimeout))
  }

  lemma FinalizeWithinDrain(s: Stream, reason: Reason, c: Config, start: int, time: int)
    requires s.config == c && Acceptable(c) && !s.closed && s.registered && s.state == Closing
    requires time <= DeadlineAfter(start, c.drainTimeout)
    ensures WithinDrain(ScheduleFinalize(s, reason, time), c, start)
  {
  }

  lemma FinaliseWithinDrain(s: Stream, reason: Reason, c: Config, start: int)
    requires WithinDrain(s, c, start)
    ensures WithinDrain(CloseInternal(s, reason), c, start)
  {
  }

  lemma PeerCloseStartsDrain(s: Stream, start: int, check: int)
    requires Acceptable(s.config) && !s.closed && s.registered && s.state == Open && start <= INT64_MAX
    ensures WithinDrain(HandleClose(s, NORMAL, true, start, check), s.config, start)
  {
    hide ScheduleFinalize, CloseInternal;
    var t := Logged(s, SentCloseAck(NORMAL)).(reason := NORMAL, phase := RemoteDrain, drainStart := start);
    var u := SetState(t, Closing, true, start, check);
    FinalizeWithinDrain(u, NORMAL, s.config, start, start);
  }

  lemma FiringEndsDrain(s: Stream, c: Config, start: int, time: int, check: int)
    requires WithinDrain(s, c, start) && OnTime(s, time)
    ensures WithinDrain(FireTimer(s, true, time, time, check), c, start)
  {
    hide SendClose, AdvanceLocalClose, UpdateOpen, CloseInternal;
    var t := s.(alarm := s.alarm.(state := Running));
    if !s.closed {
      FinalisedIsWithin(t, TIMEOUT, c, start);
      FinalisedIsWithin(t, s.reason, c, start);
    }
  }

  lemma FinalisedIsWithin(s: Stream, reason: Reason, c: Config, start: int)
    requires s.config == c && Acceptable(c) && !s.closed
    ensures var t := CloseInternal(s, reason); WithinDrain(t, c, start) && t.closed && t.alarm.state == Idle
  {
  }

  lemma PeerCloseWithinDrain(s: Stream, reason: Reason, c: Config, start: int, time: int, check: int)
    requires WithinDrain(s, c, start)
    ensures WithinDrain(HandleClose(s, reason, true, time, check), c, start)
  {
    hide SetState, ScheduleFinalize, CloseInternal;
    FinaliseWithinDrain(Logged(s, SentCloseAck(reason)), reason, c, start);
  }

  lemma CallsWithinDrain(s: Stream, size: int, ok: bool, c: Config, start: int, time: int, check: int)
    requires WithinDrain(s, c, start) && OnTime(s, time)
    ensures WithinDrain(Close(s, true, time, check), c, start)
    ensures WithinDrain(Recv(s, size, ok, time), c, start)
  {
    hide SetState, ScheduleFinalize, CloseInternal, AdvanceLocalClose;
    if !s.closed {
      FinalizeWithinDrain(s, NORMAL, c, start, time);
      FinalizeWithinDrain(s.(kcp := Kcp.Recv(s.kcp)), s.reason, c, start, time);
    }
  }

  lemma StepWithinDrain(s: Stream, st: Step, c: Config, start: int)
    requires WithinDrain(s, c, start) && Timely(s, st)
    ensures WithinDrain(Apply(s, st), c, start)
  {
    hide FireTimer, Close, HandleClose, Recv, CloseInternal, SendPath.Accepted, SendPath.Flatten, Accumulate;
    match st.op {
      case Fire => FiringEndsDrain(s, c, start, st.clock, st.check);
      case CloseCall => CallsWithinDrain(s, 0, false, c, start, st.clock, st.check);
      case RecvCall(size, ok) => CallsWithinDrain(s, size, ok, c, start, st.clock, st.check);
      case PeerClose(reason) => PeerCloseWithinDrain(s, reason, c, start, st.clock, st.check);
      case PeerCloseAck => FinaliseWithinDrain(s, s.reason, c, start);
      case Finalise(reason) => FinaliseWithinDrain(s, reason, c, start);
      case _ =>
    }
  }

  lemma {:induction false} RunWithinDrain(s: Stream, run: seq<Step>, c: Config, start: int)
    requires WithinDrain(s, c, start) && TimelyRun(s, run)
    ensures WithinDrain(After(s, run), c, start)
    decreases |run|
  {
    hide WithinDrain, Apply;
    if run != [] {
      StepWithinDrain(s, run[0], c, start);
      RunWithinDrain(Apply(s, run[0]), run[1..], c, start);
    }
  }

  /**
    Whatever happens after the peer's normal close of an open stream, if anything
    can still happen to the stream at `time` then `time` is within drain_timeout
    of the close: an application that does not read loses the stream then.
   */
  lemma DrainIsBounded(s: Stream, start: int, check: int, run: seq<Step>, time: int)
    requires Acceptable(s.config) && !s.closed && s.registered && s.state == Open && start <= INT64_MAX
    requires TimelyRun(HandleClose(s, NORMAL, true, start, check), run)
    ensures var t := After(HandleClose(s, NORMAL, true, start, check), run);
      !t.closed && OnTime(t, time) ==> time <= start + s.config.drainTimeout
  {
    PeerCloseStartsDrain(s, start, check);
    RunWithinDrain(HandleClose(s, NORMAL, true, start, check), run, s.config, start);
  }
}

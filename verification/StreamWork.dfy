/**
  How a stream asks for KCP to be updated (src/kcpmux_stream.c): work that is
  not flushed is on the batch list or due, the threshold of a batch is exact, and
  a timer that fires is set again for what KCP asks for.
 */
module StreamWork {
  import opened Timer
  import Kcp
  import SendPath
  import opened Stream
  import opened StreamRuns
  import opened StreamChart

  /** Its timer goes off at the next update. */
  predicate IsDue(s: Stream, clock: int) {
    s.alarm.state == InHeap && s.alarm.deadline <= clock
  }

  /** A step that leaves KCP with something to do: a payload, or an unflushed send of which something was accepted. */
  predicate Works(s: Stream, st: Step) {
    && st.up && !s.closed && s.state == Open
    && match st.op
       case Payload(_, _) => true
       case SendCall(_, _, flush) => !flush && Apply(s, st).upSent > s.upSent
       case _ => false
  }

  /** What one operation counted towards a batch does to an open stream. */
  ghost predicate Counted(s: Stream, t: Stream, clock: int) {
    && !t.closed && t.state == Open && t.config == s.config
    && if s.config.batch <= 1 then t.alarm == Alarm(InHeap, clock) && t.pending == s.pending && t.inBatch == s.inBatch
       else if s.pending >= s.config.batch then t.alarm == s.alarm && t.pending == s.pending && t.inBatch == s.inBatch
       else
         && t.pending == s.pending + 1
         && if t.pending == s.config.batch then t.alarm == Alarm(InHeap, clock) && !t.inBatch
            else t.alarm == s.alarm && t.inBatch == (s.inBatch || s.pending == 0)
  }

  lemma AccumulateCounts(s: Stream, clock: int)
    requires !s.closed && s.state == Open && s.registered
    ensures Counted(s, Accumulate(s, clock), clock)
  {
  }

  lemma WorkCounts(s: Stream, st: Step)
    requires Shaped(s) && Works(s, st)
    ensures Counted(s, Apply(s, st), st.clock)
  {
    hide Accumulate, Counted, SendPath.Accepted, SendPath.Flatten;
    match st.op {
      case Payload(kcp, ok) =>
        AccumulateCounts(s.(kcp := kcp), st.clock);
        NoticeCounts(s, Accumulate(s.(kcp := kcp), st.clock), st.clock);
        CountedAnyway(s, s.(kcp := kcp), Accumulate(s.(kcp := kcp), st.clock), st.clock);
      case SendCall(data, room, flush) =>
        var got := SendPath.Accepted(data, s.config.mss, room);
        var t := s.(kcp := Handed(s.kcp, got), upSent := s.upSent + |SendPath.Flatten(got)|);
        AccumulateCounts(t, st.clock);
        CountedAnyway(s, t, Accumulate(t, st.clock), st.clock);
    }
  }

  lemma CountedAnyway(s: Stream, t: Stream, u: Stream, clock: int)
    requires t == s.(kcp := t.kcp, upSent := t.upSent)
    ensures Counted(t, u, clock) == Counted(s, u, clock)
  {
  }

  lemma NoticeCounts(s: Stream, t: Stream, clock: int)
    ensures Counted(s, Notify(t.(readBlocked := false), ReadNotify), clock) == Counted(s, t, clock)
  {
  }

  /**
    After any payload that an open stream of a connected connection takes, and
    any unflushed send of which KCP accepted something, the stream is on the
    batch list or due, whatever its configuration.
   */
  lemma WorkIsListedOrDue(s: Stream, st: Step, wasUp: bool, was: int)
    requires Kept(s, wasUp, was) && Follows(wasUp, was, st) && Works(s, st)
    ensures Apply(s, st).inBatch || IsDue(Apply(s, st), st.clock)
  {
    hide Apply;
    WorkCounts(s, st);
  }

  /** A run of nothing but such steps. */
  ghost predicate Working(s: Stream, run: seq<Step>)
    decreases |run|
  {
    run != [] ==> Works(s, run[0]) && Working(Apply(s, run[0]), run[1..])
  }

  lemma {:induction false} WorkAddsUp(s: Stream, clock: int, run: seq<Step>)
    requires Kept(s, true, clock) && !s.closed && s.state == Open && s.config.batch > 1
    requires Plausible(s, true, clock, run) && Working(s, run)
    ensures var t := After(s, run);
      && Kept(t, true, LastClock(clock, run)) && !t.closed && t.state == Open && t.config == s.config
      && t.pending == Min(s.pending + |run|, s.config.batch)
      && (t.pending < s.config.batch ==> t.alarm == s.alarm)
    decreases |run|
  {
    hide Apply, Kept, Works;
    KeptAccounts(s, clock);
    if run != [] {
      WorkIsUp(s, run[0]);
      ApplyKeeps(s, run[0], true, clock);
      WorkCounts(s, run[0]);
      WorkAddsUp(Apply(s, run[0]), run[0].clock, run[1..]);
    }
  }

  lemma WorkIsUp(s: Stream, st: Step)
    requires Works(s, st)
    ensures st.up
  {
  }

  lemma KeptAccounts(s: Stream, clock: int)
    requires Kept(s, true, clock) && !s.closed && s.state == Open
    ensures Shaped(s) && 0 <= s.pending && (s.config.batch > 1 ==> s.pending <= s.config.batch)
    ensures s.inBatch <==> 0 < s.pending < s.config.batch
    ensures 0 < s.pending == s.config.batch ==> IsDue(s, clock)
  {
  }

  /**
    The threshold is exact.  An open stream with nothing pending that takes `n`
    payloads and unflushed sends in a row is listed, its timer left alone, while
    `n` is below the threshold, and due and off the list from then on.
   */
  lemma ThresholdIsExact(s: Stream, clock: int, run: seq<Step>)
    requires Kept(s, true, clock) && !s.closed && s.state == Open && s.pending == 0 && run != []
    requires Plausible(s, true, clock, run) && Working(s, run)
    ensures var t := After(s, run);
      if |run| < s.config.batch then t.inBatch && t.alarm == s.alarm
      else !t.inBatch && IsDue(t, LastClock(clock, run))
  {
    hide Apply, Kept, Works, IsDue;
    if s.config.batch > 1 {
      WorkAddsUp(s, clock, run);
      KeptAccounts(After(s, run), LastClock(clock, run));
    } else {
      UnbatchedIsDue(s, clock, run);
    }
  }

  lemma {:induction false} UnbatchedIsDue(s: Stream, clock: int, run: seq<Step>)
    requires Kept(s, true, clock) && !s.closed && s.state == Open && s.config.batch <= 1 && run != []
    requires Plausible(s, true, clock, run) && Working(s, run)
    ensures !After(s, run).inBatch && IsDue(After(s, run), LastClock(clock, run))
    decreases |run|
  {
    hide Apply, Kept, Works;
    KeptAccounts(s, clock);
    WorkIsUp(s, run[0]);
    ApplyKeeps(s, run[0], true, clock);
    WorkCounts(s, run[0]);
    if |run| > 1 {
      UnbatchedIsDue(Apply(s, run[0]), run[0].clock, run[1..]);
    }
  }

  /**
    The end of a batch makes listed work due, and what is done before the timer
    fires joins it: the stream is not listed again.
   */
  lemma FinishedIsDue(s: Stream, st: Step, next: Step, wasUp: bool, was: int)
    requires Kept(s, wasUp, was) && Follows(wasUp, was, st) && st.up && s.inBatch && s.state == Open
    requires (st.op == FinishBatchCall || st.op == EngineFinishBatch) && st.clock <= next.clock
    ensures var t := Apply(s, st);
      && !t.inBatch && IsDue(t, st.clock)
      && (Works(t, next) ==> !Apply(t, next).inBatch && IsDue(Apply(t, next), next.clock))
  {
    hide Apply;
    var t := Apply(s, st);
    FinishFills(s, st);
    if Works(t, next) {
      WorkCounts(t, next);
    }
  }

  lemma FinishFills(s: Stream, st: Step)
    requires Shaped(s) && !s.closed && st.up && s.inBatch && s.state == Open
    requires st.op == FinishBatchCall || st.op == EngineFinishBatch
    ensures var t := Apply(s, st);
      t == s.(pending := s.config.batch, inBatch := false, alarm := Alarm(InHeap, st.clock)) && Shaped(t)
  {
  }

  // What KCP asks for.

  /** A new stream is open with nothing to read, nothing pending and its timer set for KCP's first update. */
  lemma NewAsksKcp(id: int, isInitiator: bool, config: Config, hooked: bool, clock: int, check: int)
    ensures var s := New(id, isInitiator, config, hooked, true, clock, check);
      && s.alarm == Alarm(InHeap, Max(check, clock)) && StageOf(s) == Opened && s.log == []
      && s.readBlocked && !s.writeBlocked && s.pending == 0 && !s.inBatch && s.upSent == 0
      && s.id == id && s.isInitiator == isInitiator && s.config == config && s.hooked == hooked && s.kcp == Kcp.FRESH
  {
  }

  /** An open stream that fired has its timer set for KCP's next update. */
  lemma FiringAsksKcp(s: Stream, st: Step)
    requires Shaped(s) && !s.closed && s.state == Open && st.up && st.op == Fire && IsDue(s, st.now)
    ensures var t := Apply(s, st);
      t.alarm == Alarm(InHeap, Max(st.check, st.now)) && t.pending == 0 && !t.inBatch && t.state == Open
  {
    hide UpdateClosing, Shaped;
    ShapedIsRegistered(s);
  }

  lemma ShapedIsRegistered(s: Stream)
    requires Shaped(s) && !s.closed
    ensures s.registered && (s.state == Open <==> s.phase == NoPhase)
  {
  }

  /** So has one that goes on draining, unless the drain ends before. */
  lemma DrainingAsksKcp(s: Stream, st: Step)
    requires Shaped(s) && !s.closed && s.phase == LocalDrain && st.up && st.op == Fire && IsDue(s, st.now)
    requires Kcp.WaitSnd(s.kcp) != 0 && !Passed(s.drainStart, s.config.drainTimeout, st.now)
    ensures var t := Apply(s, st);
      && !t.closed && t.phase == LocalDrain && t.pending == 0 && !t.inBatch
      && t.alarm == Alarm(InHeap, Max(Min(st.check, DeadlineAfter(s.drainStart, s.config.drainTimeout)), st.now))
  {
    hide UpdateOpen, SendClose, CloseInternal, AdvanceLocalClose, Shaped;
    ShapedIsRegistered(s);
    assert s.state == Closing by {
      ShapedIsOpenOrClosing(s);
    }
  }

  lemma ShapedIsOpenOrClosing(s: Stream)
    requires Shaped(s) && !s.closed
    ensures s.state == Open || s.state == Closing
  {
  }

  lemma FlushAsksKcp(s: Stream, st: Step)
    requires Shaped(s) && st.op.SendCall? && st.op.flush && CanSend(s, st.up)
    requires st.op.data == [] || Apply(s, st).upSent > s.upSent
    ensures var t := Apply(s, st);
      t.alarm == Alarm(InHeap, Max(st.check, st.clock)) && t.pending == 0 && !t.inBatch
  {
    hide SendPath.Accepted, SendPath.Flatten;
    NothingIsSentOfNothing(s.config.mss, st.op.room);
  }

  lemma NothingIsSentOfNothing(mss: int, room: nat)
    requires mss > 0
    ensures SendPath.Accepted([], mss, room) == []
  {
  }

  /** A new configuration is taken as a whole but for the segment size, or not at all. */
  lemma ConfigurationIsTaken(s: Stream, st: Step)
    requires Shaped(s) && !s.closed && st.op.SetConfigCall?
    ensures var t, c := Apply(s, st), st.op.config;
      if !Acceptable(c) then t == s
      else
        && t.config == c.(mss := s.config.mss) && t.pending == 0 && !t.inBatch
        && t == s.(config := t.config, pending := 0, inBatch := false, alarm := t.alarm)
        && (s.state == Open && st.up ==> t.alarm == Alarm(InHeap, Max(st.check, st.clock)))
  {
  }

  lemma ScheduleFinalizeIsDue(s: Stream, reason: Reason, clock: int)
    requires s.registered
    ensures IsDue(ScheduleFinalize(s, reason, clock), clock)
  {
  }

  /** A stream that is to end is due at once. */
  lemma EndIsDue(s: Stream, st: Step)
    requires Shaped(s) && !s.closed && s.phase != Finalize && Apply(s, st).phase == Finalize && !Apply(s, st).closed
    ensures IsDue(Apply(s, st), st.clock)
  {
    hide Close, HandleClose, HandleCloseAck, Recv, HandlePayload, SendData, SetConfig, FireTimer, FinishBatch, CloseInternal;
    hide Shaped, IsDue;
    StepFollowsChart(s, st);
    match st.op {
      case CloseCall => CloseEndsDue(s, st.up, st.clock, st.check);
      case PeerClose(reason) => PeerCloseEndsDue(s, reason, st.up, st.clock, st.check);
      case RecvCall(size, ok) => RecvEndsDue(s, size, ok, st.clock);
      case _ =>
    }
  }

  lemma CloseEndsDue(s: Stream, up: bool, clock: int, check: int)
    requires Shaped(s) && !s.closed && s.phase != Finalize
    ensures var t := Close(s, up, clock, check); t.phase == Finalize && !t.closed ==> IsDue(t, clock)
  {
    hide SetState, AdvanceLocalClose, Schedule, CloseInternal, ScheduleFinalize, IsDue;
    ScheduleFinalizeIsDue(s, NORMAL, clock);
    if s.state == Open {
      hide Close;
      CloseTakes(s, up, clock, check);
    }
  }

  lemma PeerCloseEndsDue(s: Stream, reason: Reason, up: bool, clock: int, check: int)
    requires Shaped(s) && !s.closed && s.phase != Finalize
    ensures var t := HandleClose(s, reason, up, clock, check); t.phase == Finalize && !t.closed ==> IsDue(t, clock)
  {
    hide SetState, CloseInternal, ScheduleFinalize, IsDue;
    var t := Logged(s, SentCloseAck(reason));
    FinaliseTakes(t, reason);
    ScheduleFinalizeIsDue(t, NORMAL, clock);
    if s.state == Open {
      var u := t.(reason := reason, phase := RemoteDrain, drainStart := clock);
      EnterTakes(u, up, clock, check);
      ScheduleFinalizeIsDue(SetState(u, Closing, up, clock, check), reason, clock);
    }
  }

  lemma RecvEndsDue(s: Stream, size: int, ok: bool, clock: int)
    requires Shaped(s) && !s.closed && s.phase != Finalize
    ensures var t := Recv(s, size, ok, clock); t.phase == Finalize && !t.closed ==> IsDue(t, clock)
  {
    hide ScheduleFinalize, IsDue;
    ScheduleFinalizeIsDue(s.(kcp := Kcp.Recv(s.kcp)), s.reason, clock);
  }

  /** A nonempty send reaches KCP exactly if fewer messages are waiting than the pause threshold, read as an int. */
  lemma SendPassesExactlyWhen(s: Stream, st: Step)
    requires Shaped(s) && st.op.SendCall? && st.op.data != [] && !SendPath.Invalid(st.op.data, st.op.flush)
    requires CanSend(s, st.up) && st.op.room > 0
    ensures var t := Apply(s, st);
      if Kcp.WaitSnd(s.kcp) < AsInt32(s.config.pauseAt) then t.upSent > s.upSent && t.writeBlocked == s.writeBlocked
      else t == s.(writeBlocked := true)
  {
  }
}

/**
  Edge-triggered flow control (src/kcpmux_stream.c): along every run the
  application is told once each time data became readable, and once each time
  a block on writing ended.
 */
module StreamNotices {
  import opened Timer
  import Kcp
  import SendPath
  import opened Stream
  import opened StreamRuns

  /** How often the application was told that data became readable. */
  function ReadNotices(log: seq<Event>): int {
    multiset(log)[ReadNotify]
  }

  /** How often the application was told that it may write again. */
  function WriteNotices(log: seq<Event>): int {
    multiset(log)[WriteNotify]
  }

  predicate BecameReadable(s: Stream, t: Stream) {
    !s.closed && s.state == Open && !Kcp.Readable(s.kcp) && Kcp.Readable(t.kcp)
  }

  function Edges(s: Stream, run: seq<Step>): int
    decreases |run|
  {
    if run == [] then 0
    else (if BecameReadable(s, Apply(s, run[0])) then 1 else 0) + Edges(Apply(s, run[0]), run[1..])
  }

  /** `t` has the KCP, the notices and the write mark of `s`. */
  predicate Quiet(s: Stream, t: Stream) {
    && t.kcp == s.kcp && t.hooked == s.hooked && t.writeBlocked == s.writeBlocked
    && ReadNotices(t.log) == ReadNotices(s.log) && WriteNotices(t.log) == WriteNotices(s.log)
  }

  lemma TimersAreQuiet(s: Stream, reason: Reason, up: bool, clock: int, check: int)
    ensures Quiet(s, RefreshTimer(s, up, clock, check)) && Quiet(s, Schedule(s, check, clock))
    ensures Quiet(s, ScheduleFinalize(s, reason, clock))
  {
    hide ReadNotices, WriteNotices;
  }

  lemma BatchingIsQuiet(s: Stream, up: bool, clock: int)
    ensures Quiet(s, Accumulate(s, clock)) && Quiet(s, FinishBatch(s, up, clock))
  {
    hide ReadNotices, WriteNotices, Schedule;
    ScheduleFrame(s, clock);
    ScheduleFrame(s.(pending := s.pending + 1, inBatch := false), clock);
    ScheduleFrame(s.(inBatch := false, pending := if s.config.batch > 1 then s.config.batch else 0), clock);
  }

  lemma LoggingIsQuiet(s: Stream, e: Event)
    requires e != ReadNotify && e != WriteNotify
    ensures Quiet(s, Logged(s, e)) && Quiet(s, Notify(s, e))
  {
  }

  lemma FinalisingIsQuiet(s: Stream, reason: Reason)
    ensures Quiet(s, CloseInternal(s, reason))
  {
    hide ReadNotices, WriteNotices;
    if !s.closed {
      var t := ClearPending(s).(closed := true, alarm := s.alarm.(state := Idle), registered := false);
      LoggingIsQuiet(t, KcpReleased);
      var u := Logged(t, KcpReleased).(state := if s.state == Failed then Failed else Closed);
      LoggingIsQuiet(u, CloseNotify(reason));
      LoggingIsQuiet(Notify(u, CloseNotify(reason)), ReleaseQueued);
    }
  }

  lemma SetStateIsQuiet(s: Stream, to: State, up: bool, clock: int, check: int)
    ensures Quiet(s, SetState(s, to, up, clock, check))
  {
    hide RefreshTimer, ReadNotices, WriteNotices;
    var t := s.(state := to);
    TimersAreQuiet(t, NORMAL, up, clock, check);
    LoggingIsQuiet(RefreshTimer(t, up, clock, check), StateChanged(s.state, to));
  }

  lemma SendCloseIsQuiet(s: Stream, reason: Reason, up: bool, clock: int, check: int)
    ensures Quiet(s, SendClose(s, reason, up, clock, check))
  {
    hide RefreshTimer, ReadNotices, WriteNotices;
    var t := s.(lastCtrl := clock);
    LoggingIsQuiet(t, SentClose(reason));
    TimersAreQuiet(Logged(t, SentClose(reason)), NORMAL, up, clock, check);
  }

  lemma AdvanceIsQuiet(s: Stream, up: bool, clock: int, check: int)
    ensures Quiet(s, AdvanceLocalClose(s, up, clock, check))
  {
    hide SendClose, CloseInternal, ReadNotices, WriteNotices;
    var t := s.(phase := WaitAck, retries := 0);
    SendCloseIsQuiet(t, NORMAL, up, clock, check);
    FinalisingIsQuiet(SendClose(t, NORMAL, up, clock, check), NORMAL);
  }

  lemma CloseIsQuiet(s: Stream, up: bool, clock: int, check: int)
    ensures Quiet(s, Close(s, up, clock, check))
  {
    hide SetState, CloseInternal, AdvanceLocalClose, Schedule, ScheduleFinalize, ReadNotices, WriteNotices;
    TimersAreQuiet(s, NORMAL, up, clock, check);
    var t := s.(lastCtrl := clock, drainStart := clock, reason := NORMAL, retries := 0, phase := LocalDrain);
    SetStateIsQuiet(t, Closing, up, clock, check);
    var u := SetState(t, Closing, up, clock, check);
    FinalisingIsQuiet(u, NORMAL);
    TimersAreQuiet(u, NORMAL, up, clock, clock);
    AdvanceIsQuiet(Schedule(u, clock, clock), up, clock, check);
  }

  lemma HandleCloseIsQuiet(s: Stream, reason: Reason, up: bool, clock: int, check: int)
    ensures Quiet(s, HandleClose(s, reason, up, clock, check))
  {
    hide SetState, CloseInternal, ScheduleFinalize, Logged, ReadNotices, WriteNotices;
    var t := Logged(s, SentCloseAck(reason));
    LoggingIsQuiet(s, SentCloseAck(reason));
    FinalisingIsQuiet(t, reason);
    TimersAreQuiet(t, NORMAL, up, clock, check);
    var u := t.(reason := reason, phase := RemoteDrain, drainStart := clock);
    SetStateIsQuiet(u, Closing, up, clock, check);
    TimersAreQuiet(SetState(u, Closing, up, clock, check), reason, up, clock, check);
  }

  /** A blocked stream whose queue has fallen below the resume threshold. */
  predicate Resumes(s: Stream) {
    s.writeBlocked && Kcp.WaitSnd(s.kcp) < AsInt32(s.config.resumeBelow)
  }

  /** `t` is `s` after an update of an open stream: at most a write notice, and exactly when it is due. */
  predicate Woken(s: Stream, t: Stream) {
    && t.kcp == s.kcp && t.hooked == s.hooked && ReadNotices(t.log) == ReadNotices(s.log)
    && t.writeBlocked == (s.writeBlocked && !Resumes(s))
    && WriteNotices(t.log) == WriteNotices(s.log) + if Resumes(s) && s.hooked then 1 else 0
  }

  lemma UpdateOpenWakes(s: Stream, now: int, check: int)
    ensures Woken(s, UpdateOpen(s, now, check))
  {
    hide Schedule, Notify, ReadNotices, WriteNotices, Kcp.WaitSnd, AsInt32;
    var t := ClearPending(s);
    TimersAreQuiet(t, NORMAL, true, now, check);
    WriteNoticeCounts(t.(writeBlocked := false));
    TimersAreQuiet(Notify(t.(writeBlocked := false), WriteNotify), NORMAL, true, now, check);
  }

  lemma WriteNoticeCounts(s: Stream)
    ensures var t := Notify(s, WriteNotify);
      && t == s.(log := t.log) && ReadNotices(t.log) == ReadNotices(s.log)
      && WriteNotices(t.log) == WriteNotices(s.log) + if s.hooked then 1 else 0
  {
  }

  lemma UpdateLocalDrainIsQuiet(s: Stream, up: bool, now: int, clock: int, check: int)
    requires s.phase == LocalDrain
    ensures Quiet(s, UpdateClosing(s, up, now, clock, check))
  {
    hide SendClose, CloseInternal, AdvanceLocalClose, RefreshTimer, ReadNotices, WriteNotices;
    var t := ClearPending(s);
    AdvanceIsQuiet(t, up, clock, check);
    SendCloseIsQuiet(t.(reason := TIMEOUT), TIMEOUT, up, clock, check);
    FinalisingIsQuiet(SendClose(t.(reason := TIMEOUT), TIMEOUT, up, clock, check), TIMEOUT);
    TimersAreQuiet(t, NORMAL, up, now, check);
  }

  lemma UpdateWaitAckIsQuiet(s: Stream, up: bool, now: int, clock: int, check: int)
    requires s.phase == WaitAck
    ensures Quiet(s, UpdateClosing(s, up, now, clock, check))
  {
    hide SendClose, CloseInternal, ReadNotices, WriteNotices;
    var r := s.(retries := s.retries + 1);
    SendCloseIsQuiet(r, s.reason, up, clock, check);
    FinalisingIsQuiet(SendClose(r, s.reason, up, clock, check), s.reason);
    FinalisingIsQuiet(s, s.reason);
  }

  lemma UpdateClosingIsQuiet(s: Stream, up: bool, now: int, clock: int, check: int)
    ensures Quiet(s, UpdateClosing(s, up, now, clock, check))
  {
    hide SendClose, CloseInternal, AdvanceLocalClose, RefreshTimer, ReadNotices, WriteNotices;
    match s.phase {
      case LocalDrain => UpdateLocalDrainIsQuiet(s, up, now, clock, check);
      case WaitAck => UpdateWaitAckIsQuiet(s, up, now, clock, check);
      case RemoteDrain => FinalisingIsQuiet(s, TIMEOUT);
      case Finalize => FinalisingIsQuiet(s, s.reason);
      case NoPhase =>
    }
  }

  /** Whether a step is the firing of a due, open stream of a connected connection. */
  predicate FiresOpen(s: Stream, st: Step) {
    st.op.Fire? && s.alarm.state == InHeap && s.alarm.deadline <= st.now && !s.closed && st.up && s.state == Open
  }

  lemma FireWakes(s: Stream, st: Step)
    requires st.op.Fire?
    ensures var t := FireTimer(s, st.up, st.now, st.clock, st.check);
      if FiresOpen(s, st) then Woken(s, t) else Quiet(s, t)
  {
    hide Update, ReadNotices, WriteNotices, Resumes;
    var t := s.(alarm := s.alarm.(state := Running));
    ResumesAnyway(s, t);
    UpdateWakes(t, st.up, st.now, st.clock, st.check);
  }

  lemma UpdateWakes(s: Stream, up: bool, now: int, clock: int, check: int)
    ensures var t := Update(s, up, now, clock, check);
      if !s.closed && up && s.state == Open then Woken(s, t) else Quiet(s, t)
  {
    hide UpdateOpen, UpdateClosing, ReadNotices, WriteNotices, Resumes;
    UpdateOpenWakes(s, now, check);
    UpdateClosingIsQuiet(s, up, now, clock, check);
  }

  lemma ResumesAnyway(s: Stream, t: Stream)
    requires t.kcp == s.kcp && t.config == s.config && t.writeBlocked == s.writeBlocked
    ensures Resumes(t) == Resumes(s)
  {
  }

  lemma RestIsQuiet(s: Stream, c: Config, up: bool, clock: int, check: int)
    ensures Quiet(s, SetConfig(s, c, up, clock, check)) && Quiet(s, HandleCloseAck(s))
    ensures Quiet(s, FinishBatch(s.(inBatch := false), up, clock))
  {
    hide CloseInternal, FinishBatch, RefreshTimer, ReadNotices, WriteNotices;
    TimersAreQuiet(ClearPending(s.(config := c.(mss := s.config.mss))), NORMAL, up, clock, check);
    FinalisingIsQuiet(s, s.reason);
    BatchingIsQuiet(s.(inBatch := false), up, clock);
  }

  lemma EnqueuedIsQuiet(s: Stream, sent: int, flush: bool, clock: int, check: int)
    ensures Quiet(s, Enqueued(s, sent, flush, clock, check))
  {
    hide Accumulate, Schedule, ReadNotices, WriteNotices;
    BatchingIsQuiet(s, true, clock);
    TimersAreQuiet(ClearPending(s), NORMAL, true, clock, check);
  }

  /** Any operation that leaves KCP alone. */
  lemma OthersAreQuiet(s: Stream, st: Step)
    requires !st.op.Payload? && !st.op.RecvCall? && !st.op.SendCall? && !st.op.Fire?
    ensures Quiet(s, Apply(s, st))
  {
    hide Close, HandleClose, HandleCloseAck, CloseInternal, FireTimer, FinishBatch, SetConfig, ReadNotices, WriteNotices;
    match st.op {
      case CloseCall => CloseIsQuiet(s, st.up, st.clock, st.check);
      case PeerClose(reason) => HandleCloseIsQuiet(s, reason, st.up, st.clock, st.check);
      case PeerCloseAck => RestIsQuiet(s, s.config, st.up, st.clock, st.check);
      case FinishBatchCall => BatchingIsQuiet(s, st.up, st.clock);
      case EngineFinishBatch => RestIsQuiet(s, s.config, st.up, st.clock, st.check);
      case SetConfigCall(c) => RestIsQuiet(s, c, st.up, st.clock, st.check);
      case Finalise(reason) => FinalisingIsQuiet(s, reason);
    }
  }

  lemma PayloadNotices(s: Stream, kcp: Kcp.Session, ok: bool, clock: int)
    requires s.hooked && ReadMarked(s) && KcpBehaves(s, Payload(kcp, ok))
    ensures var t := HandlePayload(s, kcp, ok, clock);
      t.hooked && ReadNotices(t.log) == ReadNotices(s.log) + if BecameReadable(s, t) then 1 else 0
  {
    hide Accumulate, ReadNotices, Kcp.PeekSize;
    AccumulateFrame(s.(kcp := kcp), clock);
    OneMoreNotice(s.log);
  }

  lemma OneMoreNotice(log: seq<Event>)
    ensures ReadNotices(log + [ReadNotify]) == ReadNotices(log) + 1
  {
  }

  /** A read makes nothing readable and tells nobody. */
  lemma RecvIsSilent(s: Stream, size: int, ok: bool, clock: int)
    ensures var t := Recv(s, size, ok, clock);
      && ReadNotices(t.log) == ReadNotices(s.log) && WriteNotices(t.log) == WriteNotices(s.log)
      && t.hooked == s.hooked && t.writeBlocked == s.writeBlocked && !BecameReadable(s, t)
  {
    hide ReadNotices, WriteNotices, ScheduleFinalize;
    TimersAreQuiet(s.(kcp := Kcp.Recv(s.kcp)), s.reason, true, clock, clock);
  }

  /** A send may start a block, and tells nobody. */
  lemma SendIsSilent(
    s: Stream, size: int, kcp: Kcp.Session, sent: int, flush: bool, up: bool, clock: int, check: int)
    ensures var t := Send(s, size, kcp, sent, flush, up, clock, check);
      && ReadNotices(t.log) == ReadNotices(s.log) && WriteNotices(t.log) == WriteNotices(s.log)
      && t.hooked == s.hooked && (s.writeBlocked ==> t.writeBlocked) && (t.kcp == s.kcp || t.kcp == kcp)
  {
    hide ReadNotices, WriteNotices, Enqueued, CanSend;
    EnqueuedIsQuiet(s.(kcp := kcp, upSent := s.upSent + sent), sent, flush, clock, check);
  }

  lemma SendDataIsSilent(
    s: Stream, data: SendPath.Bytes, room: nat, flush: bool, up: bool, clock: int, check: int)
    ensures var t := SendData(s, data, room, flush, up, clock, check);
      && ReadNotices(t.log) == ReadNotices(s.log) && WriteNotices(t.log) == WriteNotices(s.log)
      && t.hooked == s.hooked && (s.writeBlocked ==> t.writeBlocked) && !BecameReadable(s, t)
  {
    hide ReadNotices, WriteNotices, Send, SendPath.Accepted, SendPath.Flatten;
    if s.config.mss > 0 {
      var got := SendPath.Accepted(data, s.config.mss, room);
      SendIsSilent(s, |data|, Handed(s.kcp, got), |SendPath.Flatten(got)|, flush, up, clock, check);
    }
  }

  /** One notice for a step that makes an open stream readable, none for any other. */
  lemma OneNoticePerEdge(s: Stream, st: Step)
    requires s.hooked && ReadMarked(s) && KcpBehaves(s, st.op)
    ensures ReadNotices(Apply(s, st).log) == ReadNotices(s.log) + if BecameReadable(s, Apply(s, st)) then 1 else 0
    ensures Apply(s, st).hooked
  {
    hide ReadNotices, WriteNotices, HandlePayload, Recv, SendData, FireTimer;
    match st.op {
      case Payload(kcp, ok) =>
        PayloadNotices(s, kcp, ok, st.clock);
      case RecvCall(size, ok) =>
        RecvIsSilent(s, size, ok, st.clock);
      case SendCall(data, room, flush) =>
        SendDataIsSilent(s, data, room, flush, st.up, st.clock, st.check);
      case Fire =>
        FireWakes(s, st);
      case _ =>
        OthersAreQuiet(s, st);
    }
  }

  /** Over every run the application is told exactly once for each time data became readable. */
  lemma {:induction false} NoticesMatchEdges(s: Stream, up: bool, clock: int, run: seq<Step>)
    requires Kept(s, up, clock) && s.hooked && Plausible(s, up, clock, run)
    ensures ReadNotices(After(s, run).log) == ReadNotices(s.log) + Edges(s, run)
    decreases |run|
  {
    hide Apply;
    if run != [] {
      OneNoticePerEdge(s, run[0]);
      ApplyKeeps(s, run[0], up, clock);
      NoticesMatchEdges(Apply(s, run[0]), run[0].up, run[0].clock, run[1..]);
    }
  }

  // Write notices.

  /** A block on writing ended. */
  predicate Resumed(s: Stream, t: Stream) {
    s.writeBlocked && !t.writeBlocked
  }

  /**
    One write notice for a step that ends a block, none for any other; and a
    block ends exactly when an open stream of a connected connection fires with
    its queue below the threshold.
   */
  lemma OneNoticePerResume(s: Stream, st: Step)
    requires s.hooked
    ensures var t := Apply(s, st);
      && WriteNotices(t.log) == WriteNotices(s.log) + (if Resumed(s, t) then 1 else 0) && t.hooked
      && (Resumed(s, t) <==> FiresOpen(s, st) && Resumes(s))
  {
    hide ReadNotices, WriteNotices, HandlePayload, Recv, SendData, FireTimer, Resumes, BecameReadable;
    ResumesBlocked(s);
    match st.op {
      case Payload(kcp, ok) =>
        PayloadKeepsWrites(s, kcp, ok, st.clock);
      case RecvCall(size, ok) =>
        RecvIsSilent(s, size, ok, st.clock);
      case SendCall(data, room, flush) =>
        SendDataIsSilent(s, data, room, flush, st.up, st.clock, st.check);
      case Fire =>
        FireWakes(s, st);
      case _ =>
        OthersAreQuiet(s, st);
    }
  }

  lemma ResumesBlocked(s: Stream)
    ensures Resumes(s) ==> s.writeBlocked
  {
  }

  lemma PayloadKeepsWrites(s: Stream, kcp: Kcp.Session, ok: bool, clock: int)
    ensures var t := HandlePayload(s, kcp, ok, clock);
      t.writeBlocked == s.writeBlocked && WriteNotices(t.log) == WriteNotices(s.log) && t.hooked == s.hooked
  {
    hide Accumulate, WriteNotices, ReadNotices, Kcp.PeekSize;
    BatchingIsQuiet(s.(kcp := kcp), true, clock);
    AccumulateFrame(s.(kcp := kcp), clock);
    ReadNoticeCounts(s.log);
  }

  lemma ReadNoticeCounts(log: seq<Event>)
    ensures WriteNotices(log + [ReadNotify]) == WriteNotices(log)
  {
  }

  function Resumptions(s: Stream, run: seq<Step>): int
    decreases |run|
  {
    if run == [] then 0
    else (if Resumed(s, Apply(s, run[0])) then 1 else 0) + Resumptions(Apply(s, run[0]), run[1..])
  }

  /** Over every run the application is told exactly once for each block that ended. */
  lemma {:induction false} WriteNoticesMatchResumptions(s: Stream, run: seq<Step>)
    requires s.hooked
    ensures WriteNotices(After(s, run).log) == WriteNotices(s.log) + Resumptions(s, run)
    decreases |run|
  {
    hide Apply, WriteNotices;
    if run != [] {
      OneNoticePerResume(s, run[0]);
      WriteNoticesMatchResumptions(Apply(s, run[0]), run[1..]);
    }
  }

  // When blocks on writing start and end at all.  The thresholds are unsigned
  // 32-bit numbers that the code compares as signed ones.

  /** A step ends a block of a stream with this configuration; KCP's queue is never shorter than empty. */
  ghost predicate EndsBlock(config: Config, s: Stream, st: Step) {
    && s.config == config && s.hooked && Kcp.WaitSnd(s.kcp) >= 0 && Kept(s, st.up, st.clock)
    && Resumed(s, Apply(s, st))
  }

  /** With a threshold of zero, or of 2^31 and more, no step ever ends a block. */
  lemma NeverResumes(s: Stream, st: Step)
    requires s.hooked && IsU32(s.config.resumeBelow) && Kcp.WaitSnd(s.kcp) >= 0
    requires !(0 < s.config.resumeBelow < 0x8000_0000)
    ensures !Resumed(s, Apply(s, st)) && WriteNotices(Apply(s, st).log) == WriteNotices(s.log)
  {
    hide Apply, WriteNotices;
    OneNoticePerResume(s, st);
  }

  /** With any other, a blocked stream whose queue has drained resumes as it fires. */
  lemma MayResume(config: Config) returns (s: Stream, st: Step)
    requires Acceptable(config) && 0 < config.resumeBelow < 0x8000_0000
    ensures EndsBlock(config, s, st)
  {
    var born := New(1, true, config, true, true, 0, 0);
    NewIsKept(1, true, config, true, true, 0, 0);
    s := born.(writeBlocked := true);
    var time := s.alarm.deadline;
    st := Step(Fire, true, time, time, 0);
    assert time >= 0 && s.alarm.state == InHeap;
    KeptLater(born, true, true, 0, time);
    OneNoticePerResume(s, st);
  }

  /** Some step can end a block exactly if the resume threshold is positive and below 2^31. */
  lemma BlocksEndExactlyWhen(config: Config)
    requires Acceptable(config)
    ensures (exists s, st :: EndsBlock(config, s, st)) <==> 0 < config.resumeBelow < 0x8000_0000
  {
    hide Apply, Kept;
    if 0 < config.resumeBelow < 0x8000_0000 {
      var s, st := MayResume(config);
    } else {
      forall s, st ensures !EndsBlock(config, s, st) {
        if EndsBlock(config, s, st) {
          NeverResumes(s, st);
        }
      }
    }
  }

  /**
    A stream with nothing waiting to be sent takes a nonempty send exactly if
    the pause threshold is below 2^31; above, every send blocks it at once.
   */
  lemma EmptyQueuePausesExactlyWhen(
    s: Stream, size: int, kcp: Kcp.Session, sent: int, flush: bool, up: bool, clock: int, check: int)
    requires Acceptable(s.config) && CanSend(s, up) && size > 0 && sent > 0 && Kcp.WaitSnd(s.kcp) == 0
    ensures var t := Send(s, size, kcp, sent, flush, up, clock, check);
      if s.config.pauseAt < 0x8000_0000 then t.upSent == s.upSent + sent && t.kcp == kcp && t.writeBlocked == s.writeBlocked
      else t == s.(writeBlocked := true)
  {
  }

  /** And with a pause threshold of 2^31 and more no nonempty send passes, whatever is waiting. */
  lemma NothingPassesHighPause(
    s: Stream, size: int, kcp: Kcp.Session, sent: int, flush: bool, up: bool, clock: int, check: int)
    requires IsU32(s.config.pauseAt) && 0x8000_0000 <= s.config.pauseAt && size > 0 && Kcp.WaitSnd(s.kcp) >= 0
    ensures var t := Send(s, size, kcp, sent, flush, up, clock, check); t == s || t == s.(writeBlocked := true)
  {
  }
}

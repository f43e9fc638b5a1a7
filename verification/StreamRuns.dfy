/**
  What every stream keeps along every run: whatever the application, the peer,
  KCP and the scheduler do, in any order.
 */
module StreamRuns {
  import opened Timer
  import Kcp
  import SendPath
  import opened Stream

  /** Everything that can happen to a stream. */
  datatype Op =
    | CloseCall
    | PeerClose(reason: Reason)
    | PeerCloseAck
    | Payload(kcp: Kcp.Session, ok: bool)
    | RecvCall(size: int, ok: bool)
    | SendCall(data: SendPath.Bytes, room: nat, flush: bool)
    | FinishBatchCall
    | EngineFinishBatch
    | SetConfigCall(config: Config)
    | Fire
    | Finalise(reason: Reason)

  /** One operation with its surroundings: `now` is the time at which a firing update collected. */
  datatype Step = Step(op: Op, up: bool, now: int, clock: int, check: int)

  /** The scheduler collects a node that is due, runs its callback, and idles it if it was not rescheduled. */
  function FireTimer(s: Stream, up: bool, now: int, clock: int, check: int): (t: Stream)
    ensures t.kcp == s.kcp && t.upSent == s.upSent
  {
    if s.alarm.state != InHeap || s.alarm.deadline > now then s
    else
      var t := Update(s.(alarm := s.alarm.(state := Running)), up, now, clock, check);
      if t.alarm.state == Running then t.(alarm := t.alarm.(state := Idle)) else t
  }

  function Apply(s: Stream, st: Step): Stream {
    match st.op
    case CloseCall => Close(s, st.up, st.clock, st.check)
    case PeerClose(reason) => HandleClose(s, reason, st.up, st.clock, st.check)
    case PeerCloseAck => HandleCloseAck(s)
    case Payload(kcp, ok) => HandlePayload(s, kcp, ok, st.clock)
    case RecvCall(size, ok) => Recv(s, size, ok, st.clock)
    case SendCall(data, room, flush) => SendData(s, data, room, flush, st.up, st.clock, st.check)
    case FinishBatchCall => FinishBatch(s, st.up, st.clock)
    case EngineFinishBatch => if s.inBatch then FinishBatch(s.(inBatch := false), st.up, st.clock) else s
    case SetConfigCall(config) => SetConfig(s, config, st.up, st.clock, st.check)
    case Fire => FireTimer(s, st.up, st.now, st.clock, st.check)
    case Finalise(reason) => CloseInternal(s, reason)
  }

  // Invariants.

  ghost predicate Shaped(s: Stream) {
    && Acceptable(s.config)
    && 0 <= s.retries && 0 <= s.pending && (s.inBatch ==> 0 < s.pending < s.config.batch)
    && if s.closed
       then !s.registered && s.alarm.state == Idle && s.pending == 0 && (s.state == Closed || s.state == Failed)
       else s.registered && if s.state == Open then s.phase == NoPhase else s.state == Closing && s.phase != NoPhase
  }

  /** A live stream of a live connection has its timer set, and no waiting phase is cut short. */
  ghost predicate Awake(s: Stream, up: bool) {
    !s.closed ==>
      && (s.alarm.state == InHeap || (!up && s.alarm.state == Idle))
      && (up && s.phase == WaitAck ==> s.alarm.deadline >= DeadlineAfter(s.lastCtrl, s.config.ctrlTimeout))
      && (up && s.phase == RemoteDrain ==> s.alarm.deadline >= DeadlineAfter(s.drainStart, s.config.drainTimeout))
  }

  /** Batched work is listed until the threshold, and due from then on. */
  ghost predicate Batched(s: Stream, up: bool, clock: int) {
    up && !s.closed && s.state == Open ==>
      && (s.inBatch <==> 0 < s.pending < s.config.batch)
      && (0 < s.pending ==> s.pending <= s.config.batch)
      && (0 < s.pending && s.pending == s.config.batch ==> s.alarm.state == InHeap && s.alarm.deadline <= clock)
  }

  /** An open stream is marked blocked for reading exactly when there is nothing to read. */
  ghost predicate ReadMarked(s: Stream) {
    !s.closed && s.state == Open ==> (s.readBlocked <==> !Kcp.Readable(s.kcp))
  }

  predicate Terminal(e: Event) {
    e.KcpReleased? || e.CloseNotify? || e.ReleaseQueued?
  }

  ghost predicate NoneTerminal(log: seq<Event>) {
    forall e | e in log :: !Terminal(e)
  }

  /** The end of a finalised stream's log. */
  function Farewell(hooked: bool, reason: Reason): seq<Event> {
    [KcpReleased] + (if hooked then [CloseNotify(reason)] else []) + [ReleaseQueued]
  }

  /** Finalisation is logged once, in order, and is the last thing logged. */
  ghost predicate FinalisedOnce(s: Stream) {
    if s.closed
    then exists life: seq<Event>, reason: Reason :: NoneTerminal(life) && s.log == life + Farewell(s.hooked, reason)
    else NoneTerminal(s.log)
  }

  ghost predicate Kept(s: Stream, up: bool, clock: int) {
    Shaped(s) && Awake(s, up) && Batched(s, up, clock) && ReadMarked(s) && FinalisedOnce(s)
  }

  /** KCP makes data readable only through successful input, unreadable only through reads, and input sends nothing. */
  predicate KcpBehaves(s: Stream, op: Op) {
    match op
    case Payload(kcp, ok) =>
      && (Kcp.Readable(s.kcp) ==> Kcp.Readable(kcp)) && (!ok ==> Kcp.Readable(kcp) == Kcp.Readable(s.kcp))
      && kcp.sent == s.kcp.sent
    case _ => true
  }

  lemma {:induction false} NewIsKept(
    id: int, isInitiator: bool, config: Config, hooked: bool, up: bool, clock: int, check: int)
    requires Acceptable(config)
    ensures Kept(New(id, isInitiator, config, hooked, up, clock, check), up, clock)
  {
  }

  // One lemma per operation.

  /** Finalising any live stream. */
  lemma FinaliseKeeps(s: Stream, reason: Reason, up: bool, clock: int)
    requires Acceptable(s.config) && 0 <= s.retries && !s.closed && NoneTerminal(s.log)
    ensures Kept(CloseInternal(s, reason), up, clock)
  {
    var t := CloseInternal(s, reason);
    assert t.log == s.log + Farewell(s.hooked, reason);
  }

  /** Invariants only weaken as time passes and when the connection goes down. */
  lemma KeptLater(s: Stream, wasUp: bool, up: bool, was: int, clock: int)
    requires Kept(s, wasUp, was) && (up ==> wasUp) && was <= clock
    ensures Kept(s, up, clock)
  {
  }

  /** What Kept amounts to for a stream that is closing. */
  ghost predicate ClosingKept(s: Stream, up: bool) {
    Acceptable(s.config) && 0 <= s.retries && 0 <= s.pending && (s.inBatch ==> 0 < s.pending < s.config.batch) &&
    !s.closed && s.registered &&
    s.state == Closing && s.phase != NoPhase && Awake(s, up) && NoneTerminal(s.log)
  }

  lemma ClosingIsKept(s: Stream, up: bool, clock: int)
    requires ClosingKept(s, up)
    ensures Kept(s, up, clock)
  {
  }

  lemma ScheduleFinalizeKeeps(s: Stream, reason: Reason, up: bool, clock: int)
    requires Acceptable(s.config) && 0 <= s.retries && !s.closed && s.registered && s.state == Closing && NoneTerminal(s.log)
    ensures ClosingKept(ScheduleFinalize(s, reason, clock), up)
  {
  }

  /** Entering CLOSING sets the timer for the phase entered. */
  lemma EnterClosingKeeps(s: Stream, up: bool, clock: int, check: int)
    requires Acceptable(s.config) && 0 <= s.retries && 0 <= s.pending && (s.inBatch ==> 0 < s.pending < s.config.batch)
    requires !s.closed && s.registered
    requires s.state == Open && s.phase != NoPhase && NoneTerminal(s.log)
    ensures ClosingKept(SetState(s, Closing, up, clock, check), up)
  {
    var t := s.(state := Closing);
    var u := RefreshTimer(t, up, clock, check);
    if up {
      assert u == t.(alarm := Alarm(InHeap, Max(Wanted(t, clock, check), clock)));
    } else {
      assert u == Cancel(t);
    }
    assert ClosingKept(u, up);
  }

  lemma CloseKeeps(s: Stream, up: bool, clock: int, check: int)
    requires Kept(s, up, clock)
    ensures Kept(Close(s, up, clock, check), up, clock)
  {
    hide AdvanceLocalClose, CloseInternal;
    if s.state == Open {
      var t := s.(lastCtrl := clock, drainStart := clock, reason := NORMAL, retries := 0, phase := LocalDrain);
      EnterClosingKeeps(t, up, clock, check);
      var u := SetState(t, Closing, up, clock, check);
      if u.isInitiator && u.upSent == 0 {
        FinaliseKeeps(u, NORMAL, up, clock);
      } else {
        AdvanceKeeps(Schedule(u, clock, clock), up, clock, check);
      }
    } else if s.state == Closing && s.phase == RemoteDrain {
      ScheduleFinalizeKeeps(s, NORMAL, up, clock);
      ClosingIsKept(ScheduleFinalize(s, NORMAL, clock), up, clock);
    } else {
      }
  }

  lemma AdvanceKeeps(s: Stream, up: bool, clock: int, check: int)
    requires ClosingKept(s, up) && s.phase == LocalDrain
    ensures Kept(AdvanceLocalClose(s, up, clock, check), up, clock)
  {
    if Kcp.WaitSnd(s.kcp) == 0 {
      var t := SendClose(s.(phase := WaitAck, retries := 0), NORMAL, up, clock, check);
      assert NoneTerminal(t.log);
      if s.config.closeRetries == 0 {
        FinaliseKeeps(t, NORMAL, up, clock);
      }
    }
  }

  lemma HandleCloseKeeps(s: Stream, reason: Reason, up: bool, clock: int, check: int)
    requires Kept(s, up, clock)
    ensures Kept(HandleClose(s, reason, up, clock, check), up, clock)
  {
    if !s.closed {
      var t := Logged(s, SentCloseAck(reason));
      assert NoneTerminal(t.log);
      if reason != NORMAL {
        FinaliseKeeps(t, reason, up, clock);
      } else if s.state == Closing {
        if s.phase == LocalDrain || s.phase == WaitAck {
          ScheduleFinalizeKeeps(t, NORMAL, up, clock);
          ClosingIsKept(ScheduleFinalize(t, NORMAL, clock), up, clock);
        } else {
          ClosingIsKept(t, up, clock);
        }
      } else {
        var u := t.(reason := reason, phase := RemoteDrain, drainStart := clock);
        EnterClosingKeeps(u, up, clock, check);
        var v := SetState(u, Closing, up, clock, check);
        if Kcp.PeekSize(v.kcp) <= 0 {
          ScheduleFinalizeKeeps(v, reason, up, clock);
          ClosingIsKept(ScheduleFinalize(v, reason, clock), up, clock);
        } else {
          ClosingIsKept(v, up, clock);
        }
      }
    }
  }

  lemma FireLocalDrainKeeps(s: Stream, now: int, clock: int, check: int)
    requires Shaped(s) && !s.closed && s.state == Closing && s.phase == LocalDrain && NoneTerminal(s.log)
    ensures Kept(UpdateClosing(s, true, now, clock, check), true, clock)
    ensures UpdateClosing(s, true, now, clock, check).alarm.state != Running
  {
    var t := ClearPending(s);
    if Kcp.WaitSnd(t.kcp) == 0 {
      var u := SendClose(t.(phase := WaitAck, retries := 0), NORMAL, true, clock, check);
      assert NoneTerminal(u.log);
      if s.config.closeRetries == 0 {
        FinaliseKeeps(u, NORMAL, true, clock);
      } else {
        ClosingIsKept(u, true, clock);
      }
    } else if now >= DeadlineAfter(t.drainStart, t.config.drainTimeout) {
      FinaliseKeeps(SendClose(t.(reason := TIMEOUT), TIMEOUT, true, clock, check), TIMEOUT, true, clock);
    } else {
      ClosingIsKept(RefreshTimer(t, true, now, check), true, clock);
    }
  }

  /** Announcing the close starts a full waiting period. */
  lemma AnnounceKeeps(s: Stream, reason: Reason, clock: int, check: int)
    requires Acceptable(s.config) && 0 <= s.retries && 0 <= s.pending && (s.inBatch ==> 0 < s.pending < s.config.batch)
    requires !s.closed && s.registered
    requires s.state == Closing && s.phase == WaitAck && NoneTerminal(s.log)
    ensures var t := SendClose(s, reason, true, clock, check);
      ClosingKept(t, true) && t.config == s.config && t.reason == s.reason && t.retries == s.retries
  {
  }

  lemma FireWaitAckKeeps(s: Stream, now: int, clock: int, check: int)
    requires Shaped(s) && !s.closed && s.state == Closing && s.phase == WaitAck && NoneTerminal(s.log)
    requires now >= DeadlineAfter(s.lastCtrl, s.config.ctrlTimeout)
    ensures Kept(UpdateClosing(s, true, now, clock, check), true, clock)
    ensures UpdateClosing(s, true, now, clock, check).alarm.state != Running
  {
    hide CloseInternal, SendClose;
    if s.retries >= s.config.closeRetries {
      FinaliseKeeps(s, s.reason, true, clock);
    } else {
      var r := s.(retries := s.retries + 1);
      AnnounceKeeps(r, s.reason, clock, check);
      var t := SendClose(r, s.reason, true, clock, check);
      FinaliseKeeps(t, s.reason, true, clock);
      ClosingIsKept(t, true, clock);
    }
  }

  /** The callback always leaves the stream finalised or its timer set again. */
  lemma UpdateKeeps(s: Stream, now: int, clock: int, check: int)
    requires Shaped(s) && ReadMarked(s) && !s.closed && NoneTerminal(s.log) && s.alarm.state == Running && now <= clock
    requires s.phase == WaitAck ==> now >= DeadlineAfter(s.lastCtrl, s.config.ctrlTimeout)
    requires s.phase == RemoteDrain ==> now >= DeadlineAfter(s.drainStart, s.config.drainTimeout)
    ensures Kept(Update(s, true, now, clock, check), true, clock)
    ensures Update(s, true, now, clock, check).alarm.state != Running
  {
    if s.state == Closing {
      match s.phase {
        case LocalDrain => FireLocalDrainKeeps(s, now, clock, check);
        case WaitAck => FireWaitAckKeeps(s, now, clock, check);
        case RemoteDrain => FinaliseKeeps(s, TIMEOUT, true, clock);
        case Finalize => FinaliseKeeps(s, s.reason, true, clock);
      }
    }
  }

  lemma FireKeeps(s: Stream, up: bool, now: int, clock: int, check: int)
    requires Kept(s, up, clock) && now <= clock
    ensures Kept(FireTimer(s, up, now, clock, check), up, clock)
  {
    if up && !s.closed && s.alarm.deadline <= now {
      UpdateKeeps(s.(alarm := s.alarm.(state := Running)), now, clock, check);
    }
  }

  /** Counting an operation keeps the batch books and touches nothing else. */
  lemma AccumulateKeeps(s: Stream, up: bool, clock: int)
    requires Shaped(s) && !s.closed && KcpActive(s) && Awake(s, up) && Batched(s, up, clock)
    ensures var t := Accumulate(s, clock);
      && t == s.(pending := t.pending, inBatch := t.inBatch, alarm := t.alarm)
      && Shaped(t) && Awake(t, up) && Batched(t, up, clock)
  {
    var t := Accumulate(s, clock);
    if s.config.batch <= 1 {
      assert t == s.(alarm := Alarm(InHeap, clock));
    } else if s.pending >= s.config.batch {
      assert t == s;
    } else if s.pending + 1 == s.config.batch {
      assert t == s.(pending := s.pending + 1, inBatch := false, alarm := Alarm(InHeap, clock));
    } else {
      assert t == s.(pending := s.pending + 1, inBatch := s.inBatch || s.pending == 0);
    }
  }

  lemma PayloadKeeps(s: Stream, kcp: Kcp.Session, ok: bool, up: bool, clock: int)
    requires Kept(s, up, clock) && KcpBehaves(s, Payload(kcp, ok))
    ensures Kept(HandlePayload(s, kcp, ok, clock), up, clock)
  {
    if !s.closed && KcpActive(s) {
      AccumulateKeeps(s.(kcp := kcp), up, clock);
    }
  }

  lemma RecvKeeps(s: Stream, size: int, ok: bool, up: bool, clock: int)
    requires Kept(s, up, clock)
    ensures Kept(Recv(s, size, ok, clock), up, clock)
  {
    var t := s.(kcp := Kcp.Recv(s.kcp));
    if CanRead(s) && t.state == Closing {
      ScheduleFinalizeKeeps(t, t.reason, up, clock);
      ClosingIsKept(ScheduleFinalize(t, t.reason, clock), up, clock);
      ClosingIsKept(t, up, clock);
      ClosingIsKept(s.(readBlocked := true), up, clock);
    }
  }

  lemma EnqueuedKeeps(s: Stream, sent: int, flush: bool, up: bool, clock: int, check: int)
    requires Kept(s, up, clock) && !s.closed && s.state == Open
    ensures Kept(Enqueued(s, sent, flush, clock, check), up, clock)
  {
    hide Accumulate;
    if flush {
      assert Enqueued(s, sent, flush, clock, check)
          == s.(pending := 0, inBatch := false, alarm := Alarm(InHeap, Max(check, clock)));
    } else if sent != 0 {
      AccumulateKeeps(s, up, clock);
    }
  }

  lemma SendKeeps(
    s: Stream, size: int, kcp: Kcp.Session, sent: int, flush: bool, up: bool, clock: int, check: int)
    requires Kept(s, up, clock) && Kcp.Readable(kcp) == Kcp.Readable(s.kcp)
    ensures Kept(Send(s, size, kcp, sent, flush, up, clock, check), up, clock)
  {
    hide Enqueued;
    if CanSend(s, up) {
      if size > 0 && (Kcp.WaitSnd(s.kcp) >= AsInt32(s.config.pauseAt) || sent == 0) {
        RefusedKeeps(s, size, kcp, sent, flush, up, clock, check);
      } else {
        EnqueuedKeeps(s.(kcp := kcp, upSent := s.upSent + sent), sent, flush, up, clock, check);
      }
    }
  }

  lemma RefusedKeeps(
    s: Stream, size: int, kcp: Kcp.Session, sent: int, flush: bool, up: bool, clock: int, check: int)
    requires Kept(s, up, clock) && CanSend(s, up) && size > 0
    requires Kcp.WaitSnd(s.kcp) >= AsInt32(s.config.pauseAt) || sent == 0
    ensures Kept(Send(s, size, kcp, sent, flush, up, clock, check), up, clock)
  {
    assert Kept(s.(writeBlocked := true), up, clock);
  }

  lemma BatchingKeeps(s: Stream, up: bool, clock: int)
    requires Kept(s, up, clock)
    ensures Kept(FinishBatch(s, up, clock), up, clock)
    ensures s.inBatch ==> Kept(FinishBatch(s.(inBatch := false), up, clock), up, clock)
  {
  }

  lemma SetConfigKeeps(s: Stream, c: Config, up: bool, clock: int, check: int)
    requires Kept(s, up, clock)
    ensures Kept(SetConfig(s, c, up, clock, check), up, clock)
  {
  }

  ghost predicate Follows(wasUp: bool, was: int, st: Step) {
    (st.up ==> wasUp) && was <= st.clock && st.now <= st.clock
  }

  lemma EndKeeps(s: Stream, reason: Reason, up: bool, clock: int)
    requires Kept(s, up, clock)
    ensures Kept(CloseInternal(s, reason), up, clock)
  {
    if !s.closed {
      FinaliseKeeps(s, reason, up, clock);
    }
  }

  lemma SendDataKeeps(s: Stream, data: SendPath.Bytes, room: nat, flush: bool, up: bool, clock: int, check: int)
    requires Kept(s, up, clock)
    ensures Kept(SendData(s, data, room, flush, up, clock, check), up, clock)
  {
    hide Kept, Send, SendPath.Accepted, SendPath.Flatten;
    if s.config.mss > 0 {
      var got := SendPath.Accepted(data, s.config.mss, room);
      SendKeeps(s, |data|, Handed(s.kcp, got), |SendPath.Flatten(got)|, flush, up, clock, check);
    }
  }

  /** Every operation keeps every invariant. */
  lemma ApplyKeeps(s: Stream, st: Step, wasUp: bool, was: int)
    requires Kept(s, wasUp, was) && Follows(wasUp, was, st) && KcpBehaves(s, st.op)
    ensures Kept(Apply(s, st), st.up, st.clock)
  {
    hide Kept, Close, HandleClose, HandlePayload, Recv, SendData, SetConfig, FireTimer, FinishBatch, CloseInternal;
    KeptLater(s, wasUp, st.up, was, st.clock);
    match st.op {
      case CloseCall => CloseKeeps(s, st.up, st.clock, st.check);
      case PeerClose(reason) => HandleCloseKeeps(s, reason, st.up, st.clock, st.check);
      case PeerCloseAck => EndKeeps(s, s.reason, st.up, st.clock);
      case Payload(kcp, ok) => PayloadKeeps(s, kcp, ok, st.up, st.clock);
      case RecvCall(size, ok) => RecvKeeps(s, size, ok, st.up, st.clock);
      case SendCall(data, room, flush) => SendDataKeeps(s, data, room, flush, st.up, st.clock, st.check);
      case FinishBatchCall => BatchingKeeps(s, st.up, st.clock);
      case EngineFinishBatch => BatchingKeeps(s, st.up, st.clock);
      case SetConfigCall(config) => SetConfigKeeps(s, config, st.up, st.clock, st.check);
      case Fire => FireKeeps(s, st.up, st.now, st.clock, st.check);
      case Finalise(reason) => EndKeeps(s, reason, st.up, st.clock);
    }
  }

  lemma RejectKeeps(s: Stream, up: bool, clock: int, check: int)
    requires Kept(s, up, clock) && !s.closed && s.state == Open
    ensures Kept(Reject(s, up, clock, check), up, clock)
  {
    var t := s.(hooked := false, reason := REJECTED, phase := WaitAck, retries := 0, lastCtrl := clock);
    EnterClosingKeeps(t, up, clock, check);
    var u := SetState(t, Closing, up, clock, check);
    var v := SendClose(u, REJECTED, up, clock, check);
    assert ClosingKept(v, up);
    FinaliseKeeps(v, REJECTED, up, clock);
    ClosingIsKept(v, up, clock);
  }

  lemma FailKeeps(s: Stream, up: bool, clock: int, check: int)
    requires Kept(s, up, clock) && !s.closed
    ensures Kept(Fail(s, up, clock, check), up, clock)
    ensures Fail(s, up, clock, check).closed && Fail(s, up, clock, check).state == Failed
  {
    var t := SetState(s, Failed, up, clock, check);
    assert t.log == s.log;
    FinaliseKeeps(t, ERROR, up, clock);
  }

  // Whole runs.

  function After(s: Stream, run: seq<Step>): Stream
    decreases |run|
  {
    if run == [] then s else After(Apply(s, run[0]), run[1..])
  }

  /** Time does not go back, a connection that went down stays down, and KCP behaves. */
  ghost predicate Plausible(s: Stream, up: bool, clock: int, run: seq<Step>)
    decreases |run|
  {
    run != [] ==>
      && Follows(up, clock, run[0]) && KcpBehaves(s, run[0].op)
      && Plausible(Apply(s, run[0]), run[0].up, run[0].clock, run[1..])
  }

  /** The connection and the clock after a run. */
  function LastUp(up: bool, run: seq<Step>): bool {
    if run == [] then up else run[|run| - 1].up
  }

  function LastClock(clock: int, run: seq<Step>): int {
    if run == [] then clock else run[|run| - 1].clock
  }

  lemma {:induction false} RunKeeps(s: Stream, up: bool, clock: int, run: seq<Step>)
    requires Kept(s, up, clock) && Plausible(s, up, clock, run)
    ensures Kept(After(s, run), LastUp(up, run), LastClock(clock, run))
    decreases |run|
  {
    hide Apply, Kept;
    if run != [] {
      ApplyKeeps(s, run[0], up, clock);
      RunKeeps(Apply(s, run[0]), run[0].up, run[0].clock, run[1..]);
    }
  }

  /**
    Nothing gets stuck.  However a stream was opened and whatever happened to
    it since, while its connection is up it is either finalised or its timer
    is set, and a close in progress is never cut short by an early firing.
   */
  lemma NothingGetsStuck(
    id: int, isInitiator: bool, config: Config, hooked: bool, clock: int, check: int, run: seq<Step>)
    requires Acceptable(config)
    requires Plausible(New(id, isInitiator, config, hooked, true, clock, check), true, clock, run)
    requires LastUp(true, run)
    ensures var s := After(New(id, isInitiator, config, hooked, true, clock, check), run);
      && (s.closed || s.alarm.state == InHeap)
      && (!s.closed && s.phase == WaitAck ==> s.alarm.deadline >= DeadlineAfter(s.lastCtrl, s.config.ctrlTimeout))
      && (!s.closed && s.phase == RemoteDrain ==> s.alarm.deadline >= DeadlineAfter(s.drainStart, s.config.drainTimeout))
  {
    var s := New(id, isInitiator, config, hooked, true, clock, check);
    NewIsKept(id, isInitiator, config, hooked, true, clock, check);
    RunKeeps(s, true, clock, run);
  }

  // Frames.

  lemma AccumulateFrame(s: Stream, clock: int)
    ensures var t := Accumulate(s, clock);
      t.state == s.state && t.readBlocked == s.readBlocked && t.hooked == s.hooked && t.log == s.log && t.kcp == s.kcp
  {
    hide Schedule;
    ScheduleFrame(s, clock);
    ScheduleFrame(s.(pending := s.pending + 1, inBatch := false), clock);
  }

  lemma ScheduleFrame(s: Stream, clock: int)
    ensures Schedule(s, clock, clock) == s.(alarm := Schedule(s, clock, clock).alarm)
  {
  }

  // Where the equivalences end.

  /** The batch list and the count of pending work agree. */
  predicate ListedExactly(s: Stream) {
    s.inBatch <==> 0 < s.pending < s.config.batch
  }

  /**
    The engine's end of a batch takes every stream off the list, but leaves its
    pending work as it was unless the stream is open and its connection up.  So
    list and count still agree afterwards in exactly that case.
   */
  lemma BatchEndKeepsAgreement(s: Stream, st: Step, clock: int)
    requires Kept(s, st.up, clock) && s.inBatch && st.op == EngineFinishBatch
    ensures ListedExactly(s) && !Apply(s, st).inBatch
    ensures ListedExactly(Apply(s, st)) <==> st.up && s.state == Open
  {
  }

  /** A run, taken apart. */
  lemma RunUnfolds(s: Stream, up: bool, clock: int, st: Step, rest: seq<Step>)
    ensures After(s, [st] + rest) == After(Apply(s, st), rest)
    ensures Plausible(s, up, clock, [st] + rest) <==>
      Follows(up, clock, st) && KcpBehaves(s, st.op) && Plausible(Apply(s, st), st.up, st.clock, rest)
  {
    hide Apply, Follows, KcpBehaves;
    assert ([st] + rest)[1..] == rest;
  }

  lemma RunEnds(s: Stream, up: bool, clock: int)
    ensures After(s, []) == s && Plausible(s, up, clock, [])
  {
  }

  /** A payload that arrives just before its connection goes down: the batch ends with the work neither listed nor due. */
  lemma BatchEndLosesWork(config: Config, kcp: Kcp.Session)
    requires Acceptable(config) && config.batch > 2 && kcp.sent == []
    ensures var s := New(1, false, config, true, true, 0, 0);
      var run := [Step(Payload(kcp, true), true, 0, 0, 0), Step(EngineFinishBatch, false, 0, 0, 0)];
      && Kept(s, true, 0) && Plausible(s, true, 0, run) && !ListedExactly(After(s, run))
  {
    NewIsKept(1, false, config, true, true, 0, 0);
    var s := New(1, false, config, true, true, 0, 0);
    var first, second := Step(Payload(kcp, true), true, 0, 0, 0), Step(EngineFinishBatch, false, 0, 0, 0);
    var t := Apply(s, first);
    assert t.inBatch && t.pending == 1;
    RunUnfolds(s, true, 0, first, [second]);
    RunUnfolds(t, true, 0, second, []);
    RunEnds(Apply(t, second), false, 0);
    assert [first] + [second] == [first, second] && [second] + [] == [second];
  }

  /** The same for a stream that its peer is closing while data is left to read. */
  lemma BatchEndLosesClosingWork(config: Config, kcp: Kcp.Session)
    requires Acceptable(config) && config.batch > 2 && Kcp.Readable(kcp) && kcp.sent == []
    ensures var s := New(1, false, config, true, true, 0, 0);
      var run := [
        Step(Payload(kcp, true), true, 0, 0, 0), Step(PeerClose(NORMAL), true, 0, 0, 0),
        Step(EngineFinishBatch, true, 0, 0, 0)];
      && Kept(s, true, 0) && Plausible(s, true, 0, run) && !ListedExactly(After(s, run))
  {
    NewIsKept(1, false, config, true, true, 0, 0);
    var s := New(1, false, config, true, true, 0, 0);
    var first, second := Step(Payload(kcp, true), true, 0, 0, 0), Step(PeerClose(NORMAL), true, 0, 0, 0);
    var third := Step(EngineFinishBatch, true, 0, 0, 0);
    var t := Apply(s, first);
    assert t.inBatch && t.pending == 1 && t.state == Open && t.kcp == kcp;
    var u := Apply(t, second);
    assert u.inBatch && u.pending == 1 && u.state == Closing;
    RunUnfolds(s, true, 0, first, [second, third]);
    RunUnfolds(t, true, 0, second, [third]);
    RunUnfolds(u, true, 0, third, []);
    RunEnds(Apply(u, third), true, 0);
    assert [first] + [second, third] == [first, second, third] && [second] + [third] == [second, third];
    assert [third] + [] == [third];
  }

  /**
    An open stream's mark for reading is right after a payload exactly if KCP
    reported success or took in nothing that can be read: after a failure no one
    looks.  KCP is only taken to keep what was readable so.
   */
  lemma MarkSurvivesPayload(s: Stream, kcp: Kcp.Session, ok: bool, clock: int)
    requires ReadMarked(s) && !s.closed && s.state == Open && (Kcp.Readable(s.kcp) ==> Kcp.Readable(kcp))
    ensures ReadMarked(HandlePayload(s, kcp, ok, clock)) <==> ok || Kcp.Readable(kcp) == Kcp.Readable(s.kcp)
  {
    hide Schedule;
    AccumulateFrame(s.(kcp := kcp), clock);
    ScheduleFrame(s.(kcp := kcp), clock);
    ScheduleFrame(s.(kcp := kcp, pending := s.pending + 1, inBatch := false), clock);
  }
}

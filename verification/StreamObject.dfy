/**
  The stream object of src/kcpmux_stream.c, updated field by field as the
  library does.  Every method is proved to do to the object's value what the
  function of the same name in module Stream does, so all that is proved there
  and about runs of it holds of the object.
 */
module StreamObject {
  import opened Timer
  import opened TimerSlot
  import Kcp
  import SendPath
  import S = Stream
  import Runs = StreamRuns
  import Scheduler

  datatype Status = Done | BadParameter | WrongState | AlreadyClosed | KcpFailed | BufferTooSmall

  class Stream {
    const id: int
    const isInitiator: bool
    var config: S.Config
    var hooked: bool
    var state: S.State
    var phase: S.Phase
    var reason: S.Reason
    var retries: int
    var lastCtrl: Int64
    var drainStart: Int64
    var closed: bool
    const slot: Slot
    var kcp: Kcp.Session
    var upSent: int
    var readBlocked: bool
    var writeBlocked: bool
    var pending: int
    var inBatch: bool
    /** What the object has sent, notified and released so far. */
    var log: seq<S.Event>

    ghost function Value(): S.Stream
      reads this, slot.node`state, slot.node`deadline, slot.node`registered
    {
      With(slot.node.registered, slot.Alarm())
    }

    /** The fields, with what the timer node adds to them. */
    ghost function With(registered: bool, alarm: S.Alarm): S.Stream
      reads this
    {
      S.Stream(
        id, isInitiator, config, hooked, state, phase, reason, retries, lastCtrl, drainStart, closed,
        registered, alarm, kcp, upSent, readBlocked, writeBlocked, pending, inBatch, log)
    }

    ghost predicate Wired()
      reads this`config, slot.scheduler, slot.scheduler.timers, slot.scheduler.timers.heap, slot.scheduler.timers.nodes
    {
      slot.Wired() && S.Acceptable(config)
    }

    constructor (
      slot: Slot, id: int, isInitiator: bool, config: S.Config, hooked: bool, up: bool, clock: Int64, check: Int64)
      requires slot.Wired() && S.Acceptable(config) && slot.node.registered && slot.Alarm() == S.Alarm(Idle, 0)
      modifies slot.scheduler, slot.scheduler.timers, slot.scheduler.timers.heap
      modifies slot.scheduler.timers.nodes`heapIndex, slot.node
      ensures Wired() && slot.Local() && this.slot == slot
      ensures Value() == S.New(id, isInitiator, config, hooked, up, clock, check)
    {
      this.slot := slot;
      this.id, this.isInitiator, this.config, this.hooked := id, isInitiator, config, hooked;
      state, phase, reason, retries, lastCtrl, drainStart := S.Open, S.NoPhase, S.NORMAL, 0, 0, 0;
      kcp, upSent, pending, inBatch, log := Kcp.FRESH, 0, 0, false, [];
      closed, readBlocked, writeBlocked := false, true, false;
      new;
      RefreshTimer(up, clock, check);
    }

    method Emit(e: S.Event)
      modifies this`log
      ensures log == old(log) + [e] && Value() == S.Logged(old(Value()), e)
    {
      log := log + [e];
    }

    /** Runs a callback, if the application registered it. */
    method Call(e: S.Event)
      modifies this`log
      ensures Value() == S.Notify(old(Value()), e)
    {
      if hooked {
        Emit(e);
      }
    }

    /** kcpmux_engine_schedule_timer_node on the embedded node, which cannot fail. */
    method Schedule(when: Int64, now: Int64)
      requires Wired()
      modifies slot.scheduler, slot.scheduler.timers, slot.scheduler.timers.heap
      modifies slot.scheduler.timers.nodes`heapIndex, slot.node
      ensures Wired() && slot.Local()
      ensures Value() == S.Schedule(old(Value()), when, now)
    {
      slot.Schedule(when, now);
    }

    method Cancel(now: Int64)
      requires Wired()
      modifies slot.scheduler, slot.scheduler.timers, slot.scheduler.timers.heap
      modifies slot.scheduler.timers.nodes`heapIndex, slot.node
      ensures Wired() && slot.Local()
      ensures Value() == S.Cancel(old(Value()))
    {
      slot.Cancel(now);
    }

    method ClearPending()
      modifies this`pending, this`inBatch
      ensures Value() == S.ClearPending(old(Value()))
    {
      pending := 0;
      if inBatch {
        inBatch := false;
      }
    }

    method ScheduleFinalize(why: S.Reason, now: Int64)
      requires Wired()
      modifies this`reason, this`phase, this`pending, this`inBatch
      modifies slot.scheduler, slot.scheduler.timers, slot.scheduler.timers.heap
      modifies slot.scheduler.timers.nodes`heapIndex, slot.node
      ensures Wired() && slot.Local()
      ensures Value() == S.ScheduleFinalize(old(Value()), why, now)
    {
      hide Slot.Wired, Slot.Alarm, S.Acceptable;
      reason := why;
      phase := S.Finalize;
      ClearPending();
      Schedule(now, now);
    }

    method AccumulateUpdate(now: Int64)
      requires Wired()
      modifies this`pending, this`inBatch
      modifies slot.scheduler, slot.scheduler.timers, slot.scheduler.timers.heap
      modifies slot.scheduler.timers.nodes`heapIndex, slot.node
      ensures Wired() && slot.Local()
      ensures Value() == S.Accumulate(old(Value()), now)
    {
      hide Slot.Wired, Slot.Alarm, S.Acceptable;
      var threshold := config.batch;
      if threshold <= 1 {
        Schedule(now, now);
        return;
      }
      if pending >= threshold {
        return;
      }
      if pending == 0 {
        inBatch := true;
      }
      pending := pending + 1;
      if pending == threshold {
        inBatch := false;
        Schedule(now, now);
      }
    }

    method RefreshTimer(up: bool, now: Int64, check: Int64)
      requires Wired()
      modifies slot.scheduler, slot.scheduler.timers, slot.scheduler.timers.heap
      modifies slot.scheduler.timers.nodes`heapIndex, slot.node
      ensures Wired() && slot.Local()
      ensures Value() == S.RefreshTimer(old(Value()), up, now, check)
    {
      if !slot.node.registered {
        return;
      }
      if closed || !up {
        Cancel(now);
        return;
      }
      var when;
      match state {
        case Open => when := check;
        case Closing =>
          match phase {
            case LocalDrain => when := S.Min(check, S.DeadlineAfter(drainStart, config.drainTimeout));
            case WaitAck => when := S.DeadlineAfter(lastCtrl, config.ctrlTimeout);
            case RemoteDrain => when := S.DeadlineAfter(drainStart, config.drainTimeout);
            case Finalize => when := now;
            case NoPhase =>
              Cancel(now);
              return;
          }
        case _ =>
          Cancel(now);
          return;
      }
      Schedule(when, now);
    }

    method SetState(to: S.State, up: bool, clock: Int64, check: Int64)
      requires Wired()
      modifies this`state, this`log
      modifies slot.scheduler, slot.scheduler.timers, slot.scheduler.timers.heap
      modifies slot.scheduler.timers.nodes`heapIndex, slot.node
      ensures Wired() && slot.Local()
      ensures Value() == S.SetState(old(Value()), to, up, clock, check)
    {
      hide Slot.Wired, Slot.Alarm, S.Acceptable, S.RefreshTimer, S.Notify;
      if state == to {
        return;
      }
      var from := state;
      state := to;
      RefreshTimer(up, clock, check);
      if to != S.Closed && to != S.Failed {
        Call(S.StateChanged(from, to));
      }
    }

    /** Finalisation: the timer goes first, then KCP, then the application is told, then the release is queued. */
    method CloseInternal(why: S.Reason, clock: Int64)
      requires Wired()
      modifies this
      modifies slot.scheduler, slot.scheduler.timers, slot.scheduler.timers.heap
      modifies slot.scheduler.timers.nodes`heapIndex, slot.node
      ensures Wired() && slot.Local()
      ensures Value() == S.CloseInternal(old(Value()), why)
    {
      hide Slot.Wired, Slot.Alarm, S.Acceptable, S.Notify, S.Logged, S.ClearPending;
      if closed {
        return;
      }
      Detach(clock);
      Emit(S.KcpReleased);
      Settle();
      Call(S.CloseNotify(why));
      Emit(S.ReleaseQueued);
    }

    /** Marks the object finalised, and gives up the batch list and the timer. */
    method Detach(clock: Int64)
      requires Wired()
      modifies this`closed, this`pending, this`inBatch
      modifies slot.scheduler, slot.scheduler.timers, slot.scheduler.timers.heap
      modifies slot.scheduler.timers.nodes`heapIndex, slot.node
      ensures Wired() && slot.Local()
      ensures Value() == S.ClearPending(old(Value())).(
        closed := true, alarm := old(Value()).alarm.(state := Idle), registered := false)
    {
      closed := true;
      ClearPending();
      slot.Release(clock);
    }

    method Settle()
      modifies this`state
      ensures Value() == old(Value()).(state := if old(state) == S.Failed then S.Failed else S.Closed)
    {
      if state != S.Failed {
        state := S.Closed;
      }
    }

    method SendClose(why: S.Reason, up: bool, clock: Int64, check: Int64) returns (status: Status)
      requires Wired()
      modifies this`lastCtrl, this`log
      modifies slot.scheduler, slot.scheduler.timers, slot.scheduler.timers.heap
      modifies slot.scheduler.timers.nodes`heapIndex, slot.node
      ensures Wired() && slot.Local()
      ensures Value() == S.SendClose(old(Value()), why, up, clock, check)
      ensures status == if closed then AlreadyClosed else Done
    {
      hide Slot.Wired, Slot.Alarm, S.Acceptable, S.RefreshTimer;
      if closed {
        return AlreadyClosed;
      }
      lastCtrl := clock;
      Emit(S.SentClose(why));
      RefreshTimer(up, clock, check);
      return Done;
    }

    method AdvanceLocalClose(up: bool, clock: Int64, check: Int64)
      requires Wired()
      modifies this
      modifies slot.scheduler, slot.scheduler.timers, slot.scheduler.timers.heap
      modifies slot.scheduler.timers.nodes`heapIndex, slot.node
      ensures Wired() && slot.Local()
      ensures Value() == S.AdvanceLocalClose(old(Value()), up, clock, check)
    {
      hide Value, Wired, S.SendClose, S.CloseInternal;
      FieldsSeen();
      if closed || phase != S.LocalDrain || Kcp.WaitSnd(kcp) != 0 {
        return;
      }
      var retriesAllowed := config.closeRetries;
      StartWaiting();
      var _ := SendClose(S.NORMAL, up, clock, check);
      if retriesAllowed == 0 {
        CloseInternal(S.NORMAL, clock);
      }
    }

    method StartWaiting()
      modifies this`phase, this`retries
      ensures Value() == old(Value()).(phase := S.WaitAck, retries := 0)
    {
      phase := S.WaitAck;
      retries := 0;
    }

    method Close(up: bool, clock: Int64, check: Int64)
      requires Wired()
      modifies this
      modifies slot.scheduler, slot.scheduler.timers, slot.scheduler.timers.heap
      modifies slot.scheduler.timers.nodes`heapIndex, slot.node
      ensures Wired() && slot.Local()
      ensures Value() == S.Close(old(Value()), up, clock, check)
    {
      hide Slot.Wired, Slot.Alarm, S.Acceptable, S.SetState, S.CloseInternal, S.AdvanceLocalClose, S.ScheduleFinalize, S.Schedule;
      if state == S.Closing {
        if phase == S.RemoteDrain {
          ScheduleFinalize(S.NORMAL, clock);
        }
        return;
      }
      if state == S.Closed || state == S.Failed {
        return;
      }
      StartDraining(clock);
      SetState(S.Closing, up, clock, check);
      if isInitiator && upSent == 0 {
        CloseInternal(S.NORMAL, clock);
        return;
      }
      Schedule(clock, clock);
      AdvanceLocalClose(up, clock, check);
    }

    /** All closing anchors are set before the state is changed. */
    method StartDraining(clock: Int64)
      modifies this`lastCtrl, this`drainStart, this`reason, this`retries, this`phase
      ensures Value() == old(Value()).(
        lastCtrl := clock, drainStart := clock, reason := S.NORMAL, retries := 0, phase := S.LocalDrain)
    {
      lastCtrl := clock;
      drainStart := clock;
      reason := S.NORMAL;
      retries := 0;
      phase := S.LocalDrain;
    }

    /** The timer callback. */
    method Update(up: bool, now: Int64, clock: Int64, check: Int64)
      requires Wired()
      modifies this
      modifies slot.scheduler, slot.scheduler.timers, slot.scheduler.timers.heap
      modifies slot.scheduler.timers.nodes`heapIndex, slot.node
      ensures Wired() && slot.Local()
      ensures Value() == S.Update(old(Value()), up, now, clock, check)
    {
      hide Slot.Wired, Slot.Alarm, S.Acceptable, S.UpdateOpen, S.UpdateClosing, S.Cancel;
      if closed || !up {
        return;
      }
      match state {
        case Open => UpdateOpen(now, check);
        case Closing => UpdateClosing(up, now, clock, check);
        case _ => Cancel(now);
      }
    }

    method UpdateOpen(now: Int64, check: Int64)
      requires Wired()
      modifies this
      modifies slot.scheduler, slot.scheduler.timers, slot.scheduler.timers.heap
      modifies slot.scheduler.timers.nodes`heapIndex, slot.node
      ensures Wired() && slot.Local()
      ensures Value() == S.UpdateOpen(old(Value()), now, check)
    {
      hide Slot.Wired, Slot.Alarm, S.Acceptable, S.Schedule, S.Notify;
      ClearPending();
      if writeBlocked {
        if Kcp.WaitSnd(kcp) < S.AsInt32(config.resumeBelow) {
          writeBlocked := false;
          Call(S.WriteNotify);
        }
      }
      Schedule(check, now);
    }

    method UpdateClosing(up: bool, now: Int64, clock: Int64, check: Int64)
      requires Wired()
      modifies this
      modifies slot.scheduler, slot.scheduler.timers, slot.scheduler.timers.heap
      modifies slot.scheduler.timers.nodes`heapIndex, slot.node
      ensures Wired() && slot.Local()
      ensures Value() == S.UpdateClosing(old(Value()), up, now, clock, check)
    {
      hide Slot.Wired, Slot.Alarm, S.Acceptable, S.CloseInternal;
      match phase {
        case LocalDrain => UpdateDraining(up, now, clock, check);
        case WaitAck => UpdateWaiting(up, now, clock, check);
        case RemoteDrain =>
          if now >= S.DeadlineAfter(drainStart, config.drainTimeout) {
            CloseInternal(S.TIMEOUT, clock);
          }
        case Finalize => CloseInternal(reason, clock);
        case NoPhase =>
      }
    }

    method UpdateDraining(up: bool, now: Int64, clock: Int64, check: Int64)
      requires phase == S.LocalDrain
      requires Wired()
      modifies this
      modifies slot.scheduler, slot.scheduler.timers, slot.scheduler.timers.heap
      modifies slot.scheduler.timers.nodes`heapIndex, slot.node
      ensures Wired() && slot.Local()
      ensures Value() == S.UpdateClosing(old(Value()), up, now, clock, check)
    {
      hide Value, Wired, S.CloseInternal, S.SendClose, S.AdvanceLocalClose, S.RefreshTimer;
      FieldsSeen();
      ClearPending();
      FieldsSeen();
      if Kcp.WaitSnd(kcp) == 0 {
        AdvanceLocalClose(up, clock, check);
        return;
      }
      if now >= S.DeadlineAfter(drainStart, config.drainTimeout) {
        SetReason(S.TIMEOUT);
        var _ := SendClose(S.TIMEOUT, up, clock, check);
        CloseInternal(S.TIMEOUT, clock);
        return;
      }
      RefreshTimer(up, now, check);
    }

    method SetReason(why: S.Reason)
      modifies this`reason
      ensures Value() == old(Value()).(reason := why)
    {
      reason := why;
    }

    method UpdateWaiting(up: bool, now: Int64, clock: Int64, check: Int64)
      requires phase == S.WaitAck
      requires Wired()
      modifies this
      modifies slot.scheduler, slot.scheduler.timers, slot.scheduler.timers.heap
      modifies slot.scheduler.timers.nodes`heapIndex, slot.node
      ensures Wired() && slot.Local()
      ensures Value() == S.UpdateClosing(old(Value()), up, now, clock, check)
    {
      hide Slot.Wired, Slot.Alarm, S.Acceptable, S.CloseInternal, S.SendClose;
      if now >= S.DeadlineAfter(lastCtrl, config.ctrlTimeout) {
        if retries < config.closeRetries {
          retries := retries + 1;
          var _ := SendClose(reason, up, clock, check);
          if retries == config.closeRetries {
            CloseInternal(reason, clock);
          }
        } else {
          CloseInternal(reason, clock);
        }
      }
    }

    method FinishBatchAt(up: bool, now: Int64)
      requires Wired()
      modifies this`pending, this`inBatch
      modifies slot.scheduler, slot.scheduler.timers, slot.scheduler.timers.heap
      modifies slot.scheduler.timers.nodes`heapIndex, slot.node
      ensures Wired() && slot.Local()
      ensures Value() == S.FinishBatch(old(Value()), up, now)
    {
      hide Slot.Wired, Slot.Alarm, S.Acceptable, S.Schedule;
      if closed || pending == 0 {
        return;
      }
      if state != S.Open || !up {
        return;
      }
      if config.batch > 1 && pending >= config.batch {
        return;
      }
      if inBatch {
        inBatch := false;
      }
      pending := if config.batch > 1 then config.batch else 0;
      Schedule(now, now);
    }

    method SetConfig(c: S.Config, up: bool, clock: Int64, check: Int64)
      requires Wired()
      modifies this`config, this`pending, this`inBatch
      modifies slot.scheduler, slot.scheduler.timers, slot.scheduler.timers.heap
      modifies slot.scheduler.timers.nodes`heapIndex, slot.node
      ensures Wired() && slot.Local()
      ensures Value() == S.SetConfig(old(Value()), c, up, clock, check)
    {
      hide S.RefreshTimer;
      if closed || !S.Acceptable(c) {
        return;
      }
      config := c.(mss := config.mss);
      ClearPending();
      RefreshTimer(up, clock, check);
    }

    /** A payload that KCP took (`ok`) or refused, either way becoming `after`. */
    method HandlePayload(after: Kcp.Session, ok: bool, clock: Int64) returns (status: Status)
      requires Wired()
      modifies this
      modifies slot.scheduler, slot.scheduler.timers, slot.scheduler.timers.heap
      modifies slot.scheduler.timers.nodes`heapIndex, slot.node
      ensures Wired() && slot.Local()
      ensures Value() == S.HandlePayload(old(Value()), after, ok, clock)
      ensures status == if old(closed) then AlreadyClosed else if !S.KcpActive(old(Value())) then WrongState
        else if ok then Done else KcpFailed
    {
      hide Value, Wired, S.Accumulate, S.Notify;
      FieldsSeen();
      if closed {
        return AlreadyClosed;
      }
      if !(state == S.Open || (state == S.Closing && phase == S.LocalDrain)) {
        return WrongState;
      }
      SetKcp(after);
      AccumulateUpdate(clock);
      if !ok {
        return KcpFailed;
      }
      FieldsSeen();
      if state == S.Open && readBlocked {
        if Kcp.PeekSize(kcp) > 0 {
          MarkReadable();
          Call(S.ReadNotify);
        }
      }
      return Done;
    }

    method SetKcp(after: Kcp.Session)
      modifies this`kcp
      ensures Value() == old(Value()).(kcp := after)
    {
      kcp := after;
    }

    method MarkReadable()
      modifies this`readBlocked
      ensures Value() == old(Value()).(readBlocked := false)
    {
      readBlocked := false;
    }

    method HandleClose(why: S.Reason, up: bool, clock: Int64, check: Int64) returns (status: Status)
      requires Wired()
      modifies this
      modifies slot.scheduler, slot.scheduler.timers, slot.scheduler.timers.heap
      modifies slot.scheduler.timers.nodes`heapIndex, slot.node
      ensures Wired() && slot.Local()
      ensures Value() == S.HandleClose(old(Value()), why, up, clock, check)
      ensures status == if old(closed) then AlreadyClosed
        else if why != S.NORMAL || old(state) == S.Open || (old(state) == S.Closing && old(phase) != S.NoPhase) then Done
        else WrongState
    {
      hide Slot.Wired, Slot.Alarm, S.Acceptable, S.Logged, S.CloseInternal, S.ScheduleFinalize, S.SetState;
      if closed {
        return AlreadyClosed;
      }
      if why != S.NORMAL {
        Emit(S.SentCloseAck(why));
        CloseInternal(why, clock);
        return Done;
      }
      if state == S.Closing {
        match phase {
          case LocalDrain | WaitAck =>
            Emit(S.SentCloseAck(why));
            ScheduleFinalize(S.NORMAL, clock);
            return Done;
          case RemoteDrain | Finalize =>
            Emit(S.SentCloseAck(why));
            return Done;
          case NoPhase =>
            return WrongState;
        }
      }
      if state != S.Open {
        return WrongState;
      }
      AcceptClose(why, up, clock, check);
      return Done;
    }

    method AcceptClose(why: S.Reason, up: bool, clock: Int64, check: Int64)
      requires !closed && state == S.Open && why == S.NORMAL
      requires Wired()
      modifies this
      modifies slot.scheduler, slot.scheduler.timers, slot.scheduler.timers.heap
      modifies slot.scheduler.timers.nodes`heapIndex, slot.node
      ensures Wired() && slot.Local()
      ensures Value() == S.HandleClose(old(Value()), why, up, clock, check)
    {
      hide Slot.Wired, Slot.Alarm, S.Acceptable, S.Logged, S.CloseInternal, S.ScheduleFinalize, S.SetState;
      Emit(S.SentCloseAck(why));
      StartRemoteDrain(why, clock);
      SetState(S.Closing, up, clock, check);
      if Kcp.PeekSize(kcp) <= 0 {
        ScheduleFinalize(why, clock);
      }
    }

    method StartRemoteDrain(why: S.Reason, clock: Int64)
      modifies this`reason, this`phase, this`drainStart
      ensures Value() == old(Value()).(reason := why, phase := S.RemoteDrain, drainStart := clock)
    {
      reason := why;
      phase := S.RemoteDrain;
      drainStart := clock;
    }

    method HandleCloseAck(clock: Int64) returns (status: Status)
      requires Wired()
      modifies this
      modifies slot.scheduler, slot.scheduler.timers, slot.scheduler.timers.heap
      modifies slot.scheduler.timers.nodes`heapIndex, slot.node
      ensures Wired() && slot.Local()
      ensures Value() == S.HandleCloseAck(old(Value()))
      ensures status == if old(state) == S.Closing && old(phase) == S.WaitAck then Done else WrongState
    {
      hide Slot.Wired, Slot.Alarm, S.Acceptable, S.CloseInternal;
      if state != S.Closing || phase != S.WaitAck {
        return WrongState;
      }
      CloseInternal(reason, clock);
      return Done;
    }

    /** Reads the next message into a buffer of `size` bytes, unless KCP fails to hand it over. */
    method Recv(size: int, ok: bool, clock: Int64) returns (status: Status, data: Kcp.Message)
      requires Wired()
      modifies this
      modifies slot.scheduler, slot.scheduler.timers, slot.scheduler.timers.heap
      modifies slot.scheduler.timers.nodes`heapIndex, slot.node
      ensures Wired() && slot.Local()
      ensures Value() == S.Recv(old(Value()), size, ok, clock)
      ensures status == if size <= 0 then BadParameter else if old(closed) then AlreadyClosed
        else if !S.CanRead(old(Value())) then WrongState else if Kcp.PeekSize(old(kcp)) > size then BufferTooSmall
        else if Kcp.PeekSize(old(kcp)) > 0 && !ok then KcpFailed else Done
      ensures data == if status == Done && Kcp.PeekSize(old(kcp)) > 0 then old(kcp).arrived[old(kcp).taken] else []
    {
      hide Slot.Wired, Slot.Alarm, S.Acceptable, S.ScheduleFinalize;
      data := [];
      if size <= 0 {
        return BadParameter, data;
      }
      if closed {
        return AlreadyClosed, data;
      }
      if state != S.Open && !(state == S.Closing && phase == S.RemoteDrain) {
        return WrongState, data;
      }
      var peek := Kcp.PeekSize(kcp);
      if peek > size {
        return BufferTooSmall, data;
      }
      if peek <= 0 {
        readBlocked := true;
        return Done, data;
      }
      if !ok {
        return KcpFailed, data;
      }
      data := kcp.arrived[kcp.taken];
      kcp := Kcp.Recv(kcp);
      if Kcp.PeekSize(kcp) <= 0 {
        if state == S.Closing && phase == S.RemoteDrain {
          ScheduleFinalize(reason, clock);
        } else if state == S.Open {
          readBlocked := true;
        }
      }
      return Done, data;
    }

    /** What a send may do, before any data is looked at; `open` tells whether KCP is to be given some. */
    method BeginSend(size: int, up: bool) returns (status: Status, open: bool)
      modifies this`writeBlocked
      ensures open == (S.CanSend(old(Value()), up) && !(size > 0 && Kcp.WaitSnd(old(kcp)) >= S.AsInt32(config.pauseAt)))
      ensures status == if closed then AlreadyClosed else if !S.CanSend(old(Value()), up) then WrongState else Done
      ensures Value() == if status == Done && !open then old(Value()).(writeBlocked := true) else old(Value())
    {
      if closed {
        return AlreadyClosed, false;
      }
      if state != S.Open || !up {
        return WrongState, false;
      }
      if size > 0 && Kcp.WaitSnd(kcp) >= S.AsInt32(config.pauseAt) {
        if !writeBlocked {
          writeBlocked := true;
        }
        return Done, false;
      }
      return Done, true;
    }

    /** The end of a send of which KCP took the messages `got`. */
    method EndSend(size: int, got: seq<Kcp.Message>, flush: bool, clock: Int64, check: Int64)
      requires Wired()
      modifies this`kcp, this`upSent, this`pending, this`inBatch
      modifies slot.scheduler, slot.scheduler.timers, slot.scheduler.timers.heap
      modifies slot.scheduler.timers.nodes`heapIndex, slot.node
      ensures Wired() && slot.Local()
      ensures var s, sent := old(Value()), |SendPath.Flatten(got)|;
        Value() == if size > 0 && sent == 0 then s
          else S.Enqueued(s.(kcp := S.Handed(s.kcp, got), upSent := s.upSent + sent), sent, flush, clock, check)
    {
      hide Slot.Wired, Slot.Alarm, S.Acceptable, S.Enqueued, SendPath.Flatten;
      var sent := |SendPath.Flatten(got)|;
      if size > 0 && sent == 0 {
        return;
      }
      kcp := S.Handed(kcp, got);
      upSent := upSent + sent;
      Enqueue(sent, flush, clock, check);
    }

    /** The answer to a send: KCP's error if it took nothing of some data, else the bytes it took. */
    ghost function Answer(open: bool, data: SendPath.Bytes, room: nat, code: int): int
      requires config.mss > 0
      reads this`config
    {
      if open then SendPath.Told(data, config.mss, room, code) else 0
    }

    /** kcpmux_stream_send while KCP takes `room` more messages and then fails with `code`. */
    method Send(data: SendPath.Bytes, room: nat, code: int, flush: bool, up: bool, clock: Int64, check: Int64)
      returns (status: Status, count: int)
      requires Wired() && code < 0
      modifies this
      modifies slot.scheduler, slot.scheduler.timers, slot.scheduler.timers.heap
      modifies slot.scheduler.timers.nodes`heapIndex, slot.node
      ensures Wired() && slot.Local()
      ensures Value() == S.SendData(old(Value()), data, room, flush, up, clock, check)
      ensures status == if SendPath.Invalid(data, flush) then BadParameter else if old(closed) then AlreadyClosed
        else if !S.CanSend(old(Value()), up) then WrongState else Done
      ensures count == if status != Done then 0 else Answer(
        data == [] || Kcp.WaitSnd(old(kcp)) < S.AsInt32(config.pauseAt), data, room, code)
    {
      hide Slot.Wired, Value, S.Enqueued, SendPath.Accepted, SendPath.Told;
      count := 0;
      if SendPath.Invalid(data, flush) {
        return BadParameter, 0;
      }
      FieldsSeen();
      var open;
      status, open := BeginSend(|data|, up);
      if open {
        var handed;
        count, handed := SendPath.StreamSend([], room, code, data, config.mss, flush);
        assert handed == SendPath.Accepted(data, config.mss, room);
        FieldsSeen();
        EndSend(|data|, handed, flush, clock, check);
      }
    }

    /** kcpmux_stream_sendv: the same for data in fragments, which KCP may or may not gather itself. */
    method SendV(
      iov: seq<SendPath.Bytes>, room: nat, code: int, flush: bool, native: bool, up: bool, clock: Int64, check: Int64)
      returns (status: Status, count: int)
      requires Wired() && code < 0
      modifies this
      modifies slot.scheduler, slot.scheduler.timers, slot.scheduler.timers.heap
      modifies slot.scheduler.timers.nodes`heapIndex, slot.node
      ensures Wired() && slot.Local()
      ensures Value() == S.SendData(old(Value()), SendPath.Flatten(iov), room, flush, up, clock, check)
      ensures status == if SendPath.Invalid(SendPath.Flatten(iov), flush) then BadParameter
        else if old(closed) then AlreadyClosed else if !S.CanSend(old(Value()), up) then WrongState else Done
      ensures count == if status != Done then 0 else Answer(
        SendPath.Flatten(iov) == [] || Kcp.WaitSnd(old(kcp)) < S.AsInt32(config.pauseAt), SendPath.Flatten(iov), room, code)
    {
      hide Slot.Wired, Value, S.Enqueued, SendPath.Accepted, SendPath.Told, SendPath.Flatten;
      count := 0;
      ghost var data := SendPath.Flatten(iov);
      var size := SendPath.TotalSize(iov);
      if size > SendPath.INT_MAX || (size == 0 && !flush) {
        return BadParameter, 0;
      }
      FieldsSeen();
      var open;
      status, open := BeginSend(size, up);
      if open {
        var handed;
        count, handed := SendPath.StreamSendV([], room, code, iov, config.mss, flush, native);
        assert handed == SendPath.Accepted(data, config.mss, room);
        FieldsSeen();
        EndSend(size, handed, flush, clock, check);
      }
    }

    lemma FieldsSeen()
      ensures var s := Value();
        && s.config == config && s.kcp == kcp && s.closed == closed && s.state == state && s.phase == phase
        && s.readBlocked == readBlocked && s.drainStart == drainStart && s.lastCtrl == lastCtrl
        && s.retries == retries && s.reason == reason && s.isInitiator == isInitiator && s.upSent == upSent
    {
    }

    /** Asks for the update that will put what KCP accepted on the wire. */
    method Enqueue(sent: int, flush: bool, clock: Int64, check: Int64)
      requires Wired()
      modifies this`pending, this`inBatch
      modifies slot.scheduler, slot.scheduler.timers, slot.scheduler.timers.heap
      modifies slot.scheduler.timers.nodes`heapIndex, slot.node
      ensures Wired() && slot.Local()
      ensures Value() == S.Enqueued(old(Value()), sent, flush, clock, check)
    {
      hide Slot.Wired, Slot.Alarm, S.Acceptable, S.Accumulate, S.Schedule, S.ClearPending;
      if sent == 0 && !flush {
        return;
      }
      if flush {
        ClearPending();
        Schedule(check, clock);
      } else {
        AccumulateUpdate(clock);
      }
    }

    /** The application turned down the stream, which its peer had opened. */
    method Reject(up: bool, clock: Int64, check: Int64)
      requires Wired()
      modifies this
      modifies slot.scheduler, slot.scheduler.timers, slot.scheduler.timers.heap
      modifies slot.scheduler.timers.nodes`heapIndex, slot.node
      ensures Wired() && slot.Local() && Value() == S.Reject(old(Value()), up, clock, check)
    {
      hide Value, Wired, S.SetState, S.SendClose, S.CloseInternal;
      Unhook(clock);
      SetState(S.Closing, up, clock, check);
      var status := SendClose(S.REJECTED, up, clock, check);
      ConfigSeen();
      if config.closeRetries == 0 {
        CloseInternal(S.REJECTED, clock);
      }
    }

    /** KCP failed on the payload that opened the stream. */
    method Fail(up: bool, clock: Int64, check: Int64)
      requires Wired()
      modifies this
      modifies slot.scheduler, slot.scheduler.timers, slot.scheduler.timers.heap
      modifies slot.scheduler.timers.nodes`heapIndex, slot.node
      ensures Wired() && slot.Local() && Value() == S.Fail(old(Value()), up, clock, check)
    {
      hide Value, Wired, S.SetState, S.CloseInternal;
      SetState(S.Failed, up, clock, check);
      CloseInternal(S.ERROR, clock);
    }

    /** Nothing will be reported of a rejected stream, which only waits for its close to be answered. */
    method Unhook(clock: Int64)
      modifies this`hooked, this`reason, this`phase, this`retries, this`lastCtrl
      ensures Value() ==
        old(Value()).(hooked := false, reason := S.REJECTED, phase := S.WaitAck, retries := 0, lastCtrl := clock)
    {
      hooked, reason, phase, retries, lastCtrl := false, S.REJECTED, S.WaitAck, 0, clock;
    }

    lemma ConfigSeen()
      ensures Value().config == config
    {
    }

    method BeginCallback()
      requires Wired() && slot.scheduler.timers.due != [] && slot.scheduler.timers.due[0] == slot.node
      modifies slot.scheduler`dispatchCount, slot.scheduler`trace, slot.scheduler.timers`due, slot.node`state
      ensures Wired() && old(Value()).alarm.state == InHeap
      ensures Value() == var s := old(Value()); s.(alarm := s.alarm.(state := Running))
      ensures slot.scheduler.timers.due == old(slot.scheduler.timers.due)[1..] && slot.node !in slot.scheduler.timers.due
      ensures slot.scheduler.dispatchCount == old(slot.scheduler.dispatchCount) + 1
      ensures slot.scheduler.trace == old(slot.scheduler.trace) + [Scheduler.Called(slot.node)]
    {
      hide Slot.Wired, S.Acceptable;
      slot.Begin();
    }

    method EndCallback()
      requires Wired() && slot.node !in slot.scheduler.timers.due
      modifies slot.node`state
      ensures Wired() && (slot.node.state == Idle || slot.node.state == InHeap)
      ensures Value() == var s := old(Value());
        if s.alarm.state == Running then s.(alarm := s.alarm.(state := Idle)) else s
    {
      hide Slot.Wired, S.Acceptable;
      slot.End();
    }

    /** The dispatch loop runs the callback of the node, which is the first that is due. */
    method Fire(up: bool, now: Int64, clock: Int64, check: Int64)
      requires Wired() && slot.scheduler.timers.due != [] && slot.scheduler.timers.due[0] == slot.node
      requires slot.node.deadline <= now
      modifies this, slot.scheduler, slot.scheduler.timers, slot.scheduler.timers.heap
      modifies slot.scheduler.timers.nodes`heapIndex, slot.node
      ensures Wired() && slot.Ran() && Value() == Runs.FireTimer(old(Value()), up, now, clock, check)
    {
      hide Slot.Wired, S.Acceptable, S.Update, Value;
      assert Value().alarm.deadline <= now by { DeadlineSeen(); }
      BeginCallback();
      Update(up, now, clock, check);
      EndCallback();
    }

    lemma DeadlineSeen()
      ensures Value().alarm.deadline == slot.node.deadline
    {
    }

    /** Any one operation; a firing is the scheduler's to start. */
    method Operate(st: Runs.Step)
      requires Wired() && !st.op.Fire? && Clocked(st)
      modifies this
      modifies slot.scheduler, slot.scheduler.timers, slot.scheduler.timers.heap
      modifies slot.scheduler.timers.nodes`heapIndex, slot.node
      ensures Wired() && slot.Local()
      ensures Value() == Runs.Apply(old(Value()), st)
    {
      hide Value, Wired, S.Close, S.HandleClose, S.HandleCloseAck, S.HandlePayload, S.Recv, S.SendData, S.FinishBatch, S.SetConfig;
      hide S.CloseInternal;
      match st.op {
        case CloseCall => Close(st.up, st.clock, st.check);
        case PeerClose(why) => var _ := HandleClose(why, st.up, st.clock, st.check);
        case PeerCloseAck => var _ := HandleCloseAck(st.clock);
        case Payload(after, ok) => var _ := HandlePayload(after, ok, st.clock);
        case RecvCall(size, ok) => var _, _ := Recv(size, ok, st.clock);
        case SendCall(data, room, flush) => var _, _ := Send(data, room, -1, flush, st.up, st.clock, st.check);
        case FinishBatchCall => FinishBatchAt(st.up, st.clock);
        case EngineFinishBatch => FinishListed(st.up, st.clock);
        case SetConfigCall(c) => SetConfig(c, st.up, st.clock, st.check);
        case Finalise(why) => CloseInternal(why, st.clock);
      }
    }

    /** The engine's end of a batch, for a stream on its list. */
    method FinishListed(up: bool, now: Int64)
      requires Wired()
      modifies this`pending, this`inBatch
      modifies slot.scheduler, slot.scheduler.timers, slot.scheduler.timers.heap
      modifies slot.scheduler.timers.nodes`heapIndex, slot.node
      ensures Wired() && slot.Local()
      ensures Value() == var s := old(Value()); if s.inBatch then S.FinishBatch(s.(inBatch := false), up, now) else s
    {
      hide Slot.Wired, Slot.Alarm, S.Acceptable, S.FinishBatch;
      if inBatch {
        inBatch := false;
        FinishBatchAt(up, now);
      }
    }

    method Make(m: Move)
      requires Wired() && Possible(m)
      modifies this
      modifies slot.scheduler, slot.scheduler.timers, slot.scheduler.timers.heap
      modifies slot.scheduler.timers.nodes`heapIndex, slot.node
      ensures Wired() && slot.Local() && Value() == Moved(old(Value()), m)
    {
      hide Slot.Wired, Slot.Local, Value, S.Reject, S.Fail, Runs.Apply, S.Acceptable;
      match m {
        case Does(st) => Operate(st);
        case Rejects(up, clock, check) => Reject(up, clock, check);
        case Fails(up, clock, check) => Fail(up, clock, check);
      }
    }
  }

  /** What can happen to a stream but for a firing: an operation, or the end of one just opened by its peer. */
  datatype Move =
    | Does(st: Runs.Step)
    | Rejects(up: bool, clock: int, check: int)
    | Fails(up: bool, clock: int, check: int)

  predicate Possible(m: Move) {
    if m.Does? then !m.st.op.Fire? && Clocked(m.st) else IsInt64(m.clock) && IsInt64(m.check)
  }

  function Moved(s: S.Stream, m: Move): S.Stream {
    match m
    case Does(st) => Runs.Apply(s, st)
    case Rejects(up, clock, check) => S.Reject(s, up, clock, check)
    case Fails(up, clock, check) => S.Fail(s, up, clock, check)
  }

  predicate IsInt64(x: int) {
    -0x8000_0000_0000_0000 <= x < 0x8000_0000_0000_0000
  }

  predicate Clocked(st: Runs.Step) {
    IsInt64(st.now) && IsInt64(st.clock) && IsInt64(st.check)
  }
}

/**
  The connection object of src/kcpmux_conn.c, updated field by field as the
  library does.  Every method is proved to do to the object's value what the
  function of the same name in module Conn does.
 */
module ConnObject {
  import opened Timer
  import opened TimerSlot
  import Clock = Stream
  import C = Conn
  import Steps = ConnSteps

  class Conn {
    const isInitiator: bool
    const localId: int
    var peerId: int
    var config: C.Config
    var hooked: bool
    var state: C.State
    var reason: C.Reason
    var retries: int
    var closed: bool
    const slot: Slot
    var lastCtrl: Int64
    var lastRecv: Int64
    var lastKeepalive: Int64
    var lastPayload: Int64
    var keepaliveSeq: int
    /** What the object has sent, notified and released so far. */
    var log: seq<C.Event>

    ghost function Value(): C.Conn
      reads this, slot.node`state, slot.node`deadline, slot.node`registered
    {
      With(slot.node.registered, slot.Alarm())
    }

    /** The fields, with what the timer node adds to them. */
    ghost function With(registered: bool, alarm: S.Alarm): C.Conn
      reads this
    {
      C.Conn(
        isInitiator, localId, peerId, config, hooked, state, reason, retries, closed, registered, alarm,
        lastCtrl, lastRecv, lastKeepalive, lastPayload, keepaliveSeq, log)
    }

    ghost predicate Wired()
      reads this`config, slot.scheduler, slot.scheduler.timers, slot.scheduler.timers.heap, slot.scheduler.timers.nodes
    {
      slot.Wired() && C.Usable(config)
    }

    /** An initiator's connection, with its first CONNECT sent. */
    constructor Dialed(slot: Slot, localId: int, config: C.Config, hooked: bool, clock: Int64)
      requires slot.Wired() && C.Usable(config) && slot.node.registered && slot.Alarm() == Clock.Alarm(Idle, 0)
      modifies slot.scheduler, slot.scheduler.timers, slot.scheduler.timers.heap
      modifies slot.scheduler.timers.nodes`heapIndex, slot.node
      ensures Wired() && slot.Local() && this.slot == slot
      ensures Value() == C.Connect(localId, config, hooked, clock)
    {
      this.slot := slot;
      this.isInitiator, this.localId, this.peerId, this.config, this.hooked := true, localId, 0, config, hooked;
      state, reason, retries, closed, lastCtrl := C.Init, C.NORMAL, 0, false, 0;
      lastRecv, lastKeepalive, lastPayload, keepaliveSeq, log := clock, clock, clock, 0, [];
      new;
      Connect(clock);
    }

    /** A peer's connection that the application agreed to. */
    constructor Accepted(slot: Slot, localId: int, peerId: int, config: C.Config, hooked: bool, clock: Int64)
      requires slot.Wired() && C.Usable(config) && slot.node.registered && slot.Alarm() == Clock.Alarm(Idle, 0)
      modifies slot.scheduler, slot.scheduler.timers, slot.scheduler.timers.heap
      modifies slot.scheduler.timers.nodes`heapIndex, slot.node
      ensures Wired() && slot.Local() && this.slot == slot
      ensures Value() == C.Admitted(C.Met(localId, peerId, config, hooked, clock), clock)
    {
      hide Slot.Wired, C.NoteReceive, C.Admitted;
      this.slot := slot;
      this.isInitiator, this.localId, this.peerId, this.config, this.hooked := false, localId, peerId, config, hooked;
      state, reason, retries, closed, lastCtrl := C.Init, C.NORMAL, 0, false, 0;
      lastRecv, lastKeepalive, lastPayload, keepaliveSeq, log := clock, clock, clock, 0, [];
      new;
      NoteReceive(clock, false);
      Admit(clock);
    }

    /** A peer's connection that the application refused. */
    constructor Refused(slot: Slot, localId: int, peerId: int, config: C.Config, hooked: bool, result: int, clock: Int64)
      requires slot.Wired() && C.Usable(config) && slot.node.registered && slot.Alarm() == Clock.Alarm(Idle, 0)
      modifies slot.scheduler, slot.scheduler.timers, slot.scheduler.timers.heap
      modifies slot.scheduler.timers.nodes`heapIndex, slot.node
      ensures Wired() && slot.Local() && this.slot == slot
      ensures Value() == Steps.TurnedDown(C.Met(localId, peerId, config, hooked, clock), result)
    {
      hide Slot.Wired, C.NoteReceive, Steps.TurnedDown;
      this.slot := slot;
      this.isInitiator, this.localId, this.peerId, this.config, this.hooked := false, localId, peerId, config, hooked;
      state, reason, retries, closed, lastCtrl := C.Init, C.NORMAL, 0, false, 0;
      lastRecv, lastKeepalive, lastPayload, keepaliveSeq, log := clock, clock, clock, 0, [];
      new;
      NoteReceive(clock, false);
      TurnDown(result, clock);
    }

    method Emit(e: C.Event)
      modifies this`log
      ensures log == old(log) + [e] && Value() == C.Logged(old(Value()), e)
    {
      log := log + [e];
    }

    /** The earliest of the deadlines that the state calls for; `wanted` is false when there is none. */
    method CalculateDeadline() returns (wanted: bool, when: Int64)
      requires C.Usable(config)
      ensures C.CalculateDeadline(Value()) == if wanted then C.At(when) else C.Never
    {
      when := Clock.INT64_MAX;
      if closed {
        return false, when;
      }
      match state {
        case Connecting | Closing => when := Clock.DeadlineAfter(lastCtrl, config.ctrlTimeout);
        case Connected =>
          when := Clock.DeadlineAfter(lastRecv, config.keepaliveTimeout);
          if config.keepaliveInterval > 0 {
            var candidate := Clock.DeadlineAfter(lastKeepalive, config.keepaliveInterval);
            if candidate < when {
              when := candidate;
            }
          }
          if config.idleTimeout > 0 {
            var candidate := Clock.DeadlineAfter(lastPayload, config.idleTimeout);
            if candidate < when {
              when := candidate;
            }
          }
        case _ =>
      }
      wanted := when != Clock.INT64_MAX;
    }

    method RefreshTimer(now: Int64)
      requires Wired()
      modifies slot.scheduler, slot.scheduler.timers, slot.scheduler.timers.heap
      modifies slot.scheduler.timers.nodes`heapIndex, slot.node
      ensures Wired() && slot.Local()
      ensures Value() == C.RefreshTimer(old(Value()), now)
    {
      hide Slot.Wired, Slot.Alarm, C.CalculateDeadline;
      if closed {
        return;
      }
      var wanted, when := CalculateDeadline();
      if !wanted {
        slot.Cancel(now);
        return;
      }
      slot.Schedule(when, now);
    }

    method SetState(to: C.State, clock: Int64)
      requires Wired()
      modifies this`state, this`log
      modifies slot.scheduler, slot.scheduler.timers, slot.scheduler.timers.heap
      modifies slot.scheduler.timers.nodes`heapIndex, slot.node
      ensures Wired() && slot.Local()
      ensures Value() == C.SetState(old(Value()), to, clock)
    {
      hide Slot.Wired, Slot.Alarm, C.RefreshTimer;
      if closed || state == to {
        return;
      }
      var from := state;
      state := to;
      RefreshTimer(clock);
      if to != C.Closed && to != C.Failed && hooked {
        Emit(C.StateChanged(from, to));
      }
    }

    method SendConnect(clock: Int64)
      requires Wired()
      modifies this`lastCtrl, this`log
      modifies slot.scheduler, slot.scheduler.timers, slot.scheduler.timers.heap
      modifies slot.scheduler.timers.nodes`heapIndex, slot.node
      ensures Wired() && slot.Local()
      ensures Value() == C.SendConnect(old(Value()), clock)
    {
      hide Slot.Wired, Slot.Alarm, C.RefreshTimer;
      if closed {
        return;
      }
      lastCtrl := clock;
      Emit(C.SentConnect);
      RefreshTimer(clock);
    }

    method SendKeepalive(clock: Int64)
      requires Wired()
      modifies this`lastKeepalive, this`keepaliveSeq, this`log
      modifies slot.scheduler, slot.scheduler.timers, slot.scheduler.timers.heap
      modifies slot.scheduler.timers.nodes`heapIndex, slot.node
      ensures Wired() && slot.Local()
      ensures Value() == C.SendKeepalive(old(Value()), clock)
    {
      hide Slot.Wired, Slot.Alarm, C.RefreshTimer;
      if closed {
        return;
      }
      lastKeepalive := clock;
      keepaliveSeq := keepaliveSeq + 1;
      Emit(C.SentKeepalive(keepaliveSeq));
      RefreshTimer(clock);
    }

    method SendClose(why: C.Reason, clock: Int64)
      requires Wired()
      modifies this`lastCtrl, this`log
      modifies slot.scheduler, slot.scheduler.timers, slot.scheduler.timers.heap
      modifies slot.scheduler.timers.nodes`heapIndex, slot.node
      ensures Wired() && slot.Local()
      ensures Value() == C.SendClose(old(Value()), why, clock)
    {
      hide Slot.Wired, Slot.Alarm, C.RefreshTimer;
      if closed {
        return;
      }
      lastCtrl := clock;
      if peerId != 0 {
        Emit(C.SentClose(why));
      }
      RefreshTimer(clock);
    }

    method CloseInternal(why: C.Reason, clock: Int64)
      requires Wired()
      modifies this`closed, this`state, this`log
      modifies slot.scheduler, slot.scheduler.timers, slot.scheduler.timers.heap
      modifies slot.scheduler.timers.nodes`heapIndex, slot.node
      ensures Wired() && slot.Local()
      ensures Value() == C.CloseInternal(old(Value()), why)
    {
      hide Slot.Wired, Slot.Alarm;
      if closed {
        return;
      }
      closed := true;
      slot.Release(clock);
      if state != C.Failed {
        state := C.Closed;
      }
      if hooked {
        log := log + [C.CloseNotify(why)];
      }
      log := log + [C.ReleaseQueued];
    }

    method Connect(clock: Int64)
      requires Wired() && Value() == C.New(true, localId, 0, config, hooked, clock)
      modifies this`lastCtrl, this`state, this`log
      modifies slot.scheduler, slot.scheduler.timers, slot.scheduler.timers.heap
      modifies slot.scheduler.timers.nodes`heapIndex, slot.node
      ensures Wired() && slot.Local()
      ensures Value() == C.Connect(localId, config, hooked, clock)
    {
      hide Slot.Wired, Slot.Alarm, C.RefreshTimer, C.SendConnect;
      lastCtrl := clock;
      state := C.Connecting;
      RefreshTimer(clock);
      SendConnect(clock);
    }

    /** The application agreed to a peer's connection. */
    method Admit(clock: Int64)
      requires Wired()
      modifies this`state, this`log
      modifies slot.scheduler, slot.scheduler.timers, slot.scheduler.timers.heap
      modifies slot.scheduler.timers.nodes`heapIndex, slot.node
      ensures Wired() && slot.Local() && Value() == C.Admitted(old(Value()), clock)
    {
      hide Slot.Wired, Slot.Alarm, C.SetState;
      SetState(C.Connected, clock);
      Emit(C.SentConnectAck(0));
    }

    /** The application refused it: the answer is sent, the callbacks are dropped, and it ends. */
    method TurnDown(result: int, clock: Int64)
      requires Wired()
      modifies this`closed, this`state, this`log, this`hooked
      modifies slot.scheduler, slot.scheduler.timers, slot.scheduler.timers.heap
      modifies slot.scheduler.timers.nodes`heapIndex, slot.node
      ensures Wired() && slot.Local() && Value() == Steps.TurnedDown(old(Value()), result)
    {
      hide Slot.Wired, Slot.Alarm, C.CloseInternal;
      Emit(C.SentConnectAck(result));
      hooked := false;
      CloseInternal(C.REJECTED, clock);
    }

    method Close(clock: Int64)
      requires Wired()
      modifies this
      modifies slot.scheduler, slot.scheduler.timers, slot.scheduler.timers.heap
      modifies slot.scheduler.timers.nodes`heapIndex, slot.node
      ensures Wired() && slot.Local()
      ensures Value() == C.Close(old(Value()), clock)
    {
      hide Slot.Wired, Slot.Alarm, C.SetState, C.SendClose, C.CloseInternal;
      if closed || state == C.Closing || state == C.Closed || state == C.Failed {
        return;
      }
      lastCtrl := clock;
      reason := C.NORMAL;
      retries := 0;
      SetState(C.Closing, clock);
      SendClose(C.NORMAL, clock);
      if config.closeRetries == 0 {
        CloseInternal(C.NORMAL, clock);
      }
    }

    method SetConfig(c: C.Config, clock: Int64)
      requires Wired() && C.Unsigned(c)
      modifies this`config
      modifies slot.scheduler, slot.scheduler.timers, slot.scheduler.timers.heap
      modifies slot.scheduler.timers.nodes`heapIndex, slot.node
      ensures Wired() && slot.Local()
      ensures Value() == C.SetConfig(old(Value()), c, clock)
    {
      hide Slot.Wired, Slot.Alarm, C.RefreshTimer;
      if closed {
        return;
      }
      match C.Prepare(c) {
        case Unacceptable => return;
        case Prepared(prepared) =>
          config := prepared;
          RefreshTimer(clock);
      }
    }

    method NoteReceive(time: Int64, isPayload: bool)
      requires Wired()
      modifies this`lastRecv, this`lastPayload
      modifies slot.scheduler, slot.scheduler.timers, slot.scheduler.timers.heap
      modifies slot.scheduler.timers.nodes`heapIndex, slot.node
      ensures Wired() && slot.Local()
      ensures Value() == C.NoteReceive(old(Value()), time, isPayload)
    {
      hide Slot.Wired, Slot.Alarm, C.RefreshTimer;
      if closed {
        return;
      }
      if time > lastRecv {
        lastRecv := time;
      }
      if isPayload && time > lastPayload {
        lastPayload := time;
      }
      RefreshTimer(time);
    }

    /** The timer callback. */
    method Update(now: Int64, clock: Int64)
      requires Wired()
      modifies this
      modifies slot.scheduler, slot.scheduler.timers, slot.scheduler.timers.heap
      modifies slot.scheduler.timers.nodes`heapIndex, slot.node
      ensures Wired() && slot.Local()
      ensures Value() == C.Update(old(Value()), now, clock)
    {
      hide Slot.Wired, Slot.Alarm, C.CalculateDeadline, C.RefreshTimer, C.UpdateConnected, C.UpdateConnecting, C.UpdateClosing;
      if closed {
        return;
      }
      var wanted, when := CalculateDeadline();
      if !wanted || when > now {
        RefreshTimer(now);
        return;
      }
      match state {
        case Connecting => UpdateConnecting(now, clock);
        case Connected => UpdateConnected(now, clock);
        case Closing => UpdateClosing(now, clock);
        case _ => RefreshTimer(now);
      }
    }

    method UpdateConnecting(now: Int64, clock: Int64)
      requires Wired()
      modifies this
      modifies slot.scheduler, slot.scheduler.timers, slot.scheduler.timers.heap
      modifies slot.scheduler.timers.nodes`heapIndex, slot.node
      ensures Wired() && slot.Local()
      ensures Value() == C.UpdateConnecting(old(Value()), now, clock)
    {
      hide Slot.Wired, Slot.Alarm, C.RefreshTimer, C.SendConnect, C.SetState, C.CloseInternal;
      if retries < config.connectRetries {
        retries := retries + 1;
        SendConnect(clock);
        RefreshTimer(now);
      } else {
        SetState(C.Failed, clock);
        CloseInternal(C.TIMEOUT, clock);
      }
    }

    method UpdateClosing(now: Int64, clock: Int64)
      requires Wired()
      modifies this
      modifies slot.scheduler, slot.scheduler.timers, slot.scheduler.timers.heap
      modifies slot.scheduler.timers.nodes`heapIndex, slot.node
      ensures Wired() && slot.Local()
      ensures Value() == C.UpdateClosing(old(Value()), now, clock)
    {
      hide Slot.Wired, Slot.Alarm, C.RefreshTimer, C.SendClose, C.CloseInternal;
      if retries < config.closeRetries {
        retries := retries + 1;
        SendClose(reason, clock);
        if retries == config.closeRetries {
          CloseInternal(reason, clock);
          return;
        }
        RefreshTimer(now);
      } else {
        CloseInternal(reason, clock);
      }
    }

    method UpdateConnected(now: Int64, clock: Int64)
      requires Wired()
      modifies this
      modifies slot.scheduler, slot.scheduler.timers, slot.scheduler.timers.heap
      modifies slot.scheduler.timers.nodes`heapIndex, slot.node
      ensures Wired() && slot.Local()
      ensures Value() == C.UpdateConnected(old(Value()), now, clock)
    {
      hide Slot.Wired, Slot.Alarm, C.RefreshTimer, C.SendClose, C.SendKeepalive, C.SetState, C.CloseInternal;
      if now >= Clock.DeadlineAfter(lastRecv, config.keepaliveTimeout) {
        SetState(C.Failed, clock);
        CloseInternal(C.TIMEOUT, clock);
        return;
      }
      if config.idleTimeout > 0 && now >= Clock.DeadlineAfter(lastPayload, config.idleTimeout) {
        SetState(C.Closing, clock);
        SendClose(C.IDLE, clock);
        CloseInternal(C.IDLE, clock);
        return;
      }
      if config.keepaliveInterval > 0 && now >= Clock.DeadlineAfter(lastKeepalive, config.keepaliveInterval) {
        SendKeepalive(clock);
      }
      RefreshTimer(now);
    }

    /** An answer to this initiator's CONNECT. */
    method HandleConnectAck(peer: int, ok: bool, why: C.Reason, clock: Int64) returns (taken: bool)
      requires Wired()
      modifies this
      modifies slot.scheduler, slot.scheduler.timers, slot.scheduler.timers.heap
      modifies slot.scheduler.timers.nodes`heapIndex, slot.node
      ensures Wired() && slot.Local()
      ensures Value() == C.HandleConnectAck(old(Value()), peer, ok, why, clock)
      ensures taken == (!old(closed) && old(state) == C.Connecting)
    {
      hide Slot.Wired, Slot.Alarm, C.SetState, C.CloseInternal;
      if closed || state != C.Connecting {
        return false;
      }
      if clock > lastRecv {
        lastRecv := clock;
      }
      if ok {
        peerId := peer;
        SetState(C.Connected, clock);
      } else {
        SetState(C.Failed, clock);
        CloseInternal(why, clock);
      }
      return true;
    }

    /** A CONNECT that arrived again. */
    method Reanswer(result: int, clock: Int64)
      requires Wired()
      modifies this`log, this`lastRecv, this`lastPayload
      modifies slot.scheduler, slot.scheduler.timers, slot.scheduler.timers.heap
      modifies slot.scheduler.timers.nodes`heapIndex, slot.node
      ensures Wired() && slot.Local()
      ensures Value() == C.Apply(old(Value()), C.Reasked(result), clock)
    {
      hide Slot.Wired, Slot.Alarm, C.NoteReceive, C.Logged;
      if closed {
        return;
      }
      if result == 0 {
        NoteReceive(clock, false);
      }
      Emit(C.SentConnectAck(result));
    }

    method HandleClose(why: C.Reason, clock: Int64)
      requires Wired()
      modifies this
      modifies slot.scheduler, slot.scheduler.timers, slot.scheduler.timers.heap
      modifies slot.scheduler.timers.nodes`heapIndex, slot.node
      ensures Wired() && slot.Local()
      ensures Value() == C.Apply(old(Value()), C.PeerClose(why), clock)
    {
      hide Slot.Wired, Slot.Alarm, C.NoteReceive, C.Logged, C.CloseInternal;
      if closed {
        return;
      }
      NoteReceive(clock, false);
      Emit(C.SentCloseAck(why));
      CloseInternal(why, clock);
    }

    method HandleCloseAck(clock: Int64) returns (taken: bool)
      requires Wired()
      modifies this
      modifies slot.scheduler, slot.scheduler.timers, slot.scheduler.timers.heap
      modifies slot.scheduler.timers.nodes`heapIndex, slot.node
      ensures Wired() && slot.Local()
      ensures Value() == C.Apply(old(Value()), C.PeerCloseAck, clock)
      ensures taken == (!old(closed) && old(state) == C.Closing)
    {
      hide Slot.Wired, Slot.Alarm, C.NoteReceive, C.CloseInternal;
      if closed || state != C.Closing {
        return false;
      }
      NoteReceive(clock, false);
      CloseInternal(reason, clock);
      return true;
    }

    /** The dispatch loop runs the callback of the node, which is the first that is due. */
    method Fire(now: Int64, clock: Int64)
      requires Wired() && slot.scheduler.timers.due != [] && slot.scheduler.timers.due[0] == slot.node
      requires slot.node.deadline <= now
      modifies this, slot.scheduler, slot.scheduler.timers, slot.scheduler.timers.heap
      modifies slot.scheduler.timers.nodes`heapIndex, slot.node
      ensures Wired() && slot.Ran() && Value() == C.Fire(old(Value()), now, clock)
    {
      hide C.Update, C.Usable, Slot.Wired;
      slot.Begin();
      Update(now, clock);
      slot.End();
    }

    /** Any one operation; a firing is the scheduler's to start. */
    method Operate(op: C.Op, clock: Int64)
      requires Wired() && !op.Firing?
      modifies this
      modifies slot.scheduler, slot.scheduler.timers, slot.scheduler.timers.heap
      modifies slot.scheduler.timers.nodes`heapIndex, slot.node
      ensures Wired() && slot.Local()
      ensures Value() == C.Apply(old(Value()), op, clock)
    {
      hide Slot.Wired, Slot.Alarm;
      match op {
        case CloseCall => Close(clock);
        case SetConfigCall(c) => if C.Unsigned(c) { SetConfig(c, clock); }
        case Heard(isPayload) => NoteReceive(clock, isPayload);
        case Answered(peer, ok, why) => var _ := HandleConnectAck(peer, ok, why, clock);
        case Reasked(result) => Reanswer(result, clock);
        case PeerClose(why) => HandleClose(why, clock);
        case PeerCloseAck => var _ := HandleCloseAck(clock);
      }
    }
  }
}

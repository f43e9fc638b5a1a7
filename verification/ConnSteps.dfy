/**
  What the operations of a connection leave alone: who it is, and the order of
  what it logs.
 */
module ConnSteps {
  import C = Conn
  import Timer

  /** Nothing about who a connection is changes, and it is not thereby connected. */
  ghost predicate Steady(c: C.Conn, d: C.Conn) {
    && d.isInitiator == c.isInitiator && d.localId == c.localId && d.peerId == c.peerId
    && (d.state == C.Connecting ==> c.state == C.Connecting)
    && (d.state == C.Connected ==> c.state == C.Connected)
    && (C.SentConnect in d.log ==> C.SentConnect in c.log || c.state == C.Connecting)
    && (forall e | e in d.log && e.SentConnectAck? :: e in c.log)
  }

  predicate Final(e: C.Event) {
    e.CloseNotify? || e.ReleaseQueued?
  }

  /** The end of a finalised connection's log. */
  function Farewell(hooked: bool, reason: C.Reason): seq<C.Event> {
    (if hooked then [C.CloseNotify(reason)] else []) + [C.ReleaseQueued]
  }

  ghost predicate Unended(log: seq<C.Event>) {
    forall e | e in log :: !Final(e)
  }

  /** Finalisation is logged once, and is the last thing logged. */
  ghost predicate Ends(log: seq<C.Event>, hooked: bool, closed: bool) {
    if closed
    then exists life: seq<C.Event>, reason: C.Reason :: Unended(life) && log == life + Farewell(hooked, reason)
    else Unended(log)
  }

  ghost predicate EndedOnce(c: C.Conn) {
    Ends(c.log, c.hooked, c.closed)
  }

  ghost predicate Orderly(c: C.Conn, d: C.Conn) {
    d.hooked == c.hooked && (!c.closed && EndedOnce(c) ==> EndedOnce(d))
  }

  lemma RefreshIsSteady(c: C.Conn, now: int)
    requires C.Usable(c.config)
    ensures Steady(c, C.RefreshTimer(c, now)) && C.RefreshTimer(c, now).state == c.state
    ensures Orderly(c, C.RefreshTimer(c, now)) && C.RefreshTimer(c, now).closed == c.closed
  {
    C.RefreshFrame(c, now);
  }

  lemma SetStateIsSteady(c: C.Conn, to: C.State, clock: int)
    requires C.Usable(c.config) && to != C.Connected && to != C.Connecting
    ensures Steady(c, C.SetState(c, to, clock)) && Orderly(c, C.SetState(c, to, clock))
    ensures C.SetState(c, to, clock).closed == c.closed
  {
    hide C.RefreshTimer;
    C.RefreshFrame(c.(state := to), clock);
  }

  lemma SendsAreSteady(c: C.Conn, reason: C.Reason, clock: int)
    requires C.Usable(c.config)
    ensures Steady(c, C.SendClose(c, reason, clock)) && Steady(c, C.SendKeepalive(c, clock))
    ensures Orderly(c, C.SendClose(c, reason, clock)) && Orderly(c, C.SendKeepalive(c, clock))
    ensures Orderly(c, C.SendConnect(c, clock))
    ensures C.SendClose(c, reason, clock).closed == c.closed && C.SendKeepalive(c, clock).closed == c.closed
    ensures C.SendConnect(c, clock).closed == c.closed
    ensures c.state == C.Connecting ==> Steady(c, C.SendConnect(c, clock))
  {
    hide C.RefreshTimer;
    C.RefreshFrame(c.(lastCtrl := clock), clock);
    C.RefreshFrame(C.Logged(c.(lastCtrl := clock), C.SentClose(reason)), clock);
    C.RefreshFrame(C.Logged(c.(lastCtrl := clock), C.SentConnect), clock);
    C.RefreshFrame(
      C.Logged(c.(lastKeepalive := clock, keepaliveSeq := c.keepaliveSeq + 1), C.SentKeepalive(c.keepaliveSeq + 1)), clock);
  }

  lemma LoggingIsOrderly(c: C.Conn, e: C.Event)
    requires !Final(e)
    ensures Orderly(c, C.Logged(c, e))
  {
  }

  lemma FinalisingIsSteady(c: C.Conn, reason: C.Reason)
    ensures Steady(c, C.CloseInternal(c, reason)) && Orderly(c, C.CloseInternal(c, reason))
  {
    if !c.closed {
      assert C.CloseInternal(c, reason).log == c.log + Farewell(c.hooked, reason);
    }
  }

  lemma ReceiveIsSteady(c: C.Conn, clock: int, isPayload: bool)
    requires C.Usable(c.config) && !c.closed
    ensures var d := C.NoteReceive(c, clock, isPayload);
      Steady(c, d) && Orderly(c, d) && d.log == c.log && d.state == c.state && !d.closed && d.config == c.config
  {
    C.RefreshFrame(
      c.(lastRecv := C.Clock.Max(c.lastRecv, clock),
         lastPayload := if isPayload then C.Clock.Max(c.lastPayload, clock) else c.lastPayload), clock);
  }

  lemma CloseIsSteady(c: C.Conn, clock: int)
    requires C.Usable(c.config) && !c.closed
    ensures Steady(c, C.Close(c, clock)) && Orderly(c, C.Close(c, clock))
  {
    hide C.SetState, C.SendClose, C.CloseInternal, Ends;
    var b := c.(lastCtrl := clock, reason := C.NORMAL, retries := 0);
    SetStateIsSteady(b, C.Closing, clock);
    var d := C.SetState(b, C.Closing, clock);
    SendsAreSteady(d, C.NORMAL, clock);
    FinalisingIsSteady(C.SendClose(d, C.NORMAL, clock), C.NORMAL);
  }

  lemma UpdateIsSteady(c: C.Conn, now: int, clock: int)
    requires C.Usable(c.config) && !c.closed
    ensures Steady(c, C.Update(c, now, clock)) && Orderly(c, C.Update(c, now, clock))
  {
    hide C.RefreshTimer, C.UpdateConnected, C.SetState, C.SendConnect, C.SendClose, C.CloseInternal;
    hide C.CalculateDeadline, Ends;
    RefreshIsSteady(c, now);
    var again := c.(retries := c.retries + 1);
    SendsAreSteady(again, c.reason, clock);
    RefreshIsSteady(C.SendConnect(again, clock), now);
    RefreshIsSteady(C.SendClose(again, c.reason, clock), now);
    FinalisingIsSteady(C.SendClose(again, c.reason, clock), c.reason);
    FinalisingIsSteady(c, c.reason);
    SetStateIsSteady(c, C.Failed, clock);
    FinalisingIsSteady(C.SetState(c, C.Failed, clock), C.TIMEOUT);
    if c.state == C.Connected {
      UpdateConnectedIsSteady(c, now, clock);
    }
  }

  lemma UpdateConnectedIsSteady(c: C.Conn, now: int, clock: int)
    requires C.Usable(c.config) && !c.closed
    ensures Steady(c, C.UpdateConnected(c, now, clock)) && Orderly(c, C.UpdateConnected(c, now, clock))
  {
    hide C.RefreshTimer, C.SetState, C.SendClose, C.SendKeepalive, C.CloseInternal, Ends;
    RefreshIsSteady(c, now);
    SendsAreSteady(c, C.IDLE, clock);
    RefreshIsSteady(C.SendKeepalive(c, clock), now);
    SetStateIsSteady(c, C.Failed, clock);
    FinalisingIsSteady(C.SetState(c, C.Failed, clock), C.TIMEOUT);
    SetStateIsSteady(c, C.Closing, clock);
    var d := C.SetState(c, C.Closing, clock);
    SendsAreSteady(d, C.IDLE, clock);
    FinalisingIsSteady(C.SendClose(d, C.IDLE, clock), C.IDLE);
  }

  lemma ApplyIsSteady(c: C.Conn, op: C.Op, clock: int)
    requires C.Usable(c.config) && !c.closed && !op.Answered? && !op.Reasked?
    ensures Steady(c, C.Apply(c, op, clock)) && Orderly(c, C.Apply(c, op, clock))
  {
    hide C.RefreshTimer, C.Update, C.Close, C.CloseInternal, C.NoteReceive, Ends;
    match op {
      case CloseCall => CloseIsSteady(c, clock);
      case SetConfigCall(config) =>
        if C.Unsigned(config) && C.Prepare(config) != C.Unacceptable {
          RefreshIsSteady(c.(config := C.Prepare(config).config), clock);
        }
      case Heard(isPayload) => ReceiveIsSteady(c, clock, isPayload);
      case PeerClose(why) =>
        ReceiveIsSteady(c, clock, false);
        var d := C.NoteReceive(c, clock, false);
        LoggingIsOrderly(d, C.SentCloseAck(why));
        FinalisingIsSteady(C.Logged(d, C.SentCloseAck(why)), why);
      case PeerCloseAck =>
        ReceiveIsSteady(c, clock, false);
        FinalisingIsSteady(C.NoteReceive(c, clock, false), c.reason);
      case Firing(now) => UpdateIsSteady(c.(alarm := c.alarm.(state := Timer.Running)), now, clock);
    }
  }

  lemma AnswerIsOrderly(c: C.Conn, peerId: int, ok: bool, why: C.Reason, clock: int)
    requires C.Usable(c.config) && !c.closed
    ensures Orderly(c, C.HandleConnectAck(c, peerId, ok, why, clock))
  {
    hide C.RefreshTimer, C.CloseInternal;
    if c.state == C.Connecting {
      var d := c.(lastRecv := C.Clock.Max(c.lastRecv, clock));
      C.RefreshFrame(d.(peerId := peerId, state := C.Connected), clock);
      SetStateIsSteady(d, C.Failed, clock);
      var e := C.SetState(d, C.Failed, clock);
      C.RefreshFrame(d.(state := C.Failed), clock);
      FinalisingIsSteady(e, why);
    }
  }

  /** Whatever happens to a connection, its end is logged once and last. */
  lemma ApplyIsOrderly(c: C.Conn, op: C.Op, clock: int)
    requires C.Usable(c.config) && !c.closed
    ensures Orderly(c, C.Apply(c, op, clock))
  {
    hide C.HandleConnectAck, C.NoteReceive, C.Update, C.Close, C.RefreshTimer, C.CloseInternal;
    match op {
      case Answered(peerId, ok, why) => AnswerIsOrderly(c, peerId, ok, why, clock);
      case Reasked(result) => ReceiveIsSteady(c, clock, false);
      case _ => ApplyIsSteady(c, op, clock);
    }
  }

  lemma BirthIsUnended(localId: int, peerId: int, config: C.Config, hooked: bool, clock: int)
    requires C.Usable(config)
    ensures EndedOnce(C.Connect(localId, config, hooked, clock))
    ensures var c := C.Met(localId, peerId, config, hooked, clock);
      EndedOnce(c) && EndedOnce(C.Admitted(c, clock))
  {
    hide C.RefreshTimer;
    var c := C.New(true, localId, 0, config, hooked, clock).(lastCtrl := clock, state := C.Connecting);
    C.RefreshFrame(c, clock);
    C.RefreshFrame(C.Logged(C.RefreshTimer(c, clock).(lastCtrl := clock), C.SentConnect), clock);
    var d := C.New(false, localId, peerId, config, hooked, clock);
    ReceiveIsSteady(d, clock, false);
    C.RefreshFrame(C.NoteReceive(d, clock, false).(state := C.Connected), clock);
  }

  /** The reason with which an operation finalises a connection, if it does. */
  function Verdict(c: C.Conn, op: C.Op): C.Reason {
    match op
    case CloseCall => C.NORMAL
    case Answered(_, _, why) => why
    case PeerClose(why) => why
    case PeerCloseAck => c.reason
    case Firing(now) =>
      if c.state == C.Closing then c.reason
      else if c.state == C.Connected && now < C.Clock.DeadlineAfter(c.lastRecv, c.config.keepaliveTimeout) then C.IDLE
      else C.TIMEOUT
    case _ => C.NORMAL
  }

  /** Finalised, and the application told why. */
  ghost predicate EndsWith(d: C.Conn, reason: C.Reason) {
    d.closed && (d.hooked ==> |d.log| >= 2 && d.log[|d.log| - 2] == C.CloseNotify(reason))
  }

  lemma FinalisingTells(c: C.Conn, reason: C.Reason)
    requires !c.closed
    ensures EndsWith(C.CloseInternal(c, reason), reason)
  {
  }

  /** The verdict is the reason given. */
  lemma VerdictIsGiven(c: C.Conn, op: C.Op, clock: int)
    requires C.Usable(c.config) && !c.closed && C.Apply(c, op, clock).closed
    ensures EndsWith(C.Apply(c, op, clock), Verdict(c, op))
  {
    hide C.CloseInternal, C.RefreshTimer, C.Update, EndsWith, C.HandleConnectAck, C.Close;
    match op {
      case CloseCall => CloseTells(c, clock);
      case Answered(peerId, ok, why) => AnswerTells(c, peerId, ok, why, clock);
      case PeerClose(why) =>
        ReceiveIsSteady(c, clock, false);
        FinalisingTells(C.Logged(C.NoteReceive(c, clock, false), C.SentCloseAck(why)), why);
      case PeerCloseAck =>
        ReceiveIsSteady(c, clock, false);
        FinalisingTells(C.NoteReceive(c, clock, false), c.reason);
      case Firing(now) =>
        UpdateTells(c.(alarm := c.alarm.(state := Timer.Running)), now, clock);
        AlarmIsNotTold(C.Update(c.(alarm := c.alarm.(state := Timer.Running)), now, clock), Verdict(c, op));
      case Heard(isPayload) => ReceiveIsSteady(c, clock, isPayload);
      case Reasked(result) => ReceiveIsSteady(c, clock, false);
      case SetConfigCall(config) =>
        if C.Unsigned(config) && C.Prepare(config) != C.Unacceptable {
          RefreshIsSteady(c.(config := C.Prepare(config).config), clock);
        }
    }
  }

  lemma AlarmIsNotTold(d: C.Conn, reason: C.Reason)
    ensures EndsWith(d.(alarm := d.alarm.(state := Timer.Idle)), reason) == EndsWith(d, reason)
  {
  }

  lemma CloseTells(c: C.Conn, clock: int)
    requires C.Usable(c.config) && !c.closed && C.Close(c, clock).closed
    ensures EndsWith(C.Close(c, clock), C.NORMAL)
  {
    hide C.SetState, C.SendClose, C.CloseInternal, EndsWith;
    var b := c.(lastCtrl := clock, reason := C.NORMAL, retries := 0);
    SetStateIsSteady(b, C.Closing, clock);
    var d := C.SetState(b, C.Closing, clock);
    SendsAreSteady(d, C.NORMAL, clock);
    FinalisingTells(C.SendClose(d, C.NORMAL, clock), C.NORMAL);
  }

  lemma AnswerTells(c: C.Conn, peerId: int, ok: bool, why: C.Reason, clock: int)
    requires C.Usable(c.config) && !c.closed && C.HandleConnectAck(c, peerId, ok, why, clock).closed
    ensures EndsWith(C.HandleConnectAck(c, peerId, ok, why, clock), why)
  {
    hide C.RefreshTimer, C.CloseInternal, EndsWith;
    var d := c.(lastRecv := C.Clock.Max(c.lastRecv, clock));
    C.RefreshFrame(d.(peerId := peerId, state := C.Connected), clock);
    SetStateIsSteady(d, C.Failed, clock);
    FinalisingTells(C.SetState(d, C.Failed, clock), why);
  }

  lemma UpdateTells(c: C.Conn, now: int, clock: int)
    requires C.Usable(c.config) && !c.closed && C.Update(c, now, clock).closed
    ensures EndsWith(C.Update(c, now, clock), Verdict(c, C.Firing(now)))
  {
    hide C.RefreshTimer, C.SetState, C.SendConnect, C.SendClose, C.SendKeepalive, C.CloseInternal;
    hide C.CalculateDeadline, EndsWith;
    RefreshIsSteady(c, now);
    var again := c.(retries := c.retries + 1);
    SendsAreSteady(again, c.reason, clock);
    RefreshIsSteady(C.SendConnect(again, clock), now);
    RefreshIsSteady(C.SendClose(again, c.reason, clock), now);
    FinalisingTells(C.SendClose(again, c.reason, clock), c.reason);
    FinalisingTells(c, c.reason);
    SetStateIsSteady(c, C.Failed, clock);
    FinalisingTells(C.SetState(c, C.Failed, clock), C.TIMEOUT);
    SetStateIsSteady(c, C.Closing, clock);
    var d := C.SetState(c, C.Closing, clock);
    SendsAreSteady(d, C.IDLE, clock);
    FinalisingTells(C.SendClose(d, C.IDLE, clock), C.IDLE);
    SendsAreSteady(c, C.IDLE, clock);
    RefreshIsSteady(C.SendKeepalive(c, clock), now);
  }

  /** A turned-down connection: the answer sent, its callbacks dropped, finalised. */
  function TurnedDown(c: C.Conn, result: int): C.Conn {
    C.CloseInternal(C.Logged(c, C.SentConnectAck(result)).(hooked := false), C.REJECTED)
  }

  lemma TurningDownEnds(c: C.Conn, result: int)
    requires !c.closed && EndedOnce(c)
    ensures TurnedDown(c, result).closed && EndedOnce(TurnedDown(c, result))
  {
    FinalisingIsSteady(C.Logged(c, C.SentConnectAck(result)).(hooked := false), C.REJECTED);
  }
}

/**
  One connection as a value: its timers, its states and its control messages
  (src/kcpmux_conn.c).  `clock` is the clock reading of an operation, `now` the
  time at which a firing update collected.
 */
module Conn {
  import opened Timer
  import Clock = Stream

  type Reason = int
  const NORMAL: Reason := 0
  const VERSION: Reason := 2
  const REJECTED: Reason := 3
  const IDLE: Reason := 4
  const TIMEOUT: Reason := 5

  const DEFAULT_KEEPALIVE_TIMEOUT: int := 30000

  datatype State = Init | Connecting | Connected | Closing | Closed | Failed

  datatype Config = Config(
    ctrlTimeout: int, connectRetries: int, closeRetries: int,
    keepaliveInterval: int, keepaliveTimeout: int, idleTimeout: int)

  predicate Unsigned(c: Config) {
    0 <= c.ctrlTimeout && 0 <= c.connectRetries && 0 <= c.closeRetries
    && 0 <= c.keepaliveInterval && 0 <= c.keepaliveTimeout && 0 <= c.idleTimeout
  }

  /** Accepted configurations, with the default for a zero receive timeout. */
  datatype Prepared = Unacceptable | Prepared(config: Config)

  function Prepare(c: Config): Prepared {
    if c.ctrlTimeout == 0 then Unacceptable
    else Prepared(if c.keepaliveTimeout == 0 then c.(keepaliveTimeout := DEFAULT_KEEPALIVE_TIMEOUT) else c)
  }

  predicate Usable(c: Config) {
    Unsigned(c) && c.ctrlTimeout > 0 && c.keepaliveTimeout > 0
  }

  datatype Event =
    | SentConnect
    | SentConnectAck(result: int)
    | SentKeepalive(sequence: int)
    | SentClose(reason: Reason)
    | SentCloseAck(reason: Reason)
    | StateChanged(from: State, to: State)
    | CloseNotify(reason: Reason)
    | ReleaseQueued

  datatype Conn = Conn(
    isInitiator: bool, localId: int, peerId: int, config: Config, hooked: bool,
    state: State, reason: Reason, retries: int, closed: bool, registered: bool, alarm: Clock.Alarm,
    lastCtrl: int, lastRecv: int, lastKeepalive: int, lastPayload: int, keepaliveSeq: int,
    log: seq<Event>)

  datatype Deadline = Never | At(time: int)

  function Earlier(on: bool, anchor: int, interval: int, other: int): int {
    if on then Clock.Min(Clock.DeadlineAfter(anchor, interval), other) else other
  }

  function Soonest(c: Conn): int
    requires Usable(c.config)
  {
    match c.state
    case Connecting | Closing => Clock.DeadlineAfter(c.lastCtrl, c.config.ctrlTimeout)
    case Connected =>
      Earlier(c.config.idleTimeout > 0, c.lastPayload, c.config.idleTimeout,
        Earlier(c.config.keepaliveInterval > 0, c.lastKeepalive, c.config.keepaliveInterval,
          Clock.DeadlineAfter(c.lastRecv, c.config.keepaliveTimeout)))
    case _ => Clock.INT64_MAX
  }

  /** When the connection next needs attention. */
  function CalculateDeadline(c: Conn): Deadline
    requires Usable(c.config)
  {
    if c.closed || Soonest(c) == Clock.INT64_MAX then Never else At(Soonest(c))
  }

  function Logged(c: Conn, e: Event): Conn {
    c.(log := c.log + [e])
  }

  function RefreshTimer(c: Conn, now: int): (d: Conn)
    requires Usable(c.config)
    ensures d.config == c.config
  {
    if c.closed then c
    else match CalculateDeadline(c)
      case Never => c.(alarm := c.alarm.(state := Idle))
      case At(d) => if c.registered then c.(alarm := Clock.Alarm(InHeap, Clock.Max(d, now))) else c
  }

  function SetState(c: Conn, to: State, clock: int): (d: Conn)
    requires Usable(c.config)
    ensures d.config == c.config
  {
    if c.closed || c.state == to then c
    else
      var d := RefreshTimer(c.(state := to), clock);
      if to == Closed || to == Failed || !c.hooked then d else Logged(d, StateChanged(c.state, to))
  }

  function SendConnect(c: Conn, clock: int): (d: Conn)
    requires Usable(c.config)
    ensures d.config == c.config
  {
    if c.closed then c else RefreshTimer(Logged(c.(lastCtrl := clock), SentConnect), clock)
  }

  function SendKeepalive(c: Conn, clock: int): (d: Conn)
    requires Usable(c.config)
    ensures d.config == c.config
  {
    if c.closed then c
    else
      RefreshTimer(
        Logged(c.(lastKeepalive := clock, keepaliveSeq := c.keepaliveSeq + 1), SentKeepalive(c.keepaliveSeq + 1)),
        clock)
  }

  /** The local lifecycle runs even when there is no peer to tell. */
  function SendClose(c: Conn, reason: Reason, clock: int): (d: Conn)
    requires Usable(c.config)
    ensures d.config == c.config
  {
    if c.closed then c
    else
      var d := c.(lastCtrl := clock);
      RefreshTimer(if c.peerId == 0 then d else Logged(d, SentClose(reason)), clock)
  }

  /** Finalisation of the connection itself; its streams go before it. */
  function CloseInternal(c: Conn, reason: Reason): (d: Conn)
    ensures d.config == c.config && d.closed
  {
    if c.closed then c
    else
      var d := c.(closed := true, registered := false, alarm := c.alarm.(state := Idle),
                  state := if c.state == Failed then Failed else Closed);
      Logged(if c.hooked then Logged(d, CloseNotify(reason)) else d, ReleaseQueued)
  }

  function Close(c: Conn, clock: int): Conn
    requires Usable(c.config)
  {
    if c.closed || c.state == Closing || c.state == Closed || c.state == Failed then c
    else
      var d := SetState(c.(lastCtrl := clock, reason := NORMAL, retries := 0), Closing, clock);
      var e := SendClose(d, NORMAL, clock);
      if c.config.closeRetries == 0 then CloseInternal(e, NORMAL) else e
  }

  /** The timer callback. */
  function Update(c: Conn, now: int, clock: int): (d: Conn)
    requires Usable(c.config)
    ensures d.config == c.config
  {
    if c.closed then c
    else if CalculateDeadline(c) == Never || CalculateDeadline(c).time > now then RefreshTimer(c, now)
    else match c.state
      case Connecting => UpdateConnecting(c, now, clock)
      case Connected => UpdateConnected(c, now, clock)
      case Closing => UpdateClosing(c, now, clock)
      case _ => RefreshTimer(c, now)
  }

  function UpdateConnecting(c: Conn, now: int, clock: int): (d: Conn)
    requires Usable(c.config)
    ensures d.config == c.config
  {
    if c.retries < c.config.connectRetries
    then RefreshTimer(SendConnect(c.(retries := c.retries + 1), clock), now)
    else CloseInternal(SetState(c, Failed, clock), TIMEOUT)
  }

  function UpdateClosing(c: Conn, now: int, clock: int): (d: Conn)
    requires Usable(c.config)
    ensures d.config == c.config
  {
    if c.retries < c.config.closeRetries
    then
      var d := SendClose(c.(retries := c.retries + 1), c.reason, clock);
      if c.retries + 1 == c.config.closeRetries then CloseInternal(d, c.reason) else RefreshTimer(d, now)
    else CloseInternal(c, c.reason)
  }

  function UpdateConnected(c: Conn, now: int, clock: int): (d: Conn)
    requires Usable(c.config)
    ensures d.config == c.config
  {
    if now >= Clock.DeadlineAfter(c.lastRecv, c.config.keepaliveTimeout)
    then CloseInternal(SetState(c, Failed, clock), TIMEOUT)
    else if c.config.idleTimeout > 0 && now >= Clock.DeadlineAfter(c.lastPayload, c.config.idleTimeout)
    then CloseInternal(SendClose(SetState(c, Closing, clock), IDLE, clock), IDLE)
    else if c.config.keepaliveInterval > 0 && now >= Clock.DeadlineAfter(c.lastKeepalive, c.config.keepaliveInterval)
    then RefreshTimer(SendKeepalive(c, clock), now)
    else RefreshTimer(c, now)
  }

  function NoteReceive(c: Conn, time: int, isPayload: bool): (d: Conn)
    requires Usable(c.config)
    ensures d.config == c.config
  {
    if c.closed then c
    else RefreshTimer(
      c.(lastRecv := Clock.Max(c.lastRecv, time),
         lastPayload := if isPayload then Clock.Max(c.lastPayload, time) else c.lastPayload), time)
  }

  function New(isInitiator: bool, localId: int, peerId: int, config: Config, hooked: bool, clock: int): Conn {
    Conn(isInitiator, localId, peerId, config, hooked, Init, NORMAL, 0, false, true, Clock.Alarm(Idle, 0),
         0, clock, clock, clock, 0, [])
  }

  /** An initiator's connection starts in CONNECTING with its first CONNECT sent. */
  function Connect(localId: int, config: Config, hooked: bool, clock: int): (d: Conn)
    requires Usable(config)
    ensures d.config == config
  {
    SendConnect(
      RefreshTimer(New(true, localId, 0, config, hooked, clock).(lastCtrl := clock, state := Connecting), clock), clock)
  }

  // Deadlines are exact, and progress is made.

  /** Something came of an update: a message was sent or the connection was finalised. */
  predicate Acted(c: Conn, d: Conn) {
    d.closed || |d.log| > |c.log|
  }

  ghost predicate Due(c: Conn, now: int)
    requires Usable(c.config)
  {
    CalculateDeadline(c) != Never && CalculateDeadline(c).time <= now
  }

  lemma RefreshFrame(c: Conn, now: int)
    requires Usable(c.config)
    ensures RefreshTimer(c, now) == c.(alarm := RefreshTimer(c, now).alarm)
    ensures CalculateDeadline(RefreshTimer(c, now)) == CalculateDeadline(c)
  {
  }

  /** An early update of a live connection changes nothing but the timer. */
  lemma EarlyUpdateIsIdle(c: Conn, now: int, clock: int)
    requires Usable(c.config) && !c.closed && !Due(c, now)
    ensures Update(c, now, clock) == c.(alarm := Update(c, now, clock).alarm)
  {
    hide RefreshTimer;
    RefreshFrame(c, now);
  }

  /**
    An update acts exactly when the deadline has been reached.  An initiator
    that is closing before it knows its peer has nothing to send: there, a
    retry counts as action.
   */
  lemma UpdateActsWhenDue(c: Conn, now: int, clock: int)
    requires Usable(c.config) && !c.closed && now <= clock
    ensures var d := Update(c, now, clock);
      Due(c, now) <==> Acted(c, d) || d.retries > c.retries
  {
    hide RefreshTimer;
    if !Due(c, now) {
      EarlyUpdateIsIdle(c, now, clock);
    } else if c.state == Connecting {
      var e := Logged(c.(retries := c.retries + 1, lastCtrl := clock), SentConnect);
      RefreshFrame(e, clock);
      RefreshFrame(RefreshTimer(e, clock), now);
    } else if c.state == Closing {
      var e := c.(retries := c.retries + 1, lastCtrl := clock);
      RefreshFrame(e, clock);
      RefreshFrame(RefreshTimer(e, clock), now);
      RefreshFrame(Logged(e, SentClose(c.reason)), clock);
      RefreshFrame(RefreshTimer(Logged(e, SentClose(c.reason)), clock), now);
    } else if c.state == Connected {
      var e := Logged(c.(lastKeepalive := clock, keepaliveSeq := c.keepaliveSeq + 1), SentKeepalive(c.keepaliveSeq + 1));
      RefreshFrame(e, clock);
      RefreshFrame(RefreshTimer(e, clock), now);
    }
  }

  /** After an update the next deadline lies ahead: a connection never asks for a zero delay twice. */
  lemma UpdateMovesOn(c: Conn, now: int, clock: int)
    requires Usable(c.config) && !c.closed && now <= clock
    ensures var d := Update(c, now, clock); Usable(d.config) && (d.closed || !Due(d, now))
  {
    hide RefreshTimer, CloseInternal, SetState, UpdateConnected;
    if !Due(c, now) {
      EarlyUpdateIsIdle(c, now, clock);
      RefreshFrame(c, now);
    } else if c.state == Connecting {
      var e := Logged(c.(retries := c.retries + 1, lastCtrl := clock), SentConnect);
      RefreshFrame(e, clock);
      RefreshFrame(RefreshTimer(e, clock), now);
    } else if c.state == Closing {
      var e := c.(retries := c.retries + 1, lastCtrl := clock);
      RefreshFrame(e, clock);
      RefreshFrame(RefreshTimer(e, clock), now);
      RefreshFrame(Logged(e, SentClose(c.reason)), clock);
      RefreshFrame(RefreshTimer(Logged(e, SentClose(c.reason)), clock), now);
    } else if c.state == Connected {
      ConnectedMovesOn(c, now, clock);
    }
  }

  lemma ConnectedMovesOn(c: Conn, now: int, clock: int)
    requires Usable(c.config) && !c.closed && c.state == Connected && now <= clock
    ensures var d := UpdateConnected(c, now, clock); d.closed || !Due(d, now)
  {
    hide RefreshTimer, CloseInternal, SetState, SendClose;
    var e := Logged(c.(lastKeepalive := clock, keepaliveSeq := c.keepaliveSeq + 1), SentKeepalive(c.keepaliveSeq + 1));
    RefreshFrame(e, clock);
    RefreshFrame(RefreshTimer(e, clock), now);
    RefreshFrame(c, now);
  }

  // Nothing gets stuck.

  /** A live connection that wants attention has its timer set, not before it wants it. */
  ghost predicate Awake(c: Conn) {
    && Usable(c.config)
    && if c.closed then !c.registered && c.alarm.state == Idle
       else c.registered &&
            match CalculateDeadline(c)
            case Never => c.alarm.state == Idle
            case At(d) => c.alarm.state == InHeap && c.alarm.deadline >= d
  }

  lemma RefreshWakes(c: Conn, now: int)
    requires Usable(c.config) && !c.closed && c.registered
    ensures Awake(RefreshTimer(c, now))
  {
  }

  lemma FinaliseWakes(c: Conn, reason: Reason)
    requires Usable(c.config) && !c.closed
    ensures Awake(CloseInternal(c, reason))
  {
  }

  /** The timer callback as the scheduler runs it. */
  function Fire(c: Conn, now: int, clock: int): Conn
    requires Usable(c.config)
  {
    if c.alarm.state != InHeap || c.alarm.deadline > now then c
    else
      var d := Update(c.(alarm := c.alarm.(state := Running)), now, clock);
      if d.alarm.state == Running then d.(alarm := d.alarm.(state := Idle)) else d
  }

  lemma UpdateWakes(c: Conn, now: int, clock: int)
    requires Usable(c.config) && !c.closed && c.registered
    ensures Awake(Update(c, now, clock))
  {
    hide RefreshTimer, CloseInternal, Awake;
    RefreshWakes(c, now);
    if c.state == Connecting {
      var e := Logged(c.(retries := c.retries + 1, lastCtrl := clock), SentConnect);
      RefreshFrame(e, clock);
      RefreshWakes(RefreshTimer(e, clock), now);
      RefreshFrame(c.(state := Failed), clock);
      FinaliseWakes(RefreshTimer(c.(state := Failed), clock), TIMEOUT);
    } else if c.state == Closing {
      var e := c.(retries := c.retries + 1, lastCtrl := clock);
      var f := if c.peerId == 0 then e else Logged(e, SentClose(c.reason));
      RefreshFrame(f, clock);
      RefreshWakes(RefreshTimer(f, clock), now);
      FinaliseWakes(RefreshTimer(f, clock), c.reason);
      FinaliseWakes(c, c.reason);
    } else if c.state == Connected {
      UpdateConnectedWakes(c, now, clock);
    }
  }

  lemma UpdateConnectedWakes(c: Conn, now: int, clock: int)
    requires Usable(c.config) && !c.closed && c.registered && c.state == Connected
    ensures Awake(UpdateConnected(c, now, clock))
  {
    hide RefreshTimer, CloseInternal, Awake;
    RefreshWakes(c, now);
    RefreshFrame(c.(state := Failed), clock);
    FinaliseWakes(RefreshTimer(c.(state := Failed), clock), TIMEOUT);
    var e := Logged(c.(lastKeepalive := clock, keepaliveSeq := c.keepaliveSeq + 1), SentKeepalive(c.keepaliveSeq + 1));
    RefreshFrame(e, clock);
    RefreshWakes(RefreshTimer(e, clock), now);
    SetStateFrame(c, Closing, clock);
    var d := SetState(c, Closing, clock);
    SendCloseFrame(d, IDLE, clock);
    FinaliseWakes(SendClose(d, IDLE, clock), IDLE);
  }

  lemma SetStateFrame(c: Conn, to: State, clock: int)
    requires Usable(c.config) && !c.closed && c.state != to
    ensures var d := SetState(c, to, clock); d == c.(state := to, alarm := d.alarm, log := d.log)
    ensures c.registered ==> Awake(SetState(c, to, clock))
  {
  }

  lemma SendCloseFrame(c: Conn, reason: Reason, clock: int)
    requires Usable(c.config) && !c.closed
    ensures var d := SendClose(c, reason, clock); d == c.(lastCtrl := clock, alarm := d.alarm, log := d.log)
    ensures c.registered ==> Awake(SendClose(c, reason, clock))
  {
  }

  lemma FireWakes(c: Conn, now: int, clock: int)
    requires Awake(c)
    ensures Awake(Fire(c, now, clock))
  {
    if c.alarm.state == InHeap && c.alarm.deadline <= now {
      UpdateWakes(c.(alarm := c.alarm.(state := Running)), now, clock);
    }
  }

  lemma CloseWakes(c: Conn, clock: int)
    requires Awake(c)
    ensures Awake(Close(c, clock))
  {
    if !c.closed && c.state != Closing && c.state != Closed && c.state != Failed {
      var b := c.(lastCtrl := clock, reason := NORMAL, retries := 0);
      SetStateFrame(b, Closing, clock);
      var d := SetState(b, Closing, clock);
      SendCloseFrame(d, NORMAL, clock);
      FinaliseWakes(SendClose(d, NORMAL, clock), NORMAL);
    }
  }

  lemma ReceiveWakes(c: Conn, time: int, isPayload: bool)
    requires Awake(c)
    ensures Awake(NoteReceive(c, time, isPayload))
  {
  }

  // Whatever happens to a connection.

  datatype Op =
    | CloseCall
    | SetConfigCall(config: Config)
    | Heard(isPayload: bool)
    | Answered(peerId: int, ok: bool, why: Reason)
    | Reasked(result: int)
    | PeerClose(why: Reason)
    | PeerCloseAck
    | Firing(now: int)

  function Apply(c: Conn, op: Op, clock: int): Conn
    requires Usable(c.config)
  {
    match op
    case CloseCall => Close(c, clock)
    case SetConfigCall(config) => SetConfig(c, config, clock)
    case Heard(isPayload) => NoteReceive(c, clock, isPayload)
    case Answered(peerId, ok, why) => HandleConnectAck(c, peerId, ok, why, clock)
    case Reasked(result) =>
      if c.closed then c else Logged(if result == 0 then NoteReceive(c, clock, false) else c, SentConnectAck(result))
    case PeerClose(why) =>
      if c.closed then c else CloseInternal(Logged(NoteReceive(c, clock, false), SentCloseAck(why)), why)
    case PeerCloseAck =>
      if c.closed || c.state != Closing then c else CloseInternal(NoteReceive(c, clock, false), c.reason)
    case Firing(now) => Fire(c, now, clock)
  }

  function SetConfig(c: Conn, config: Config, clock: int): Conn
    requires Usable(c.config)
  {
    if c.closed || !Unsigned(config) || Prepare(config) == Unacceptable then c
    else RefreshTimer(c.(config := Prepare(config).config), clock)
  }

  /** Only an initiator still waiting takes an answer. */
  function HandleConnectAck(c: Conn, peerId: int, ok: bool, why: Reason, clock: int): Conn
    requires Usable(c.config)
  {
    if c.closed || c.state != Connecting then c
    else
      var d := c.(lastRecv := Clock.Max(c.lastRecv, clock));
      if ok then SetState(d.(peerId := peerId), Connected, clock)
      else CloseInternal(SetState(d, Failed, clock), why)
  }

  /** What an operation may make of a connection. */
  ghost predicate Evolves(c: Conn, d: Conn) {
    && d.localId == c.localId && d.isInitiator == c.isInitiator && Awake(d)
    && (!d.closed ==>
          && (c.state == Connected || c.state == Closing ==> d.state == Connected || d.state == Closing)
          && (d.state == Connected ==> c.state != Closing))
  }

  lemma UpdateFrame(c: Conn, now: int, clock: int)
    requires Usable(c.config) && !c.closed
    ensures var d := Update(c, now, clock);
      d.localId == c.localId && d.isInitiator == c.isInitiator && (d.closed || d.state == c.state)
  {
    hide RefreshTimer;
    RefreshFrame(c, now);
    if c.state == Connecting {
      var e := Logged(c.(retries := c.retries + 1, lastCtrl := clock), SentConnect);
      RefreshFrame(e, clock);
      RefreshFrame(RefreshTimer(e, clock), now);
      RefreshFrame(c.(state := Failed), clock);
    } else if c.state == Closing {
      var e := c.(retries := c.retries + 1, lastCtrl := clock);
      var f := if c.peerId == 0 then e else Logged(e, SentClose(c.reason));
      RefreshFrame(f, clock);
      RefreshFrame(RefreshTimer(f, clock), now);
    } else if c.state == Connected {
      UpdateConnectedFrame(c, now, clock);
    }
  }

  lemma UpdateConnectedFrame(c: Conn, now: int, clock: int)
    requires Usable(c.config) && !c.closed && c.state == Connected
    ensures var d := UpdateConnected(c, now, clock);
      d.localId == c.localId && d.isInitiator == c.isInitiator && (d.closed || d.state == c.state)
  {
    hide RefreshTimer, SetState, SendClose;
    RefreshFrame(c, now);
    var e := Logged(c.(lastKeepalive := clock, keepaliveSeq := c.keepaliveSeq + 1), SentKeepalive(c.keepaliveSeq + 1));
    RefreshFrame(e, clock);
    RefreshFrame(RefreshTimer(e, clock), now);
    SetStateFrame(c, Failed, clock);
    SetStateFrame(c, Closing, clock);
    SendCloseFrame(SetState(c, Closing, clock), IDLE, clock);
  }

  lemma FireEvolves(c: Conn, now: int, clock: int)
    requires Awake(c) && !c.closed
    ensures Evolves(c, Fire(c, now, clock))
  {
    hide Update, Awake;
    FireWakes(c, now, clock);
    assert Usable(c.config) by { AwakeIsUsable(c); }
    UpdateFrame(c.(alarm := c.alarm.(state := Running)), now, clock);
  }

  lemma AwakeIsUsable(c: Conn)
    requires Awake(c)
    ensures Usable(c.config) && (!c.closed ==> c.registered)
  {
  }

  lemma CloseEvolves(c: Conn, clock: int)
    requires Awake(c) && !c.closed
    ensures Evolves(c, Close(c, clock))
  {
    hide Awake, SetState, SendClose;
    AwakeIsUsable(c);
    CloseWakes(c, clock);
    if c.state != Closing && c.state != Closed && c.state != Failed {
      var b := c.(lastCtrl := clock, reason := NORMAL, retries := 0);
      SetStateFrame(b, Closing, clock);
      SendCloseFrame(SetState(b, Closing, clock), NORMAL, clock);
    }
  }

  lemma AnswerEvolves(c: Conn, peerId: int, ok: bool, why: Reason, clock: int)
    requires Awake(c) && !c.closed
    ensures Evolves(c, HandleConnectAck(c, peerId, ok, why, clock))
  {
    hide Awake, SetState;
    AwakeIsUsable(c);
    if c.state == Connecting {
      var d := c.(lastRecv := Clock.Max(c.lastRecv, clock));
      SetStateFrame(d.(peerId := peerId), Connected, clock);
      SetStateFrame(d, Failed, clock);
      FinaliseWakes(SetState(d, Failed, clock), why);
    }
  }

  lemma LoggingWakes(c: Conn, e: Event)
    requires Awake(c)
    ensures Awake(Logged(c, e))
  {
  }

  lemma ApplyEvolves(c: Conn, op: Op, clock: int)
    requires Awake(c) && !c.closed
    ensures Evolves(c, Apply(c, op, clock))
  {
    hide Awake, Fire, Close, HandleConnectAck;
    AwakeIsUsable(c);
    match op {
      case CloseCall => CloseEvolves(c, clock);
      case SetConfigCall(config) =>
        if Unsigned(config) && Prepare(config) != Unacceptable {
          RefreshWakes(c.(config := Prepare(config).config), clock);
        }
      case Heard(isPayload) => ReceiveWakes(c, clock, isPayload);
      case Reasked(result) =>
        ReceiveWakes(c, clock, false);
        LoggingWakes(c, SentConnectAck(result));
        LoggingWakes(NoteReceive(c, clock, false), SentConnectAck(result));
      case Answered(peerId, ok, why) => AnswerEvolves(c, peerId, ok, why, clock);
      case PeerClose(why) => FinaliseWakes(Logged(NoteReceive(c, clock, false), SentCloseAck(why)), why);
      case PeerCloseAck => FinaliseWakes(NoteReceive(c, clock, false), c.reason);
      case Firing(now) => FireEvolves(c, now, clock);
    }
  }

  /** Both ways a connection comes to be leave it awake. */
  lemma BirthWakes(localId: int, peerId: int, config: Config, hooked: bool, clock: int)
    requires Usable(config)
    ensures var c := Connect(localId, config, hooked, clock);
      Awake(c) && !c.closed && c.localId == localId && c.state == Connecting
    ensures var c := Met(localId, peerId, config, hooked, clock);
      Awake(c) && !c.closed && c.localId == localId && c.peerId == peerId && c.state == Init && c.config == config
  {
    hide RefreshTimer, Awake;
    var c := New(true, localId, 0, config, hooked, clock).(lastCtrl := clock, state := Connecting);
    RefreshFrame(c, clock);
    var d := Logged(RefreshTimer(c, clock), SentConnect);
    RefreshFrame(d, clock);
    RefreshWakes(d, clock);
    var e := New(false, localId, peerId, config, hooked, clock);
    RefreshFrame(e, clock);
    RefreshWakes(e, clock);
  }

  /** An acceptor's connection as its first CONNECT leaves it, before the application is asked. */
  function Met(localId: int, peerId: int, config: Config, hooked: bool, clock: int): (d: Conn)
    requires Usable(config)
    ensures d.config == config
  {
    NoteReceive(New(false, localId, peerId, config, hooked, clock), clock, false)
  }

  /** The acceptor's connection once its application agreed, the answer sent. */
  function Admitted(c: Conn, clock: int): Conn
    requires Usable(c.config)
  {
    Logged(SetState(c, Connected, clock), SentConnectAck(0))
  }

  lemma AdmissionEvolves(c: Conn, clock: int)
    requires Awake(c) && !c.closed && c.state == Init
    ensures var d := Admitted(c, clock);
      Evolves(c, d) && !d.closed && d.state == Connected && d.peerId == c.peerId
  {
    hide SetState;
    SetStateFrame(c, Connected, clock);
  }

  // An unanswered CONNECT.

  function Connects(log: seq<Event>): int {
    if log == [] then 0 else Connects(log[..|log| - 1]) + if log[|log| - 1] == SentConnect then 1 else 0
  }

  lemma OneMore(log: seq<Event>, e: Event)
    ensures Connects(log + [e]) == Connects(log) + if e == SentConnect then 1 else 0
  {
    assert (log + [e])[..|log|] == log;
  }

  /** Updates at any times, early ones included. */
  function Updates(c: Conn, times: seq<(int, int)>): Conn
    requires Usable(c.config)
    decreases |times|
  {
    if times == [] then c else Updates(Update(c, times[0].0, times[0].1), times[1..])
  }

  /** Still trying, with one CONNECT sent per attempt, or given up after the last. */
  ghost predicate Trying(c: Conn, config: Config) {
    && c.config == config && Usable(config)
    && if c.closed
       then c.state == Failed && Connects(c.log) == 1 + config.connectRetries
            && (c.hooked ==> CloseNotify(TIMEOUT) in c.log)
       else c.state == Connecting && 0 <= c.retries <= config.connectRetries && Connects(c.log) == 1 + c.retries
  }

  lemma UpdateTries(c: Conn, config: Config, now: int, clock: int)
    requires Trying(c, config)
    ensures Trying(Update(c, now, clock), config)
  {
    hide Connects, RefreshTimer;
    if !c.closed {
      RefreshFrame(c, now);
      var e := Logged(c.(retries := c.retries + 1, lastCtrl := clock), SentConnect);
      OneMore(c.log, SentConnect);
      RefreshFrame(e, clock);
      RefreshFrame(RefreshTimer(e, clock), now);
      RefreshFrame(c.(state := Failed), clock);
      OneMore(c.log, CloseNotify(TIMEOUT));
      OneMore(c.log, ReleaseQueued);
      OneMore(c.log + [CloseNotify(TIMEOUT)], ReleaseQueued);
    }
  }

  lemma {:induction false} UpdatesTry(c: Conn, config: Config, times: seq<(int, int)>)
    requires Trying(c, config)
    ensures Trying(Updates(c, times), config)
    decreases |times|
  {
    hide Update, Connects;
    if times != [] {
      UpdateTries(c, config, times[0].0, times[0].1);
      UpdatesTry(Update(c, times[0].0, times[0].1), config, times[1..]);
    }
  }

  lemma ConnectTries(localId: int, config: Config, hooked: bool, clock: int)
    requires Usable(config)
    ensures Trying(Connect(localId, config, hooked, clock), config)
  {
    hide RefreshTimer, Connects;
    var c := New(true, localId, 0, config, hooked, clock).(lastCtrl := clock, state := Connecting);
    RefreshFrame(c, clock);
    var d := RefreshTimer(c, clock);
    RefreshFrame(Logged(d, SentConnect), clock);
    OneMore([], SentConnect);
    NoneYet();
    assert d.log + [SentConnect] == [] + [SentConnect];
  }

  lemma NoneYet()
    ensures Connects([]) == 0
  {
  }

  /** An unanswered connection is finalised with TIMEOUT after exactly 1 + connect_retries CONNECTs, and not before. */
  lemma UnansweredConnect(localId: int, config: Config, hooked: bool, clock: int, times: seq<(int, int)>)
    requires Usable(config)
    ensures Trying(Updates(Connect(localId, config, hooked, clock), times), config)
  {
    hide Connect, Updates, Trying;
    ConnectTries(localId, config, hooked, clock);
    UpdatesTry(Connect(localId, config, hooked, clock), config, times);
  }
}

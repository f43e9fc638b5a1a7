/**
  A connection as a chart (src/kcpmux_conn.c, src/kcpmux_protocol.c): for every
  event and state, what is said, what comes next and what is noted when.
 */
module ConnChart {
  import opened Timer
  import opened Conn
  import opened ConnSteps

  /** What a connection keeps in mind while it lives. */
  datatype Mind = Mind(
    state: State, peerId: int, reason: Reason, retries: int, lastCtrl: int, lastRecv: int, lastPayload: int,
    lastKeepalive: int, keepalives: int)

  /** Live, or over in a terminal state. */
  datatype Posture = Live(mind: Mind) | Over(state: State)

  function Noted(c: Conn): Mind {
    Mind(c.state, c.peerId, c.reason, c.retries, c.lastCtrl, c.lastRecv, c.lastPayload, c.lastKeepalive, c.keepaliveSeq)
  }

  function PostureOf(c: Conn): Posture {
    if c.closed then Over(c.state) else Live(Noted(c))
  }

  datatype Turn = Turn(to: Posture, says: seq<Event>)

  function Told(c: Conn, e: Event): seq<Event> {
    if c.hooked then [e] else []
  }

  /** Something can only be sent to a peer that is known. */
  function ToPeer(c: Conn, e: Event): seq<Event> {
    if c.peerId == 0 then [] else [e]
  }

  function EndsBy(c: Conn, said: seq<Event>, reason: Reason, failed: bool): Turn {
    Turn(Over(if failed then Failed else Closed), said + Farewell(c.hooked, reason))
  }

  function Stays(c: Conn): Turn {
    Turn(PostureOf(c), [])
  }

  /** An interval has passed; times beyond the clock's range stand at its end. */
  predicate Passed(since: int, interval: int, now: int) {
    since + interval <= now || Clock.INT64_MAX <= now
  }

  /** An interval has passed that ends within the clock's range. */
  predicate Reached(since: int, interval: int, now: int) {
    since + interval <= now && since + interval < Clock.INT64_MAX
  }

  function OnCloseCall(c: Conn, clock: int): Turn {
    if c.state == Closing || c.state == Closed || c.state == Failed then Stays(c)
    else
      var says := Told(c, StateChanged(c.state, Closing)) + ToPeer(c, SentClose(NORMAL));
      if c.config.closeRetries == 0 then EndsBy(c, says, NORMAL, false)
      else Turn(Live(Noted(c).(state := Closing, reason := NORMAL, retries := 0, lastCtrl := clock)), says)
  }

  function Hearing(c: Conn, isPayload: bool, clock: int): Mind {
    var p := Noted(c).(lastRecv := Clock.Max(c.lastRecv, clock));
    if isPayload then p.(lastPayload := Clock.Max(c.lastPayload, clock)) else p
  }

  function OnAnswer(c: Conn, peerId: int, ok: bool, why: Reason, clock: int): Turn {
    if c.state != Connecting then Stays(c)
    else if ok then
      Turn(Live(Hearing(c, false, clock).(state := Connected, peerId := peerId)), Told(c, StateChanged(Connecting, Connected)))
    else EndsBy(c, [], why, true)
  }

  function OnFireConnecting(c: Conn, now: int, clock: int): Turn {
    if c.retries < c.config.connectRetries
    then Turn(Live(Noted(c).(retries := c.retries + 1, lastCtrl := clock)), [SentConnect])
    else EndsBy(c, [], TIMEOUT, true)
  }

  function OnFireClosing(c: Conn, now: int, clock: int): Turn {
    if c.retries + 1 < c.config.closeRetries
    then Turn(Live(Noted(c).(retries := c.retries + 1, lastCtrl := clock)), ToPeer(c, SentClose(c.reason)))
    else EndsBy(c, if c.retries < c.config.closeRetries then ToPeer(c, SentClose(c.reason)) else [], c.reason, false)
  }

  function OnFireConnected(c: Conn, now: int, clock: int): Turn {
    if Passed(c.lastRecv, c.config.keepaliveTimeout, now) then EndsBy(c, [], TIMEOUT, true)
    else if c.config.idleTimeout > 0 && Passed(c.lastPayload, c.config.idleTimeout, now)
    then EndsBy(c, Told(c, StateChanged(Connected, Closing)) + ToPeer(c, SentClose(IDLE)), IDLE, false)
    else if c.config.keepaliveInterval > 0 && Passed(c.lastKeepalive, c.config.keepaliveInterval, now)
    then
      Turn(Live(Noted(c).(lastKeepalive := clock, keepalives := c.keepaliveSeq + 1)), [SentKeepalive(c.keepaliveSeq + 1)])
    else Stays(c)
  }

  /** Some timeout that is enabled in this state has been reached. */
  predicate SomeReached(c: Conn, now: int) {
    match c.state
    case Connecting | Closing => Reached(c.lastCtrl, c.config.ctrlTimeout, now)
    case Connected =>
      || Reached(c.lastRecv, c.config.keepaliveTimeout, now)
      || (c.config.idleTimeout > 0 && Reached(c.lastPayload, c.config.idleTimeout, now))
      || (c.config.keepaliveInterval > 0 && Reached(c.lastKeepalive, c.config.keepaliveInterval, now))
    case _ => false
  }

  function OnFire(c: Conn, now: int, clock: int): Turn {
    if !SomeReached(c, now) then Stays(c)
    else if c.state == Connecting then OnFireConnecting(c, now, clock)
    else if c.state == Closing then OnFireClosing(c, now, clock)
    else OnFireConnected(c, now, clock)
  }

  /** The chart, for a connection that is live. */
  function Charted(c: Conn, op: Op, clock: int): Turn {
    match op
    case CloseCall => OnCloseCall(c, clock)
    case SetConfigCall(_) => Stays(c)
    case Heard(isPayload) => Turn(Live(Hearing(c, isPayload, clock)), [])
    case Answered(peerId, ok, why) => OnAnswer(c, peerId, ok, why, clock)
    case Reasked(result) =>
      Turn(Live(if result == 0 then Hearing(c, false, clock) else Noted(c)), [SentConnectAck(result)])
    case PeerClose(why) => EndsBy(c, [SentCloseAck(why)], why, c.state == Failed)
    case PeerCloseAck => if c.state == Closing then EndsBy(c, [], c.reason, false) else Stays(c)
    case Firing(now) => if c.alarm.state == InHeap && c.alarm.deadline <= now then OnFire(c, now, clock) else Stays(c)
  }

  ghost predicate Takes(c: Conn, d: Conn, turn: Turn) {
    d.log == c.log + turn.says && PostureOf(d) == turn.to && d.hooked == c.hooked
  }

  lemma RefreshTakes(c: Conn, now: int)
    requires Usable(c.config)
    ensures Takes(c, RefreshTimer(c, now), Stays(c))
  {
    RefreshFrame(c, now);
  }

  lemma FinaliseTakes(c: Conn, reason: Reason)
    requires !c.closed
    ensures Takes(c, CloseInternal(c, reason), EndsBy(c, [], reason, c.state == Failed))
  {
    assert CloseInternal(c, reason).log == c.log + Farewell(c.hooked, reason);
  }

  /** Finalising after something has been said. */
  lemma SaysThenEnds(c: Conn, d: Conn, said: seq<Event>, reason: Reason)
    requires !d.closed && d.log == c.log + said && d.hooked == c.hooked
    ensures Takes(c, CloseInternal(d, reason), EndsBy(c, said, reason, d.state == Failed))
  {
    FinaliseTakes(d, reason);
    assert c.log + said + Farewell(c.hooked, reason) == c.log + (said + Farewell(c.hooked, reason));
  }

  lemma SetStateTakes(c: Conn, to: State, clock: int)
    requires Usable(c.config) && !c.closed && c.state != to
    ensures var d := SetState(c, to, clock);
      d == c.(state := to, alarm := d.alarm,
              log := c.log + if to == Closed || to == Failed then [] else Told(c, StateChanged(c.state, to)))
  {
    hide RefreshTimer;
    RefreshFrame(c.(state := to), clock);
  }

  lemma SendCloseTakes(c: Conn, reason: Reason, clock: int)
    requires Usable(c.config) && !c.closed
    ensures var d := SendClose(c, reason, clock);
      d == c.(lastCtrl := clock, alarm := d.alarm, log := c.log + ToPeer(c, SentClose(reason)))
  {
    hide RefreshTimer;
    RefreshFrame(c.(lastCtrl := clock), clock);
    RefreshFrame(Logged(c.(lastCtrl := clock), SentClose(reason)), clock);
  }

  lemma CloseTakes(c: Conn, clock: int)
    requires Usable(c.config) && !c.closed
    ensures Takes(c, Close(c, clock), OnCloseCall(c, clock))
  {
    hide SetState, SendClose, CloseInternal;
    if !(c.state == Closing || c.state == Closed || c.state == Failed) {
      var b := c.(lastCtrl := clock, reason := NORMAL, retries := 0);
      SetStateTakes(b, Closing, clock);
      var d := SetState(b, Closing, clock);
      SendCloseTakes(d, NORMAL, clock);
      var e := SendClose(d, NORMAL, clock);
      assert e.log == c.log + (Told(c, StateChanged(c.state, Closing)) + ToPeer(c, SentClose(NORMAL)));
      SaysThenEnds(c, e, Told(c, StateChanged(c.state, Closing)) + ToPeer(c, SentClose(NORMAL)), NORMAL);
    }
  }

  lemma HearingTakes(c: Conn, isPayload: bool, clock: int)
    requires Usable(c.config) && !c.closed
    ensures Takes(c, NoteReceive(c, clock, isPayload), Turn(Live(Hearing(c, isPayload, clock)), []))
    ensures NoteReceive(c, clock, isPayload).state == c.state && !NoteReceive(c, clock, isPayload).closed
  {
    hide RefreshTimer;
    RefreshFrame(
      c.(lastRecv := Clock.Max(c.lastRecv, clock),
         lastPayload := if isPayload then Clock.Max(c.lastPayload, clock) else c.lastPayload), clock);
  }

  lemma AnswerTakes(c: Conn, peerId: int, ok: bool, why: Reason, clock: int)
    requires Usable(c.config) && !c.closed
    ensures Takes(c, HandleConnectAck(c, peerId, ok, why, clock), OnAnswer(c, peerId, ok, why, clock))
  {
    hide SetState, CloseInternal;
    if c.state == Connecting {
      var d := c.(lastRecv := Clock.Max(c.lastRecv, clock));
      SetStateTakes(d.(peerId := peerId), Connected, clock);
      SetStateTakes(d, Failed, clock);
      SaysThenEnds(c, SetState(d, Failed, clock), [], why);
    }
  }

  lemma ConnectingTakes(c: Conn, now: int, clock: int)
    requires Usable(c.config) && !c.closed && c.state == Connecting
    ensures Takes(c, UpdateConnecting(c, now, clock), OnFireConnecting(c, now, clock))
  {
    hide RefreshTimer, SetState, CloseInternal;
    var e := Logged(c.(retries := c.retries + 1, lastCtrl := clock), SentConnect);
    RefreshFrame(e, clock);
    RefreshFrame(RefreshTimer(e, clock), now);
    SetStateTakes(c, Failed, clock);
    SaysThenEnds(c, SetState(c, Failed, clock), [], TIMEOUT);
  }

  lemma ClosingTakes(c: Conn, now: int, clock: int)
    requires Usable(c.config) && !c.closed && c.state == Closing
    ensures Takes(c, UpdateClosing(c, now, clock), OnFireClosing(c, now, clock))
  {
    hide RefreshTimer, SendClose, CloseInternal;
    var r := c.(retries := c.retries + 1);
    SendCloseTakes(r, c.reason, clock);
    var d := SendClose(r, c.reason, clock);
    SaysThenEnds(c, d, ToPeer(c, SentClose(c.reason)), c.reason);
    SaysThenEnds(c, c, [], c.reason);
    RefreshFrame(d, now);
  }

  lemma KeepaliveTakes(c: Conn, now: int, clock: int)
    requires Usable(c.config) && !c.closed
    ensures Takes(c, RefreshTimer(SendKeepalive(c, clock), now),
      Turn(Live(Noted(c).(lastKeepalive := clock, keepalives := c.keepaliveSeq + 1)), [SentKeepalive(c.keepaliveSeq + 1)]))
  {
    hide RefreshTimer;
    var e := Logged(c.(lastKeepalive := clock, keepaliveSeq := c.keepaliveSeq + 1), SentKeepalive(c.keepaliveSeq + 1));
    RefreshFrame(e, clock);
    RefreshFrame(RefreshTimer(e, clock), now);
  }

  lemma ConnectedTakes(c: Conn, now: int, clock: int)
    requires Usable(c.config) && !c.closed && c.state == Connected
    ensures Takes(c, UpdateConnected(c, now, clock), OnFireConnected(c, now, clock))
  {
    hide RefreshTimer, SendClose, SendKeepalive, SetState, CloseInternal, Takes;
    SetStateTakes(c, Failed, clock);
    SaysThenEnds(c, SetState(c, Failed, clock), [], TIMEOUT);
    SetStateTakes(c, Closing, clock);
    var d := SetState(c, Closing, clock);
    SendCloseTakes(d, IDLE, clock);
    var e := SendClose(d, IDLE, clock);
    var says := Told(c, StateChanged(Connected, Closing)) + ToPeer(c, SentClose(IDLE));
    assert e.log == c.log + says;
    SaysThenEnds(c, e, says, IDLE);
    KeepaliveTakes(c, now, clock);
    RefreshTakes(c, now);
  }

  lemma DueIsReached(c: Conn, now: int)
    requires Usable(c.config) && !c.closed
    ensures CalculateDeadline(c) != Never && CalculateDeadline(c).time <= now <==> SomeReached(c, now)
  {
  }

  lemma UpdateTakes(c: Conn, now: int, clock: int)
    requires Usable(c.config) && !c.closed
    ensures Takes(c, Update(c, now, clock), OnFire(c, now, clock))
  {
    hide RefreshTimer, UpdateConnecting, UpdateClosing, UpdateConnected, Takes, SomeReached;
    hide OnFireConnecting, OnFireClosing, OnFireConnected, CalculateDeadline;
    DueIsReached(c, now);
    RefreshTakes(c, now);
    ReachedIn(c, now);
    if c.state == Connecting {
      ConnectingTakes(c, now, clock);
    } else if c.state == Closing {
      ClosingTakes(c, now, clock);
    } else if c.state == Connected {
      ConnectedTakes(c, now, clock);
    }
  }

  lemma ReachedIn(c: Conn, now: int)
    ensures SomeReached(c, now) ==> c.state == Connecting || c.state == Closing || c.state == Connected
  {
  }

  lemma AlarmIsNotCharted(c: Conn, alarm: Clock.Alarm, now: int, clock: int)
    ensures OnFire(c.(alarm := alarm), now, clock) == OnFire(c, now, clock)
  {
  }

  lemma FireTakes(c: Conn, now: int, clock: int)
    requires Usable(c.config) && !c.closed && c.alarm.state == InHeap && c.alarm.deadline <= now
    ensures Takes(c, Fire(c, now, clock), OnFire(c, now, clock))
  {
    hide Update, OnFire;
    var d := c.(alarm := c.alarm.(state := Running));
    UpdateTakes(d, now, clock);
    AlarmIsNotCharted(c, d.alarm, now, clock);
  }

  /** Every operation follows the chart. */
  lemma StepFollowsChart(c: Conn, op: Op, clock: int)
    requires Usable(c.config) && !c.closed
    ensures Takes(c, Apply(c, op, clock), Charted(c, op, clock))
  {
    hide Close, RefreshTimer, NoteReceive, HandleConnectAck, CloseInternal, Fire, OnCloseCall, OnAnswer, OnFire;
    match op {
      case CloseCall => CloseTakes(c, clock);
      case SetConfigCall(config) =>
        if Unsigned(config) && Prepare(config) != Unacceptable {
          RefreshTakes(c.(config := Prepare(config).config), clock);
        }
      case Heard(isPayload) => HearingTakes(c, isPayload, clock);
      case Answered(peerId, ok, why) => AnswerTakes(c, peerId, ok, why, clock);
      case Reasked(result) => HearingTakes(c, false, clock);
      case PeerClose(why) =>
        HearingTakes(c, false, clock);
        SaysThenEnds(c, Logged(NoteReceive(c, clock, false), SentCloseAck(why)), [SentCloseAck(why)], why);
      case PeerCloseAck =>
        HearingTakes(c, false, clock);
        SaysThenEnds(c, NoteReceive(c, clock, false), [], c.reason);
      case Firing(now) =>
        if c.alarm.state == InHeap && c.alarm.deadline <= now {
          FireTakes(c, now, clock);
        } else {
          NotFired(c, now, clock);
        }
    }
  }

  lemma NotFired(c: Conn, now: int, clock: int)
    requires Usable(c.config) && !(c.alarm.state == InHeap && c.alarm.deadline <= now)
    ensures Fire(c, now, clock) == c
  {
  }

  /** How connections begin: an initiator's, a peer's that was agreed to, and a peer's that was turned down. */
  lemma BirthIsCharted(localId: int, peerId: int, config: Config, hooked: bool, result: int, clock: int)
    requires Usable(config)
    ensures var c := Connect(localId, config, hooked, clock);
      && PostureOf(c) == Live(Mind(Connecting, 0, NORMAL, 0, clock, clock, clock, clock, 0))
      && c.log == [SentConnect] && c.isInitiator && c.localId == localId
    ensures var c := Admitted(Met(localId, peerId, config, hooked, clock), clock);
      && PostureOf(c) == Live(Mind(Connected, peerId, NORMAL, 0, 0, clock, clock, clock, 0))
      && c.log == (if hooked then [StateChanged(Init, Connected)] else []) + [SentConnectAck(0)]
      && !c.isInitiator && c.localId == localId
    ensures var c := TurnedDown(Met(localId, peerId, config, hooked, clock), result);
      PostureOf(c) == Over(Closed) && c.log == [SentConnectAck(result), ReleaseQueued] && !c.hooked
  {
    hide RefreshTimer;
    var c := New(true, localId, 0, config, hooked, clock).(lastCtrl := clock, state := Connecting);
    RefreshFrame(c, clock);
    RefreshFrame(Logged(RefreshTimer(c, clock).(lastCtrl := clock), SentConnect), clock);
    var d := New(false, localId, peerId, config, hooked, clock);
    RefreshFrame(d.(lastRecv := clock), clock);
    RefreshFrame(Met(localId, peerId, config, hooked, clock).(state := Connected), clock);
  }
}

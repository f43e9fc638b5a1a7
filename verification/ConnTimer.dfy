/**
  The timer of a connection (src/kcpmux_conn.c): over every run it is due exactly
  when some timeout of the connection has been reached, neither early nor late.
 */
module ConnTimer {
  import opened Timer
  import opened Conn
  import opened ConnChart
  import opened ConnMarks

  /** From `clock` on, the timer is due exactly when some timeout of the connection has been reached. */
  ghost predicate Punctual(c: Conn, clock: int) {
    !c.closed ==> forall t | clock <= t :: (c.alarm.state == InHeap && c.alarm.deadline <= t <==> SomeReached(c, t))
  }

  lemma RefreshIsPunctual(c: Conn, now: int, clock: int)
    requires Usable(c.config) && !c.closed && c.registered && now <= clock
    ensures Punctual(RefreshTimer(c, now), clock)
  {
    hide SomeReached, CalculateDeadline;
    var d := RefreshTimer(c, now);
    RefreshFrame(c, now);
    forall t | clock <= t ensures d.alarm.state == InHeap && d.alarm.deadline <= t <==> SomeReached(d, t) {
      DueIsReached(c, t);
      AlarmDoesNotMatter(c, d.alarm, t);
    }
  }

  lemma AlarmDoesNotMatter(c: Conn, alarm: Clock.Alarm, t: int)
    ensures SomeReached(c.(alarm := alarm), t) == SomeReached(c, t)
  {
  }

  /** Whatever is said about a connection does not matter to its timer. */
  lemma SayingIsPunctual(c: Conn, d: Conn, clock: int)
    requires Punctual(c, clock) && d == c.(log := d.log)
    ensures Punctual(d, clock)
  {
    forall t | clock <= t && !c.closed ensures d.alarm.state == InHeap && d.alarm.deadline <= t <==> SomeReached(d, t) {
      assert SomeReached(c, t) == SomeReached(d, t);
    }
  }

  lemma SetStateIsPunctual(c: Conn, to: State, clock: int)
    requires Usable(c.config) && !c.closed && c.registered && c.state != to
    ensures Punctual(SetState(c, to, clock), clock)
  {
    hide RefreshTimer, Punctual;
    RefreshIsPunctual(c.(state := to), clock, clock);
    RefreshFrame(c.(state := to), clock);
    SayingIsPunctual(RefreshTimer(c.(state := to), clock), SetState(c, to, clock), clock);
  }

  lemma SendsArePunctual(c: Conn, reason: Reason, clock: int)
    requires Usable(c.config) && !c.closed && c.registered
    ensures Punctual(SendClose(c, reason, clock), clock)
    ensures Punctual(SendConnect(c, clock), clock) && SendConnect(c, clock).registered && !SendConnect(c, clock).closed
    ensures Punctual(SendKeepalive(c, clock), clock)
    ensures SendKeepalive(c, clock).registered && !SendKeepalive(c, clock).closed
    ensures SendClose(c, reason, clock).registered && !SendClose(c, reason, clock).closed
  {
    hide RefreshTimer, Punctual;
    var b := c.(lastCtrl := clock);
    var k := Logged(c.(lastKeepalive := clock, keepaliveSeq := c.keepaliveSeq + 1), SentKeepalive(c.keepaliveSeq + 1));
    RefreshIsPunctual(b, clock, clock);
    RefreshIsPunctual(Logged(b, SentClose(reason)), clock, clock);
    RefreshIsPunctual(Logged(b, SentConnect), clock, clock);
    RefreshIsPunctual(k, clock, clock);
    RefreshFrame(b, clock);
    RefreshFrame(Logged(b, SentClose(reason)), clock);
    RefreshFrame(Logged(b, SentConnect), clock);
    RefreshFrame(k, clock);
  }

  lemma UpdateIsPunctual(c: Conn, now: int, clock: int)
    requires Usable(c.config) && !c.closed && c.registered && now <= clock
    ensures Punctual(Update(c, now, clock), clock) && Update(c, now, clock).alarm.state != Running
  {
    hide RefreshTimer, Punctual, CloseInternal, SetState, SendConnect, SendClose, SendKeepalive, CalculateDeadline;
    var again := c.(retries := c.retries + 1);
    SendsArePunctual(again, c.reason, clock);
    SendsArePunctual(c, c.reason, clock);
    RefreshIsPunctual(c, now, clock);
    RefreshIsPunctual(SendConnect(again, clock), now, clock);
    RefreshIsPunctual(SendClose(again, c.reason, clock), now, clock);
    RefreshIsPunctual(SendKeepalive(c, clock), now, clock);
    RefreshedIsNotRunning(c, now);
    RefreshedIsNotRunning(SendConnect(again, clock), now);
    RefreshedIsNotRunning(SendClose(again, c.reason, clock), now);
    RefreshedIsNotRunning(SendKeepalive(c, clock), now);
    FinalisedIsPunctual(SendClose(again, c.reason, clock), c.reason, clock);
    FinalisedIsPunctual(c, c.reason, clock);
    FinalisedIsPunctual(SetState(c, Failed, clock), TIMEOUT, clock);
    if c.state == Connected {
      SetStateTakes(c, Failed, clock);
      SetStateTakes(c, Closing, clock);
      SendCloseTakes(SetState(c, Closing, clock), IDLE, clock);
      FinalisedIsPunctual(SendClose(SetState(c, Closing, clock), IDLE, clock), IDLE, clock);
    } else if c.state == Connecting {
      SetStateTakes(c, Failed, clock);
    }
  }

  lemma RefreshedIsNotRunning(c: Conn, now: int)
    requires Usable(c.config) && !c.closed && c.registered
    ensures RefreshTimer(c, now).alarm.state != Running
  {
  }

  lemma FinalisedIsPunctual(c: Conn, reason: Reason, clock: int)
    ensures Punctual(CloseInternal(c, reason), clock)
    ensures !c.closed ==> CloseInternal(c, reason).alarm.state == Idle
  {
  }

  lemma LaterIsPunctual(c: Conn, was: int, clock: int)
    requires Punctual(c, was) && was <= clock
    ensures Punctual(c, clock)
  {
  }

  lemma NoteIsPunctual(c: Conn, isPayload: bool, clock: int)
    requires Usable(c.config) && !c.closed && c.registered
    ensures Punctual(NoteReceive(c, clock, isPayload), clock)
  {
    hide RefreshTimer, Punctual;
    RefreshIsPunctual(
      c.(lastRecv := Clock.Max(c.lastRecv, clock),
         lastPayload := if isPayload then Clock.Max(c.lastPayload, clock) else c.lastPayload), clock, clock);
  }

  lemma CloseIsPunctual(c: Conn, was: int, clock: int)
    requires Usable(c.config) && !c.closed && c.registered && Punctual(c, was) && was <= clock
    ensures Punctual(Close(c, clock), clock)
  {
    hide SetState, SendClose, CloseInternal, Punctual;
    LaterIsPunctual(c, was, clock);
    if !(c.state == Closing || c.state == Closed || c.state == Failed) {
      var b := c.(lastCtrl := clock, reason := NORMAL, retries := 0);
      SetStateTakes(b, Closing, clock);
      var d := SetState(b, Closing, clock);
      SendsArePunctual(d, NORMAL, clock);
      FinalisedIsPunctual(SendClose(d, NORMAL, clock), NORMAL, clock);
    }
  }

  lemma AnswerIsPunctual(c: Conn, peerId: int, ok: bool, why: Reason, was: int, clock: int)
    requires Usable(c.config) && !c.closed && c.registered && Punctual(c, was) && was <= clock
    ensures Punctual(HandleConnectAck(c, peerId, ok, why, clock), clock)
  {
    hide SetState, CloseInternal, Punctual;
    LaterIsPunctual(c, was, clock);
    if c.state == Connecting {
      var d := c.(lastRecv := Clock.Max(c.lastRecv, clock));
      SetStateIsPunctual(d.(peerId := peerId), Connected, clock);
      FinalisedIsPunctual(SetState(d, Failed, clock), why, clock);
    }
  }

  lemma FireIsPunctual(c: Conn, now: int, was: int, clock: int)
    requires Usable(c.config) && !c.closed && c.registered && Punctual(c, was) && was <= clock && now <= clock
    ensures Punctual(Fire(c, now, clock), clock)
  {
    hide Update, Punctual;
    LaterIsPunctual(c, was, clock);
    UpdateIsPunctual(c.(alarm := c.alarm.(state := Running)), now, clock);
  }

  /** Every operation keeps the timer punctual. */
  lemma ApplyIsPunctual(c: Conn, a: Act, was: int)
    requires Awake(c) && Punctual(c, was) && was <= a.clock && (a.op.Firing? ==> a.op.now <= a.clock)
    ensures Punctual(Apply(c, a.op, a.clock), a.clock)
  {
    hide Close, RefreshTimer, NoteReceive, HandleConnectAck, CloseInternal, Fire, Punctual;
    LaterIsPunctual(c, was, a.clock);
    if c.closed {
      OverStays(c, a.op, a.clock);
      return;
    }
    match a.op {
      case CloseCall => CloseIsPunctual(c, was, a.clock);
      case SetConfigCall(config) =>
        if Unsigned(config) && Prepare(config) != Unacceptable {
          RefreshIsPunctual(c.(config := Prepare(config).config), a.clock, a.clock);
        }
      case Heard(isPayload) => NoteIsPunctual(c, isPayload, a.clock);
      case Answered(peerId, ok, why) => AnswerIsPunctual(c, peerId, ok, why, was, a.clock);
      case Reasked(result) =>
        NoteIsPunctual(c, false, a.clock);
        var d := if result == 0 then NoteReceive(c, a.clock, false) else c;
        SayingIsPunctual(d, Logged(d, SentConnectAck(result)), a.clock);
      case PeerClose(why) =>
        FinalisedIsPunctual(Logged(NoteReceive(c, a.clock, false), SentCloseAck(why)), why, a.clock);
      case PeerCloseAck => FinalisedIsPunctual(NoteReceive(c, a.clock, false), c.reason, a.clock);
      case Firing(now) => FireIsPunctual(c, now, was, a.clock);
    }
  }

  function LastTime(clock: int, acts: seq<Act>): int {
    if acts == [] then clock else acts[|acts| - 1].clock
  }

  /** Over any run, the timer is due exactly when some timeout of the connection has been reached. */
  lemma {:induction false} RunIsPunctual(c: Conn, clock: int, acts: seq<Act>)
    requires Awake(c) && Punctual(c, clock) && Timed(clock, acts)
    ensures Punctual(After(c, acts), LastTime(clock, acts))
    decreases |acts|
  {
    hide Apply, Awake, Punctual;
    AwakeIsUsable(c);
    if acts != [] {
      ActKeepsAwake(c, acts[0]);
      ApplyIsPunctual(c, acts[0], clock);
      RunIsPunctual(Apply(c, acts[0].op, acts[0].clock), acts[0].clock, acts[1..]);
    }
  }

  /** So it is from the start. */
  lemma BirthIsPunctual(localId: int, peerId: int, config: Config, hooked: bool, clock: int)
    requires Usable(config)
    ensures Punctual(Connect(localId, config, hooked, clock), clock)
    ensures Punctual(Admitted(Met(localId, peerId, config, hooked, clock), clock), clock)
  {
    hide RefreshTimer, Punctual, SetState, SendConnect, NoteReceive;
    var c := New(true, localId, 0, config, hooked, clock).(lastCtrl := clock, state := Connecting);
    RefreshFrame(c, clock);
    SendsArePunctual(RefreshTimer(c, clock), NORMAL, clock);
    var d := New(false, localId, peerId, config, hooked, clock);
    MetIsNew(d, clock);
    var e := NoteReceive(d, clock, false);
    SetStateIsPunctual(e, Connected, clock);
    SayingIsPunctual(SetState(e, Connected, clock), Admitted(e, clock), clock);
  }

  lemma MetIsNew(c: Conn, clock: int)
    requires Usable(c.config) && !c.closed && c.registered && c.state == Init
    ensures var d := NoteReceive(c, clock, false); !d.closed && d.registered && d.state == Init && d.config == c.config
  {
    hide RefreshTimer;
    RefreshFrame(c.(lastRecv := Clock.Max(c.lastRecv, clock)), clock);
  }

  /** A configuration is taken, with the default for a receive timeout of zero, exactly if its control timeout is positive. */
  lemma ConfigurationIsTaken(c: Conn, config: Config, clock: int)
    requires Usable(c.config) && !c.closed && Unsigned(config)
    ensures var d := Apply(c, SetConfigCall(config), clock);
      if config.ctrlTimeout == 0 then d == c
      else
        && d == c.(config := d.config, alarm := d.alarm)
        && d.config == config.(keepaliveTimeout := if config.keepaliveTimeout == 0 then 30000 else config.keepaliveTimeout)
  {
    hide CalculateDeadline;
  }
}

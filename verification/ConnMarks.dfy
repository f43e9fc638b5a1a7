/**
  What the times noted by a connection mean over whole runs: when it last heard
  from its peer, when it last heard a payload, when it last sent a keepalive and
  a control message; and what silence leads to (src/kcpmux_conn.c).
 */
module ConnMarks {
  import opened Timer
  import opened Conn
  import opened ConnSteps
  import opened ConnChart

  /** Something that happens to a connection, and when. */
  datatype Act = Act(op: Op, clock: int)

  function After(c: Conn, acts: seq<Act>): (d: Conn)
    requires Awake(c)
    decreases |acts|
  {
    if acts == [] then c
    else ActKeepsAwake(c, acts[0]); After(Apply(c, acts[0].op, acts[0].clock), acts[1..])
  }

  lemma ActKeepsAwake(c: Conn, a: Act)
    requires Awake(c)
    ensures Awake(Apply(c, a.op, a.clock)) && (c.closed ==> Apply(c, a.op, a.clock) == c)
  {
    hide Apply, Evolves;
    if c.closed {
      OverStays(c, a.op, a.clock);
    } else {
      ApplyEvolves(c, a.op, a.clock);
      EvolvedIsAwake(c, Apply(c, a.op, a.clock));
    }
  }

  lemma EvolvedIsAwake(c: Conn, d: Conn)
    requires Evolves(c, d)
    ensures Awake(d)
  {
  }

  lemma OverStays(c: Conn, op: Op, clock: int)
    requires Awake(c) && c.closed
    ensures Apply(c, op, clock) == c
  {
  }

  lemma {:induction false} RunKeepsAwake(c: Conn, acts: seq<Act>)
    requires Awake(c)
    ensures Awake(After(c, acts)) && (c.closed ==> After(c, acts) == c)
    decreases |acts|
  {
    hide Apply, Awake;
    if acts != [] {
      AwakeIsUsable(c);
      ActKeepsAwake(c, acts[0]);
      RunKeepsAwake(Apply(c, acts[0].op, acts[0].clock), acts[1..]);
    }
  }

  // What was heard and sent.

  /** The peer was heard from: a datagram of its was acted upon. */
  predicate Hears(c: Conn, op: Op) {
    match op
    case Heard(_) => true
    case Answered(_, _, _) => c.state == Connecting
    case Reasked(result) => result == 0
    case PeerClose(_) => true
    case PeerCloseAck => c.state == Closing
    case _ => false
  }

  /** When the peer was heard from. */
  function HeardTimes(c: Conn, acts: seq<Act>): seq<int>
    requires Awake(c)
    decreases |acts|
  {
    if acts == [] then []
    else
      ActKeepsAwake(c, acts[0]);
      (if Hears(c, acts[0].op) then [acts[0].clock] else [])
      + HeardTimes(Apply(c, acts[0].op, acts[0].clock), acts[1..])
  }

  /** When payloads were heard. */
  function PayloadTimes(acts: seq<Act>): seq<int> {
    if acts == [] then []
    else (if acts[0].op == Heard(true) then [acts[0].clock] else []) + PayloadTimes(acts[1..])
  }

  predicate IsKeepalive(e: Event) {
    e.SentKeepalive?
  }

  /** An act that sends a keepalive. */
  ghost predicate KeepsAlive(c: Conn, a: Act)
    requires Usable(c.config)
  {
    |Apply(c, a.op, a.clock).log| > 0 && Apply(c, a.op, a.clock).log != c.log
    && IsKeepalive(Apply(c, a.op, a.clock).log[|Apply(c, a.op, a.clock).log| - 1])
  }

  ghost function KeepaliveTimes(c: Conn, acts: seq<Act>): seq<int>
    requires Awake(c)
    decreases |acts|
  {
    if acts == [] then []
    else
      ActKeepsAwake(c, acts[0]);
      (if KeepsAlive(c, acts[0]) then [acts[0].clock] else [])
      + KeepaliveTimes(Apply(c, acts[0].op, acts[0].clock), acts[1..])
  }

  /** The latest of a time and others. */
  function Latest(t: int, ts: seq<int>): int
    decreases |ts|
  {
    if ts == [] then t else Latest(Clock.Max(t, ts[0]), ts[1..])
  }

  /** The last of a time and others that follow. */
  function Last(t: int, ts: seq<int>): int {
    if ts == [] then t else ts[|ts| - 1]
  }

  lemma LatestOfOne(t: int, u: int, ts: seq<int>)
    ensures Latest(t, [u] + ts) == Latest(Clock.Max(t, u), ts) && Latest(t, [] + ts) == Latest(t, ts)
  {
    assert ([u] + ts)[1..] == ts && [] + ts == ts;
  }

  /** What one act makes of the marks of a connection that outlives it. */
  lemma ActMarks(c: Conn, a: Act)
    requires Awake(c) && !c.closed && !Apply(c, a.op, a.clock).closed
    ensures var d := Apply(c, a.op, a.clock);
      && d.lastRecv == (if Hears(c, a.op) then Clock.Max(c.lastRecv, a.clock) else c.lastRecv)
      && d.lastPayload == (if a.op == Heard(true) then Clock.Max(c.lastPayload, a.clock) else c.lastPayload)
      && d.lastKeepalive == (if KeepsAlive(c, a) then a.clock else c.lastKeepalive)
      && d.keepaliveSeq == c.keepaliveSeq + (if KeepsAlive(c, a) then 1 else 0)
  {
    hide Apply, Awake;
    AwakeIsUsable(c);
    StepFollowsChart(c, a.op, a.clock);
    var d, turn := Apply(c, a.op, a.clock), Charted(c, a.op, a.clock);
    if turn.says == [] {
      assert d.log == c.log;
    } else {
      assert d.log[|d.log| - 1] == turn.says[|turn.says| - 1];
    }
  }

  /**
    Over any run that a connection outlives: the time of its last receipt is the
    latest at which it heard from its peer, that of its last payload the latest
    at which it heard one, and that of its last keepalive the last at which it
    sent one, each starting from what was noted before.
   */
  lemma {:induction false} MarksAreLatest(c: Conn, acts: seq<Act>)
    requires Awake(c) && !After(c, acts).closed
    ensures After(c, acts).lastRecv == Latest(c.lastRecv, HeardTimes(c, acts))
    ensures After(c, acts).lastPayload == Latest(c.lastPayload, PayloadTimes(acts))
    ensures After(c, acts).lastKeepalive == Last(c.lastKeepalive, KeepaliveTimes(c, acts))
    ensures After(c, acts).keepaliveSeq == c.keepaliveSeq + |KeepaliveTimes(c, acts)|
    decreases |acts|
  {
    hide Apply, Awake, Hears, KeepsAlive;
    RunKeepsAwake(c, acts);
    if acts != [] {
      var a := acts[0];
      AwakeIsUsable(c);
      ActKeepsAwake(c, a);
      var d := Apply(c, a.op, a.clock);
      RunKeepsAwake(d, acts[1..]);
      ActMarks(c, a);
      MarksAreLatest(d, acts[1..]);
      LatestOfOne(c.lastRecv, a.clock, HeardTimes(d, acts[1..]));
      LatestOfOne(c.lastPayload, a.clock, PayloadTimes(acts[1..]));
    }
  }

  // Silence.

  /** Nothing happened during the last `interval`. */
  ghost predicate SilentFor(t: int, ts: seq<int>, interval: int, now: int) {
    Passed(t, interval, now) && forall u | u in ts :: Passed(u, interval, now)
  }

  lemma {:induction false} LatestIsSilent(t: int, ts: seq<int>, interval: int, now: int)
    ensures Passed(Latest(t, ts), interval, now) <==> SilentFor(t, ts, interval, now)
    decreases |ts|
  {
    if ts != [] {
      LatestIsSilent(Clock.Max(t, ts[0]), ts[1..], interval, now);
      assert ts == [ts[0]] + ts[1..];
    }
  }

  /**
    A connected connection's firing, after any run: it ends with TIMEOUT if and
    only if nothing at all was heard from the peer during the last
    keepalive_timeout; otherwise it ends with IDLE if and only if an idle timeout
    is set and no payload was heard during it; and else it lives on.
   */
  lemma SilenceEnds(c: Conn, acts: seq<Act>, now: int, clock: int)
    requires Awake(c)
    requires var d := After(c, acts); !d.closed && d.state == Connected && d.alarm.state == InHeap && d.alarm.deadline <= now
    ensures Usable(After(c, acts).config)
    ensures var d := After(c, acts); var e := Apply(d, Firing(now), clock);
      if SilentFor(c.lastRecv, HeardTimes(c, acts), d.config.keepaliveTimeout, now)
      then EndsWith(e, TIMEOUT) && e.state == Failed
      else if d.config.idleTimeout > 0 && SilentFor(c.lastPayload, PayloadTimes(acts), d.config.idleTimeout, now)
      then EndsWith(e, IDLE) && e.state == Closed
      else !e.closed && e.state == Connected
  {
    hide Apply, SilentFor;
    RunKeepsAwake(c, acts);
    MarksAreLatest(c, acts);
    var d := After(c, acts);
    LatestIsSilent(c.lastRecv, HeardTimes(c, acts), d.config.keepaliveTimeout, now);
    LatestIsSilent(c.lastPayload, PayloadTimes(acts), d.config.idleTimeout, now);
    FiringDecides(d, now, clock);
  }

  lemma FiringDecides(d: Conn, now: int, clock: int)
    requires Awake(d) && !d.closed && d.state == Connected && d.alarm.state == InHeap && d.alarm.deadline <= now
    ensures var e := Apply(d, Firing(now), clock);
      if Passed(d.lastRecv, d.config.keepaliveTimeout, now) then EndsWith(e, TIMEOUT) && e.state == Failed
      else if d.config.idleTimeout > 0 && Passed(d.lastPayload, d.config.idleTimeout, now)
      then EndsWith(e, IDLE) && e.state == Closed
      else !e.closed && e.state == Connected
  {
    hide Apply, EndsWith, CalculateDeadline;
    DueIsReached(d, now);
    StepFollowsChart(d, Firing(now), clock);
    var e := Apply(d, Firing(now), clock);
    EndTold(d, e, [], TIMEOUT, true);
    EndTold(d, e, Told(d, StateChanged(Connected, Closing)) + ToPeer(d, SentClose(IDLE)), IDLE, false);
  }

  lemma EndTold(c: Conn, d: Conn, said: seq<Event>, reason: Reason, failed: bool)
    ensures Takes(c, d, EndsBy(c, said, reason, failed)) ==> EndsWith(d, reason)
  {
    if Takes(c, d, EndsBy(c, said, reason, failed)) {
      assert d.log == c.log + said + Farewell(c.hooked, reason);
    }
  }

  // Retransmission.

  /** Something is said that asks the peer for an answer. */
  ghost predicate Asks(c: Conn, a: Act)
    requires Usable(c.config)
  {
    var log := Apply(c, a.op, a.clock).log;
    |c.log| <= |log| && exists e :: e in log[|c.log|..] && (e.SentConnect? || e.SentClose?)
  }

  /** Time does not go back, and what is due was due when the update collected it. */
  ghost predicate Timed(clock: int, acts: seq<Act>)
    decreases |acts|
  {
    acts != [] ==>
      && clock <= acts[0].clock && (acts[0].op.Firing? ==> acts[0].op.now <= acts[0].clock)
      && Timed(acts[0].clock, acts[1..])
  }

  lemma ActAsks(c: Conn, a: Act, time: int)
    requires Awake(c) && !c.closed && (a.op.Firing? ==> a.op.now <= a.clock)
    ensures var d := Apply(c, a.op, a.clock);
      && (Asks(c, a) && !d.closed ==> d.lastCtrl == a.clock)
      && (time <= c.lastCtrl && time <= a.clock && !d.closed ==> time <= d.lastCtrl)
      && (Asks(c, a) && a.op.Firing? && c.state != Connected && time <= c.lastCtrl ==>
            Passed(time, c.config.ctrlTimeout, a.clock))
  {
    hide Apply, Awake;
    AwakeIsUsable(c);
    StepFollowsChart(c, a.op, a.clock);
    assert Apply(c, a.op, a.clock).log[|c.log|..] == Charted(c, a.op, a.clock).says;
  }

  lemma {:induction false} AskedBefore(c: Conn, clock: int, acts: seq<Act>, j: nat, time: int)
    requires Awake(c) && Timed(clock, acts) && j < |acts| && time <= clock && time <= c.lastCtrl
    requires var d := After(c, acts[..j]); !d.closed && d.state != Connected && Usable(d.config) && Asks(d, acts[j])
    requires acts[j].op.Firing?
    ensures Passed(time, After(c, acts[..j]).config.ctrlTimeout, acts[j].clock)
    decreases |acts|
  {
    hide Apply, Asks, Passed, Awake;
    AwakeIsUsable(c);
    RunKeepsAwake(c, acts[..j]);
    ActAsks(c, acts[0], time);
    if j == 0 {
      assert acts[..j] == [];
    } else {
      ActKeepsAwake(c, acts[0]);
      assert acts[..j][0] == acts[0] && acts[..j][1..] == acts[1..][..j - 1];
      RunKeepsAwake(Apply(c, acts[0].op, acts[0].clock), acts[1..][..j - 1]);
      AskedBefore(Apply(c, acts[0].op, acts[0].clock), acts[0].clock, acts[1..], j - 1, time);
    }
  }

  /**
    Over any run, a connecting or closing connection repeats itself only when
    the control timeout has passed since it last asked.
   */
  lemma {:induction false} RetransmissionsAreApart(c: Conn, clock: int, acts: seq<Act>, i: nat, j: nat)
    requires Awake(c) && Timed(clock, acts) && i < j < |acts| && acts[j].op.Firing?
    requires var d := After(c, acts[..i]); !d.closed && Usable(d.config) && Asks(d, acts[i])
    requires var d := After(c, acts[..j]); !d.closed && d.state != Connected && Usable(d.config) && Asks(d, acts[j])
    ensures Passed(acts[i].clock, After(c, acts[..j]).config.ctrlTimeout, acts[j].clock)
    decreases |acts|
  {
    hide Apply, Asks, Passed, Awake;
    AwakeIsUsable(c);
    ActKeepsAwake(c, acts[0]);
    var d := Apply(c, acts[0].op, acts[0].clock);
    assert acts[..j][0] == acts[0] && acts[..j][1..] == acts[1..][..j - 1];
    RunKeepsAwake(d, acts[1..][..j - 1]);
    if i == 0 {
      assert acts[..0] == [];
      ActAsks(c, acts[0], acts[0].clock);
      AskedBefore(d, acts[0].clock, acts[1..], j - 1, acts[0].clock);
    } else {
      assert acts[..i][0] == acts[0] && acts[..i][1..] == acts[1..][..i - 1];
      RetransmissionsAreApart(d, acts[0].clock, acts[1..], i - 1, j - 1);
    }
  }
}

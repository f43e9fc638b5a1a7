/**
  How long a connection can stay undecided (src/kcpmux_conn.c): one that is not
  answered and one that is closing end within a time set by their
  configuration, if the host is back for every deadline.
 */
module BoundedConn {
  import opened Conn
  import Clock = Stream

  /** Waiting for an answer to CONNECT or CLOSE since `start`, with retransmissions left and none of them late. */
  ghost predicate Waits(c: Conn, start: int, allowed: int) {
    && Usable(c.config) && !c.closed && (c.state == Connecting || c.state == Closing)
    && 0 <= c.retries < allowed && c.lastCtrl <= start + c.retries * c.config.ctrlTimeout
  }

  /** How many more times the message is sent before the connection gives up, counting the first. */
  function Attempts(c: Conn): int {
    if c.state == Connecting then 1 + c.config.connectRetries else c.config.closeRetries
  }

  /** Updates at times that do not go back, each no later than the deadline there is. */
  ghost predicate OnTime(c: Conn, times: seq<int>)
    requires Usable(c.config)
    decreases |times|
  {
    times != [] ==>
      && c.lastCtrl <= times[0] < Clock.INT64_MAX && (CalculateDeadline(c).At? ==> times[0] <= CalculateDeadline(c).time)
      && OnTime(Update(c, times[0], times[0]), times[1..])
  }

  /** The connection after those updates. */
  function After(c: Conn, times: seq<int>): Conn
    requires Usable(c.config)
    decreases |times|
  {
    if times == [] then c else After(Update(c, times[0], times[0]), times[1..])
  }

  lemma {:induction false} Steps(n: int, m: int, size: int)
    requires 0 <= n < m && 0 < size
    ensures n * size + size == (n + 1) * size <= m * size
    decreases m
  {
    if n + 1 < m {
      Steps(n, m - 1, size);
    }
  }

  /** One update: the wait goes on, before its end and according to plan, or it is over. */
  lemma UpdateWaits(c: Conn, start: int, t: int)
    requires Usable(c.config) && Waits(c, start, Attempts(c)) && c.lastCtrl <= t < Clock.INT64_MAX
    requires CalculateDeadline(c).At? ==> t <= CalculateDeadline(c).time
    ensures var d := Update(c, t, t);
      d.closed || (t < start + Attempts(c) * c.config.ctrlTimeout && Waits(d, start, Attempts(d)) && Attempts(d) == Attempts(c))
  {
    hide RefreshTimer, CloseInternal;
    var size := c.config.ctrlTimeout;
    Steps(c.retries, Attempts(c), size);
    RefreshFrame(c, t);
    if c.state == Connecting {
      var e := Logged(c.(retries := c.retries + 1, lastCtrl := t), SentConnect);
      RefreshFrame(e, t);
      RefreshFrame(RefreshTimer(e, t), t);
      FinaliseEnds(SetState(c, Failed, t), TIMEOUT);
      SetStateFrame(c, Failed, t);
    } else {
      SendCloseFrame(c.(retries := c.retries + 1), c.reason, t);
      var e := SendClose(c.(retries := c.retries + 1), c.reason, t);
      RefreshFrame(e, t);
      FinaliseEnds(e, c.reason);
      FinaliseEnds(c, c.reason);
    }
    if c.retries + 1 < Attempts(c) {
      Steps(c.retries + 1, Attempts(c), size);
    }
  }

  lemma FinaliseEnds(c: Conn, reason: Reason)
    ensures CloseInternal(c, reason).closed
  {
  }

  /** A finalised connection stays so. */
  lemma {:induction false} EndedStays(c: Conn, times: seq<int>)
    requires Usable(c.config) && c.closed
    ensures After(c, times) == c
    decreases |times|
  {
    if times != [] {
      EndedStays(c, times[1..]);
    }
  }

  /** Whoever waits is done by the end of the wait. */
  lemma {:induction false} WaitEnds(c: Conn, start: int, times: seq<int>, t: int)
    requires Usable(c.config) && Waits(c, start, Attempts(c)) && OnTime(c, times)
    requires t in times && start + Attempts(c) * c.config.ctrlTimeout <= t
    ensures After(c, times).closed
    decreases |times|
  {
    hide Waits, Attempts, Update;
    UpdateWaits(c, start, times[0]);
    var d := Update(c, times[0], times[0]);
    if d.closed {
      EndedStays(d, times[1..]);
    } else {
      WaitEnds(d, start, times[1..], t);
    }
  }

  /** An unanswered connection has ended when 1 + connect_retries times ctrl_timeout have passed. */
  lemma ConnectIsBounded(id: int, config: Config, hooked: bool, start: int, times: seq<int>, t: int)
    requires Usable(config) && OnTime(Connect(id, config, hooked, start), times)
    requires t in times && start + (1 + config.connectRetries) * config.ctrlTimeout <= t
    ensures After(Connect(id, config, hooked, start), times).closed
  {
    var c := New(true, id, 0, config, hooked, start).(lastCtrl := start, state := Connecting);
    RefreshFrame(c, start);
    RefreshFrame(Logged(RefreshTimer(c, start), SentConnect), start);
    assert 0 * config.ctrlTimeout == 0;
    WaitEnds(Connect(id, config, hooked, start), start, times, t);
  }

  /** A connection that its application closed has ended when close_retries times ctrl_timeout have passed. */
  lemma CloseIsBounded(c: Conn, start: int, times: seq<int>, t: int)
    requires Usable(c.config) && !c.closed && (c.state == Init || c.state == Connecting || c.state == Connected)
    requires OnTime(Close(c, start), times) && t in times && start + c.config.closeRetries * c.config.ctrlTimeout <= t
    ensures After(Close(c, start), times).closed
  {
    hide SetState, SendClose, CloseInternal;
    var b := c.(lastCtrl := start, reason := NORMAL, retries := 0);
    SetStateFrame(b, Closing, start);
    SendCloseFrame(SetState(b, Closing, start), NORMAL, start);
    var e := SendClose(SetState(b, Closing, start), NORMAL, start);
    FinaliseEnds(e, NORMAL);
    if c.config.closeRetries == 0 {
      EndedStays(Close(c, start), times);
    } else {
      assert 0 * c.config.ctrlTimeout == 0;
      WaitEnds(Close(c, start), start, times, t);
    }
  }
}

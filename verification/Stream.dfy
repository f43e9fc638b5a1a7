/**
  One stream as a value: its fields, and what each operation of
  src/kcpmux_stream.c makes of them.  `up` says that the owning connection is
  CONNECTED and not finalised, `clock` is the clock reading of the operation,
  and `check` the time at which KCP asks to be updated next.
 */
module Stream {
  import opened Timer
  import Kcp
  import SendPath

  const INT64_MAX: int := 0x7FFF_FFFF_FFFF_FFFF
  const MAX_MSS: int := 1500 - 13 - 24

  type Reason = int
  const NORMAL: Reason := 0
  const ERROR: Reason := 1
  const REJECTED: Reason := 3
  const TIMEOUT: Reason := 5

  datatype State = Open | Closing | Closed | Failed
  datatype Phase = NoPhase | LocalDrain | WaitAck | RemoteDrain | Finalize

  datatype Config = Config(
    ctrlTimeout: int, closeRetries: int, drainTimeout: int,
    mss: int, pauseAt: int, resumeBelow: int, batch: int)

  predicate IsU32(x: int) {
    0 <= x < 0x1_0000_0000
  }

  /** The configurations that are accepted; all but the segment size are 32-bit fields. */
  predicate Acceptable(c: Config) {
    && IsU32(c.ctrlTimeout) && IsU32(c.closeRetries) && IsU32(c.drainTimeout)
    && IsU32(c.pauseAt) && IsU32(c.resumeBelow) && IsU32(c.batch)
    && c.ctrlTimeout > 0 && c.drainTimeout > 0 && 0 < c.mss <= MAX_MSS && c.pauseAt > 0 && c.resumeBelow <= c.pauseAt
  }

  /** What an operation does that others can observe, in order. */
  datatype Event =
    | SentClose(reason: Reason)
    | SentCloseAck(reason: Reason)
    | StateChanged(from: State, to: State)
    | ReadNotify
    | WriteNotify
    | KcpReleased
    | CloseNotify(reason: Reason)
    | ReleaseQueued

  /** The embedded timer node, as the scheduler leaves it. */
  datatype Alarm = Alarm(state: NodeState, deadline: int)

  datatype Stream = Stream(
    id: int, isInitiator: bool, config: Config, hooked: bool,
    state: State, phase: Phase, reason: Reason, retries: int, lastCtrl: int, drainStart: int,
    closed: bool, registered: bool, alarm: Alarm,
    kcp: Kcp.Session, upSent: int,
    readBlocked: bool, writeBlocked: bool, pending: int, inBatch: bool,
    log: seq<Event>)

  function DeadlineAfter(anchor: int, interval: int): (d: int)
    ensures d == if anchor + interval <= INT64_MAX then anchor + interval else INT64_MAX
  {
    if anchor > INT64_MAX - interval then INT64_MAX else anchor + interval
  }

  function Max(a: int, b: int): int {
    if a < b then b else a
  }

  function Min(a: int, b: int): int {
    if a < b then a else b
  }

  /** A uint32_t threshold compared as an int. */
  function AsInt32(x: int): int {
    if x < 0x8000_0000 then x else x - 0x1_0000_0000
  }

  function Logged(s: Stream, e: Event): (t: Stream)
    ensures t.kcp == s.kcp && t.upSent == s.upSent
  {
    s.(log := s.log + [e])
  }

  function Notify(s: Stream, e: Event): (t: Stream)
    ensures t.kcp == s.kcp && t.upSent == s.upSent
  {
    if s.hooked then Logged(s, e) else s
  }

  predicate KcpActive(s: Stream) {
    s.state == Open || (s.state == Closing && s.phase == LocalDrain)
  }

  function Schedule(s: Stream, deadline: int, now: int): (t: Stream)
    ensures t.kcp == s.kcp && t.upSent == s.upSent
  {
    if s.registered then s.(alarm := Alarm(InHeap, Max(deadline, now))) else s
  }

  function Cancel(s: Stream): (t: Stream)
    ensures t.kcp == s.kcp && t.upSent == s.upSent
  {
    s.(alarm := s.alarm.(state := Idle))
  }

  /** When the current state of an active stream needs its timer. */
  function Wanted(s: Stream, now: int, check: int): (d: int)
    requires s.state == Open || (s.state == Closing && s.phase != NoPhase)
  {
    if s.state == Open then check
    else match s.phase
      case LocalDrain => Min(check, DeadlineAfter(s.drainStart, s.config.drainTimeout))
      case WaitAck => DeadlineAfter(s.lastCtrl, s.config.ctrlTimeout)
      case RemoteDrain => DeadlineAfter(s.drainStart, s.config.drainTimeout)
      case Finalize => now
  }

  function RefreshTimer(s: Stream, up: bool, now: int, check: int): (t: Stream)
    ensures t.kcp == s.kcp && t.upSent == s.upSent
  {
    if !s.registered then s
    else if !s.closed && up && (s.state == Open || (s.state == Closing && s.phase != NoPhase))
    then Schedule(s, Wanted(s, now, check), now)
    else Cancel(s)
  }

  function ClearPending(s: Stream): (t: Stream)
    ensures t.kcp == s.kcp && t.upSent == s.upSent
  {
    s.(pending := 0, inBatch := false)
  }

  function ScheduleFinalize(s: Stream, reason: Reason, now: int): (t: Stream)
    ensures t.kcp == s.kcp && t.upSent == s.upSent
  {
    Schedule(ClearPending(s.(reason := reason, phase := Finalize)), now, now)
  }

  /** Counts one KCP operation towards the batch. */
  function Accumulate(s: Stream, now: int): (t: Stream)
    ensures t.kcp == s.kcp && t.upSent == s.upSent
  {
    if s.config.batch <= 1 then Schedule(s, now, now)
    else if s.pending >= s.config.batch then s
    else
      var t := s.(pending := s.pending + 1, inBatch := s.inBatch || s.pending == 0);
      if t.pending == s.config.batch then Schedule(t.(inBatch := false), now, now) else t
  }

  function FinishBatch(s: Stream, up: bool, now: int): (t: Stream)
    ensures t.kcp == s.kcp && t.upSent == s.upSent
  {
    if s.closed || s.pending == 0 || s.state != Open || !up then s
    else if s.config.batch > 1 && s.pending >= s.config.batch then s
    else Schedule(s.(inBatch := false, pending := if s.config.batch > 1 then s.config.batch else 0), now, now)
  }

  /** Finalisation: timer first, then KCP, then the notification, then the deferred release. */
  function CloseInternal(s: Stream, reason: Reason): (t: Stream)
    ensures t.kcp == s.kcp && t.upSent == s.upSent
  {
    if s.closed then s
    else
      var t := ClearPending(s).(closed := true, alarm := s.alarm.(state := Idle), registered := false);
      var u := Logged(t, KcpReleased).(state := if s.state == Failed then Failed else Closed);
      Logged(Notify(u, CloseNotify(reason)), ReleaseQueued)
  }

  function SetState(s: Stream, to: State, up: bool, clock: int, check: int): (t: Stream)
    ensures t.kcp == s.kcp && t.upSent == s.upSent
  {
    if s.state == to then s
    else
      var t := RefreshTimer(s.(state := to), up, clock, check);
      if to == Closed || to == Failed then t else Notify(t, StateChanged(s.state, to))
  }

  function SendClose(s: Stream, reason: Reason, up: bool, clock: int, check: int): (t: Stream)
    ensures t.kcp == s.kcp && t.upSent == s.upSent
  {
    if s.closed then s
    else RefreshTimer(Logged(s.(lastCtrl := clock), SentClose(reason)), up, clock, check)
  }

  /** Once KCP has nothing unacknowledged, the close is announced. */
  function AdvanceLocalClose(s: Stream, up: bool, clock: int, check: int): (t: Stream)
    ensures t.kcp == s.kcp && t.upSent == s.upSent
  {
    if s.closed || s.phase != LocalDrain || Kcp.WaitSnd(s.kcp) != 0 then s
    else
      var t := SendClose(s.(phase := WaitAck, retries := 0), NORMAL, up, clock, check);
      if s.config.closeRetries == 0 then CloseInternal(t, NORMAL) else t
  }

  function Close(s: Stream, up: bool, clock: int, check: int): (t: Stream)
    ensures t.kcp == s.kcp && t.upSent == s.upSent
  {
    match s.state
    case Closing => if s.phase == RemoteDrain then ScheduleFinalize(s, NORMAL, clock) else s
    case Closed | Failed => s
    case Open =>
      var t := SetState(
        s.(lastCtrl := clock, drainStart := clock, reason := NORMAL, retries := 0, phase := LocalDrain),
        Closing, up, clock, check);
      if t.isInitiator && t.upSent == 0 then CloseInternal(t, NORMAL)
      else AdvanceLocalClose(Schedule(t, clock, clock), up, clock, check)
  }

  /** The timer callback, for an update that collected at `now`. */
  function Update(s: Stream, up: bool, now: int, clock: int, check: int): (t: Stream)
    ensures t.kcp == s.kcp && t.upSent == s.upSent
  {
    if s.closed || !up then s
    else match s.state
      case Open => UpdateOpen(s, now, check)
      case Closing => UpdateClosing(s, up, now, clock, check)
      case Closed | Failed => Cancel(s)
  }

  function UpdateOpen(s: Stream, now: int, check: int): (t: Stream)
    ensures t.kcp == s.kcp && t.upSent == s.upSent
  {
    var t := ClearPending(s);
    var u := if t.writeBlocked && Kcp.WaitSnd(t.kcp) < AsInt32(t.config.resumeBelow)
             then Notify(t.(writeBlocked := false), WriteNotify) else t;
    Schedule(u, check, now)
  }

  function UpdateClosing(s: Stream, up: bool, now: int, clock: int, check: int): (t: Stream)
    ensures t.kcp == s.kcp && t.upSent == s.upSent
  {
    match s.phase
    case LocalDrain =>
      var t := ClearPending(s);
      if Kcp.WaitSnd(t.kcp) == 0 then AdvanceLocalClose(t, up, clock, check)
      else if now >= DeadlineAfter(t.drainStart, t.config.drainTimeout)
      then CloseInternal(SendClose(t.(reason := TIMEOUT), TIMEOUT, up, clock, check), TIMEOUT)
      else RefreshTimer(t, up, now, check)
    case WaitAck =>
      if now < DeadlineAfter(s.lastCtrl, s.config.ctrlTimeout) then s
      else if s.retries < s.config.closeRetries
      then
        var t := SendClose(s.(retries := s.retries + 1), s.reason, up, clock, check);
        if s.retries + 1 == s.config.closeRetries then CloseInternal(t, s.reason) else t
      else CloseInternal(s, s.reason)
    case RemoteDrain =>
      if now >= DeadlineAfter(s.drainStart, s.config.drainTimeout) then CloseInternal(s, TIMEOUT) else s
    case Finalize => CloseInternal(s, s.reason)
    case NoPhase => s
  }

  /** A STREAM_CLOSE from the peer. */
  function HandleClose(s: Stream, reason: Reason, up: bool, clock: int, check: int): (t: Stream)
    ensures t.kcp == s.kcp && t.upSent == s.upSent
  {
    if s.closed then s
    else if reason != NORMAL then CloseInternal(Logged(s, SentCloseAck(reason)), reason)
    else match s.state
      case Closing =>
        (match s.phase
         case LocalDrain | WaitAck => ScheduleFinalize(Logged(s, SentCloseAck(reason)), NORMAL, clock)
         case RemoteDrain | Finalize => Logged(s, SentCloseAck(reason))
         case NoPhase => s)
      case Open =>
        var t := SetState(
          Logged(s, SentCloseAck(reason)).(reason := reason, phase := RemoteDrain, drainStart := clock),
          Closing, up, clock, check);
        if Kcp.PeekSize(t.kcp) <= 0 then ScheduleFinalize(t, reason, clock) else t
      case Closed | Failed => s
  }

  /** A STREAM_CLOSE_ACK from the peer. */
  function HandleCloseAck(s: Stream): (t: Stream)
    ensures t.kcp == s.kcp && t.upSent == s.upSent
  {
    if s.state == Closing && s.phase == WaitAck then CloseInternal(s, s.reason) else s
  }

  /** A STREAM_PAYLOAD that KCP turned into `kcp`; `ok` is whether it reported success. */
  function HandlePayload(s: Stream, kcp: Kcp.Session, ok: bool, clock: int): (t: Stream)
    ensures (t.kcp == s.kcp || t.kcp == kcp) && t.upSent == s.upSent
  {
    if s.closed || !KcpActive(s) then s
    else
      var t := Accumulate(s.(kcp := kcp), clock);
      if ok && t.state == Open && t.readBlocked && Kcp.PeekSize(t.kcp) > 0
      then Notify(t.(readBlocked := false), ReadNotify) else t
  }

  predicate CanRead(s: Stream) {
    !s.closed && (s.state == Open || (s.state == Closing && s.phase == RemoteDrain))
  }

  /** A read with room for `size` bytes; `ok` is whether KCP reports success if it comes to that. */
  function Recv(s: Stream, size: int, ok: bool, clock: int): (t: Stream)
    ensures t.kcp.sent == s.kcp.sent && t.upSent == s.upSent
  {
    var peek := Kcp.PeekSize(s.kcp);
    if size <= 0 || !CanRead(s) || peek > size then s
    else if peek <= 0 then s.(readBlocked := true)
    else if !ok then s
    else
      var t := s.(kcp := Kcp.Recv(s.kcp));
      if Kcp.PeekSize(t.kcp) > 0 then t
      else if t.state == Open then t.(readBlocked := true)
      else ScheduleFinalize(t, t.reason, clock)
  }

  predicate CanSend(s: Stream, up: bool) {
    !s.closed && s.state == Open && up
  }

  /**
    A send of `size` bytes of which KCP accepts the first `sent`, becoming
    `kcp`.  Nothing changes when the very first chunk is refused.
   */
  function Send(
    s: Stream, size: int, kcp: Kcp.Session, sent: int, flush: bool, up: bool, clock: int, check: int): Stream
  {
    if !CanSend(s, up) then s
    else if size > 0 && Kcp.WaitSnd(s.kcp) >= AsInt32(s.config.pauseAt) then s.(writeBlocked := true)
    else if size > 0 && sent == 0 then s
    else Enqueued(s.(kcp := kcp, upSent := s.upSent + sent), sent, flush, clock, check)
  }

  /**
    A send of `data` while KCP takes `room` more messages.  Acceptable
    configurations have a positive segment size.
   */
  function SendData(
    s: Stream, data: SendPath.Bytes, room: nat, flush: bool, up: bool, clock: int, check: int): Stream
  {
    if SendPath.Invalid(data, flush) || s.config.mss <= 0 then s
    else
      var got := SendPath.Accepted(data, s.config.mss, room);
      Send(s, |data|, Handed(s.kcp, got), |SendPath.Flatten(got)|, flush, up, clock, check)
  }

  /** KCP with more messages to send. */
  function Handed(kcp: Kcp.Session, messages: seq<Kcp.Message>): Kcp.Session {
    kcp.(sent := kcp.sent + messages)
  }

  /** After KCP accepted `sent` bytes: flush now, or count towards the batch. */
  function Enqueued(s: Stream, sent: int, flush: bool, clock: int, check: int): (t: Stream)
    ensures t.kcp == s.kcp && t.upSent == s.upSent
  {
    if flush then Schedule(ClearPending(s), check, clock)
    else if sent == 0 then s
    else Accumulate(s, clock)
  }

  function SetConfig(s: Stream, c: Config, up: bool, clock: int, check: int): (t: Stream)
    ensures t.kcp == s.kcp && t.upSent == s.upSent
  {
    if s.closed || !Acceptable(c) then s
    else RefreshTimer(ClearPending(s.(config := c.(mss := s.config.mss))), up, clock, check)
  }

  function New(id: int, isInitiator: bool, config: Config, hooked: bool, up: bool, clock: int, check: int): Stream {
    RefreshTimer(
      Stream(id, isInitiator, config, hooked, Open, NoPhase, NORMAL, 0, 0, 0, false, true, Alarm(Idle, 0),
             Kcp.FRESH, 0, true, false, 0, false, []),
      up, clock, check)
  }

  /** The application turned down a stream its peer had opened. */
  function Reject(s: Stream, up: bool, clock: int, check: int): Stream {
    var t := s.(hooked := false, reason := REJECTED, phase := WaitAck, retries := 0, lastCtrl := clock);
    var u := SendClose(SetState(t, Closing, up, clock, check), REJECTED, up, clock, check);
    if u.config.closeRetries == 0 then CloseInternal(u, REJECTED) else u
  }

  /** KCP failed on the payload that opened the stream. */
  function Fail(s: Stream, up: bool, clock: int, check: int): Stream {
    CloseInternal(SetState(s, Failed, up, clock, check), ERROR)
  }
}

/**
  The count of bytes a stream has sent (src/kcpmux_stream.c): it is the length
  of what KCP accepted, at every point of every run, so a stream that counts
  nothing was never heard of by its peer and may be closed silently.
 */
module SentBytes {
  import Kcp
  import opened SendPath
  import opened Stream
  import opened StreamRuns
  import opened StreamSteps
  import opened BoundedClose

  /** The count is the length of all that KCP was handed, in messages none of which is empty. */
  ghost predicate Sized(s: Stream) {
    s.upSent == |Flatten(s.kcp.sent)| && forall m | m in s.kcp.sent :: m != []
  }

  /** What a send adds to the count: the length of a prefix of the data, which is also what the caller is told. */
  lemma SendCountsPrefix(
    s: Stream, data: Bytes, room: nat, code: int, flush: bool, up: bool, clock: int, check: int)
    requires s.config.mss > 0 && CanSend(s, up) && !Invalid(data, flush)
    requires data == [] || Kcp.WaitSnd(s.kcp) < AsInt32(s.config.pauseAt)
    ensures var t := SendData(s, data, room, flush, up, clock, check);
      && 0 <= t.upSent - s.upSent <= |data|
      && t.kcp.sent == s.kcp.sent + Accepted(data, s.config.mss, room)
      && Flatten(Accepted(data, s.config.mss, room)) == data[..t.upSent - s.upSent]
      && (data == [] || room > 0 ==> Told(data, s.config.mss, room, code) == t.upSent - s.upSent)
  {
    hide Enqueued, Chunks;
    var got := Accepted(data, s.config.mss, room);
    AcceptedIsPrefix(data, s.config.mss, room, code);
    AcceptedIsSound(data, s.config.mss, room);
    assert s.kcp.sent + [] == s.kcp.sent;
  }

  lemma SendKeepsSized(s: Stream, data: Bytes, room: nat, flush: bool, up: bool, clock: int, check: int)
    requires Sized(s)
    ensures Sized(SendData(s, data, room, flush, up, clock, check))
  {
    hide Enqueued, Flatten, Accepted;
    if s.config.mss > 0 {
      var got := Accepted(data, s.config.mss, room);
      AcceptedIsSound(data, s.config.mss, room);
      FlattenAppend(s.kcp.sent, got);
      }
  }

  lemma ApplyKeepsSized(s: Stream, st: Step)
    requires Sized(s) && KcpBehaves(s, st.op)
    ensures Sized(Apply(s, st))
  {
    hide Flatten, Close, HandleClose, HandleCloseAck, SendData, HandlePayload, Recv, FireTimer, SetConfig, FinishBatch;
    hide CloseInternal;
    if st.op.SendCall? {
      SendKeepsSized(s, st.op.data, st.op.room, st.op.flush, st.up, st.clock, st.check);
    }
  }

  /** Over every run of a new stream the count is what KCP accepted; it is zero exactly as long as that is nothing. */
  lemma {:induction false} CountIsAccepted(s: Stream, up: bool, clock: int, run: seq<Step>)
    requires Sized(s) && Plausible(s, up, clock, run)
    ensures Sized(After(s, run)) && (After(s, run).upSent == 0 <==> After(s, run).kcp.sent == [])
    decreases |run|
  {
    hide Apply, KcpBehaves, Follows;
    if run == [] {
      if s.kcp.sent != [] {
        assert s.kcp.sent[0] in s.kcp.sent;
      }
    } else {
      ApplyKeepsSized(s, run[0]);
      CountIsAccepted(Apply(s, run[0]), run[0].up, run[0].clock, run[1..]);
    }
  }

  lemma NewIsSized(id: int, isInitiator: bool, config: Config, hooked: bool, up: bool, clock: int, check: int)
    ensures Sized(New(id, isInitiator, config, hooked, up, clock, check))
  {
  }

  /**
    A stream of one's own is closed on the spot without an announcement exactly
    if KCP was never handed anything, and then its peer cannot have heard of it.
   */
  lemma SilentCloseIsUnheard(s: Stream, up: bool, clock: int, run: seq<Step>, later: int, check: int)
    requires Sized(s) && Plausible(s, up, clock, run)
    requires var t := After(s, run); t.state == Open && !t.closed && t.isInitiator
    ensures var t := After(s, run); var c := Close(t, true, later, check);
      c.closed && CloseSends(c.log) == CloseSends(t.log) <==> t.kcp.sent == []
  {
    hide Flatten, After, Close, CloseSends;
    CountIsAccepted(s, up, clock, run);
    UncountedClosesSilently(After(s, run), later, check);
  }

  lemma UncountedClosesSilently(t: Stream, later: int, check: int)
    requires t.state == Open && !t.closed && t.isInitiator
    ensures var c := Close(t, true, later, check);
      c.closed && CloseSends(c.log) == CloseSends(t.log) <==> t.upSent == 0
  {
    hide SetState, RefreshTimer, Schedule, CloseInternal, CloseSends;
    var s := t.(lastCtrl := later, drainStart := later, reason := NORMAL, retries := 0, phase := LocalDrain);
    EnterClosing(s, later, check);
    var u := SetState(s, Closing, true, later, check);
    FinaliseFrame(u, NORMAL);
    var v := Schedule(u, later, later);
    ScheduleFrame(u, later);
    var w := v.(phase := WaitAck, retries := 0);
    TimerFrame(Logged(w.(lastCtrl := later), SentClose(NORMAL)), true, later, check);
    OneMore(v.log, SentClose(NORMAL));
    FinaliseFrame(SendClose(w, NORMAL, true, later, check), NORMAL);
  }
}

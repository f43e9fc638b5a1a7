/**
  What follows from the chart over whole runs: the reasons applications are
  told, the acknowledgements peers are sent, and how far apart announcements of
  a close are.
 */
module StreamEnds {
  import opened Stream
  import opened StreamRuns
  import opened StreamChart
  import Kcp

  // Reasons.

  /** A stream that is closing while it lives was closed without fault, by its owner or its peer. */
  ghost predicate Blameless(s: Stream) {
    !s.closed && s.phase != NoPhase ==> s.reason == NORMAL
  }

  lemma StepIsBlameless(s: Stream, st: Step)
    requires Shaped(s) && Blameless(s)
    ensures Blameless(Apply(s, st))
  {
    hide Apply, Farewell;
    StepFollowsChart(s, st);
  }

  lemma {:induction false} RunIsBlameless(s: Stream, up: bool, clock: int, run: seq<Step>)
    requires Kept(s, up, clock) && Plausible(s, up, clock, run) && Blameless(s)
    ensures Shaped(After(s, run)) && Blameless(After(s, run))
    decreases |run|
  {
    hide Apply, Blameless;
    if run != [] {
      StepIsBlameless(s, run[0]);
      ApplyKeeps(s, run[0], up, clock);
      RunIsBlameless(Apply(s, run[0]), run[0].up, run[0].clock, run[1..]);
    }
  }

  /** A drain, on either side, that its timer cut short. */
  predicate RanOut(s: Stream, op: Op) {
    op == Fire && (s.phase == RemoteDrain || (s.phase == LocalDrain && Kcp.WaitSnd(s.kcp) != 0))
  }

  /**
    Over any run of a stream that was not turned down, its end is explained.  The
    application is told the reason its peer gave, or the one its connection
    ended with, or TIMEOUT for a drain that ran out, and in all other cases that
    it was a normal close.
   */
  lemma EndIsExplained(
    id: int, isInitiator: bool, config: Config, hooked: bool, clock: int, check: int, run: seq<Step>, st: Step)
    requires Acceptable(config)
    requires Plausible(New(id, isInitiator, config, hooked, true, clock, check), true, clock, run)
    requires var s := After(New(id, isInitiator, config, hooked, true, clock, check), run); !s.closed && Apply(s, st).closed
    ensures var s := After(New(id, isInitiator, config, hooked, true, clock, check), run);
      EndsWith(Apply(s, st),
        if st.op.PeerClose? || st.op.Finalise? then st.op.reason else if RanOut(s, st.op) then TIMEOUT else NORMAL)
  {
    hide Apply, EndsWith, New;
    var s := New(id, isInitiator, config, hooked, true, clock, check);
    NewIsKept(id, isInitiator, config, hooked, true, clock, check);
    NewIsOpened(id, isInitiator, config, hooked, clock, check);
    RunIsBlameless(s, true, clock, run);
    var t := After(s, run);
    VerdictIsGiven(t, st);
    EndsFromAStage(t, st);
  }

  lemma NewIsOpened(id: int, isInitiator: bool, config: Config, hooked: bool, clock: int, check: int)
    ensures StageOf(New(id, isInitiator, config, hooked, true, clock, check)) == Opened
  {
  }

  /** An open stream is not ended by its timer or an acknowledgement. */
  lemma EndsFromAStage(s: Stream, st: Step)
    requires Shaped(s) && !s.closed && Apply(s, st).closed
    ensures st.op == Fire || st.op == PeerCloseAck ==> s.phase != NoPhase
  {
    hide Apply;
    StepFollowsChart(s, st);
  }

  // Acknowledgements.

  /** The reasons acknowledged to the peer, in order. */
  function Acks(log: seq<Event>): seq<Reason> {
    if log == [] then []
    else Acks(log[..|log| - 1]) + if log[|log| - 1].SentCloseAck? then [log[|log| - 1].reason] else []
  }

  lemma {:induction false} AcksJoin(a: seq<Event>, b: seq<Event>)
    ensures Acks(a + b) == Acks(a) + Acks(b)
    decreases |b|
  {
    if b == [] {
      assert a + b == a;
    } else {
      var c, e := b[..|b| - 1], b[|b| - 1];
      assert (a + b)[..|a + b| - 1] == a + c;
      AcksJoin(a, c);
    }
  }

  lemma NoAcks(log: seq<Event>)
    requires forall e | e in log :: !e.SentCloseAck?
    ensures Acks(log) == []
  {
    if log != [] {
      NoAcks(log[..|log| - 1]);
    }
  }

  /** The closes a peer sent to the stream while it lived. */
  function Closes(s: Stream, run: seq<Step>): seq<Reason>
    decreases |run|
  {
    if run == [] then []
    else (if !s.closed && run[0].op.PeerClose? then [run[0].op.reason] else []) + Closes(Apply(s, run[0]), run[1..])
  }

  lemma OthersSayNoAck(s: Stream, st: Step)
    requires s.closed || !st.op.PeerClose?
    ensures forall e | e in Charted(s, st).says :: !e.SentCloseAck?
  {
    hide Farewell;
    FarewellIsNoAck(s.hooked, NORMAL);
    FarewellIsNoAck(s.hooked, TIMEOUT);
    FarewellIsNoAck(s.hooked, s.reason);
    if st.op.Finalise? {
      FarewellIsNoAck(s.hooked, st.op.reason);
    }
  }

  lemma FarewellIsNoAck(hooked: bool, reason: Reason)
    ensures forall e | e in Farewell(hooked, reason) :: !e.SentCloseAck?
  {
  }

  lemma PeerCloseSaysAck(s: Stream, reason: Reason, clock: int)
    requires !s.closed
    ensures var says := OnPeerClose(s, reason, clock).says;
      && |says| > 0 && says[0] == SentCloseAck(reason)
      && forall e | e in says[1..] :: !e.SentCloseAck?
  {
  }

  lemma StepAcknowledges(s: Stream, st: Step)
    requires Shaped(s)
    ensures Acks(Apply(s, st).log) ==
      Acks(s.log) + if !s.closed && st.op.PeerClose? then [st.op.reason] else []
  {
    hide Apply, Acks, Shaped, OnPeerClose, OnFire, OnCloseCall, OnPeerCloseAck, OnPayload, OnRecv, Ends;
    StepFollowsChart(s, st);
    var says := Charted(s, st).says;
    AcksJoin(s.log, says);
    if !s.closed && st.op.PeerClose? {
      PeerCloseSaysAck(s, st.op.reason, st.clock);
      var rest := says[1..];
      assert says == [SentCloseAck(st.op.reason)] + rest;
      AcksJoin([SentCloseAck(st.op.reason)], rest);
      OneAck(st.op.reason);
      NoAcks(rest);
    } else {
      OthersSayNoAck(s, st);
      NoAcks(says);
    }
  }

  lemma OneAck(reason: Reason)
    ensures Acks([SentCloseAck(reason)]) == [reason]
  {
    assert [SentCloseAck(reason)][..0] == [];
  }

  /** Over any run, each close that a peer sends to a live stream is acknowledged, once, with its reason. */
  lemma {:induction false} ClosesAreAcknowledged(s: Stream, up: bool, clock: int, run: seq<Step>)
    requires Kept(s, up, clock) && Plausible(s, up, clock, run)
    ensures Acks(After(s, run).log) == Acks(s.log) + Closes(s, run)
    decreases |run|
  {
    hide Apply, Acks;
    if run != [] {
      var t := Apply(s, run[0]);
      StepAcknowledges(s, run[0]);
      ApplyKeeps(s, run[0], up, clock);
      ClosesAreAcknowledged(t, run[0].up, run[0].clock, run[1..]);
    }
  }

  // Announcements.

  /** The step sends a STREAM_CLOSE. */
  ghost predicate Announcing(s: Stream, st: Step) {
    |s.log| <= |Apply(s, st).log| && exists e :: e in Apply(s, st).log[|s.log|..] && e.SentClose?
  }

  /** An announcement has been made no earlier than `time`, and another waits for the timer. */
  ghost predicate Committed(s: Stream, time: int) {
    match StageOf(s)
    case Awaiting(_, _, since) => time <= since
    case Ending(_) => true
    case Over => true
    case _ => false
  }

  lemma StepCommits(s: Stream, st: Step)
    requires Shaped(s) && Announcing(s, st)
    ensures Committed(Apply(s, st), st.clock)
  {
    hide Apply;
    StepFollowsChart(s, st);
    assert Apply(s, st).log[|s.log|..] == Charted(s, st).says;
  }

  lemma FarewellAnnouncesNothing(hooked: bool, reason: Reason)
    ensures forall e | e in Farewell(hooked, reason) :: !e.SentClose?
  {
  }

  lemma CommitmentStays(s: Stream, st: Step, time: int)
    requires Shaped(s) && Committed(s, time) && time <= st.clock && st.now <= st.clock
    ensures Committed(Apply(s, st), time)
    ensures Announcing(s, st) ==> Passed(time, s.config.ctrlTimeout, st.clock)
  {
    hide Apply, Shaped, Farewell;
    StepFollowsChart(s, st);
    assert Apply(s, st).log[|s.log|..] == Charted(s, st).says;
    FarewellAnnouncesNothing(s.hooked, s.reason);
    if st.op.PeerClose? || st.op.Finalise? {
      FarewellAnnouncesNothing(s.hooked, st.op.reason);
    }
  }

  lemma {:induction false} CommittedUntil(s: Stream, up: bool, clock: int, run: seq<Step>, j: nat, time: int)
    requires Kept(s, up, clock) && Plausible(s, up, clock, run) && j < |run|
    requires Committed(s, time) && time <= clock && Announcing(After(s, run[..j]), run[j])
    ensures Passed(time, After(s, run[..j]).config.ctrlTimeout, run[j].clock)
    decreases |run|
  {
    hide Apply, Announcing, Committed, Passed, Kept;
    CommitmentStays(s, run[0], time) by { KeptIsShaped(s, up, clock); }
    if j == 0 {
      assert run[..j] == [];
    } else {
      ApplyKeeps(s, run[0], up, clock);
      assert run[..j][0] == run[0] && run[..j][1..] == run[1..][..j - 1];
      CommittedUntil(Apply(s, run[0]), run[0].up, run[0].clock, run[1..], j - 1, time);
    }
  }

  lemma KeptIsShaped(s: Stream, up: bool, clock: int)
    requires Kept(s, up, clock)
    ensures Shaped(s)
  {
  }

  /**
    Over any run, between one announcement of a close and a later one the
    control timeout has passed.
   */
  lemma {:induction false} AnnouncementsAreApart(s: Stream, up: bool, clock: int, run: seq<Step>, i: nat, j: nat)
    requires Kept(s, up, clock) && Plausible(s, up, clock, run) && i < j < |run|
    requires Announcing(After(s, run[..i]), run[i]) && Announcing(After(s, run[..j]), run[j])
    ensures Passed(run[i].clock, After(s, run[..j]).config.ctrlTimeout, run[j].clock)
    decreases |run|
  {
    hide Apply, Announcing, Committed, Passed, Kept;
    var t := Apply(s, run[0]);
    ApplyKeeps(s, run[0], up, clock);
    assert run[..j][0] == run[0] && run[..j][1..] == run[1..][..j - 1];
    if i == 0 {
      assert run[..0] == [];
      KeptIsShaped(s, up, clock);
      StepCommits(s, run[0]);
      CommittedUntil(t, run[0].up, run[0].clock, run[1..], j - 1, run[0].clock);
    } else {
      assert run[..i][0] == run[0] && run[..i][1..] == run[1..][..i - 1];
      AnnouncementsAreApart(t, run[0].up, run[0].clock, run[1..], i - 1, j - 1);
    }
  }
}

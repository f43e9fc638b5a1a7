/**
  A run of the kind that module GracefulClose is about: a message is sent and
  acknowledged, the sender closes, the receiver reads what is left and is
  finalised.
 */
module GracefulRun {
  import Kcp
  import SendPath
  import opened Stream
  import opened StreamRuns
  import Steps = StreamSteps
  import G = GracefulClose

  const CONFIG := Config(100, 3, 1000, 100, 10, 5, 1)
  const ENV := G.Env(true, 0, 0, 9)
  const MESSAGE: Kcp.Message := [7]
  const DATA := Kcp.Packet(map[0 := MESSAGE], {})
  const ACK := Kcp.Packet(map[], {0})

  // The sender's end.

  function Opened(): Stream {
    New(1, true, CONFIG, true, true, 0, 9)
  }

  function Sent(): Stream {
    SendData(Opened(), MESSAGE, 1, true, true, 0, 9)
  }

  function Acked(): Stream {
    HandlePayload(Sent(), Kcp.Input(Sent().kcp, ACK), true, 0)
  }

  function Announced(): Stream {
    Close(Acked(), true, 0, 9)
  }

  // The receiver's end.

  function Received(): Stream {
    G.Created(New(1, false, CONFIG, true, true, 0, 9), DATA, true, true, ENV)
  }

  function Draining(): Stream {
    HandleClose(Received(), NORMAL, true, 0, 9)
  }

  function Drained(): Stream {
    Recv(Draining(), 10, true, 0)
  }

  function Finalised(): Stream {
    FireTimer(Drained(), true, 0, 0, 9)
  }

  lemma SentIs()
    ensures Sent().kcp == Kcp.Session([MESSAGE], {}, map[], 0) && Sent().state == Open && !Sent().closed
    ensures Sent().upSent == 1 && Sent().config == CONFIG && Sent().registered && Sent().log == []
  {
    AcceptedAtOnce();
  }

  lemma AcceptedAtOnce()
    ensures SendPath.Accepted(MESSAGE, CONFIG.mss, 1) == [MESSAGE] && |SendPath.Flatten([MESSAGE])| == 1
  {
    assert MESSAGE[..1] == MESSAGE && MESSAGE[1..] == [];
    assert SendPath.Chunks(MESSAGE, CONFIG.mss) == [MESSAGE];
    assert [MESSAGE][..1] == [MESSAGE] && [MESSAGE][1..] == [];
  }

  lemma AckedIs()
    ensures Acked().kcp == Kcp.Session([MESSAGE], {0}, map[], 0) && Acked().state == Open && !Acked().closed
    ensures Acked().upSent == 1 && Acked().config == CONFIG && Acked().registered && Acked().log == []
  {
    hide Sent;
    SentIs();
    assert Kcp.Input(Sent().kcp, ACK).acked == {0};
  }

  lemma AnnouncedIs()
    ensures SentClose(NORMAL) in Announced().log
  {
    hide Acked;
    AckedIs();
  }

  lemma ReceivedIs()
    ensures Received().kcp == Kcp.Session([], {}, map[0 := MESSAGE], 0) && Received().state == Open
    ensures !Received().closed && Shaped(Received())
  {
  }

  lemma DrainingIs()
    ensures Draining().kcp == Received().kcp && Draining().state == Closing && Draining().phase == RemoteDrain
    ensures !Draining().closed && Draining().registered
  {
    hide Received, HandleClose;
    ReceivedIs();
    Steps.HandleCloseIsCareful(Received(), NORMAL, true, 0, 9);
  }

  lemma DrainedIs()
    ensures Drained().kcp == Kcp.Session([], {}, map[0 := MESSAGE], 1) && Drained().state == Closing
    ensures Drained().phase == Finalize && !Drained().closed && Drained().alarm == Alarm(G.Timer.InHeap, 0)
  {
    hide Draining, Received;
    ReceivedIs();
    DrainingIs();
  }

  lemma FinalisedIs()
    ensures Finalised().closed && Finalised().kcp == Drained().kcp
  {
    hide Drained;
    DrainedIs();
  }

  // The run.

  function End(s: Stream, peerClosed: bool): G.End {
    G.Present(s, peerClosed, false)
  }

  const NET1: set<(G.Side, G.Datagram)> := {(G.Right, G.Data(DATA))}

  function Net2(): set<(G.Side, G.Datagram)> {
    NET1 + G.Wire(G.Right, Received().log)
  }

  function Net3(): set<(G.Side, G.Datagram)> {
    Net2() + {(G.Left, G.Data(ACK))}
  }

  function Net4(): set<(G.Side, G.Datagram)> {
    Net3() + G.Wire(G.Left, Announced().log)
  }

  function Net5(): set<(G.Side, G.Datagram)> {
    Net4() + G.Wire(G.Right, Draining().log)
  }

  function States(): seq<G.System> {
    [ G.System(End(Opened(), false), G.Absent, {}),
      G.System(End(Sent(), false), G.Absent, {}),
      G.System(End(Sent(), false), G.Absent, NET1),
      G.System(End(Sent(), false), End(Received(), false), Net2()),
      G.System(End(Sent(), false), End(Received(), false), Net3()),
      G.System(End(Acked(), false), End(Received(), false), Net3()),
      G.System(End(Announced(), false), End(Received(), false), Net4()),
      G.System(End(Announced(), false), End(Draining(), true), Net5()),
      G.System(End(Announced(), false), End(Drained(), true), Net5()),
      G.System(End(Announced(), false), End(Finalised(), true), Net5() + G.Wire(G.Right, Finalised().log)) ]
  }

  function Labels(): seq<G.Label> {
    [ G.Label(G.Left, G.AppSends(MESSAGE, 1, true), ENV),
      G.Label(G.Left, G.Transmit(DATA), ENV),
      G.Label(G.Right, G.FirstPayload(DATA, DATA, true, 1, CONFIG, true, true), ENV),
      G.Label(G.Right, G.Transmit(ACK), ENV),
      G.Label(G.Left, G.PayloadArrives(ACK, ACK, true), ENV),
      G.Label(G.Left, G.Operate(G.AppCloses), ENV),
      G.Label(G.Right, G.Operate(G.CloseArrives(NORMAL)), ENV),
      G.Label(G.Right, G.AppReads(10, true), ENV),
      G.Label(G.Right, G.Operate(G.TimerFires), ENV) ]
  }

  ghost predicate Moves(s: G.System, l: G.Label, t: G.System) {
    G.Next(s, l.side, l.action, l.env, t)
  }

  lemma Starts()
    ensures G.Init(G.System(End(Opened(), false), G.Absent, {}))
  {
    hide New;
  }

  lemma Sends()
    ensures Moves(States()[0], Labels()[0], States()[1])
  {
    hide New, SendData, Received, Acked, Announced, Draining, Drained, Finalised, Net2, Net3, Net4, Net5;
  }

  lemma Transmits()
    ensures Moves(States()[1], Labels()[1], States()[2])
  {
    hide Opened, Sent, Received, Acked, Announced, Draining, Drained, Finalised;
    SentIs();
  }

  lemma Creates()
    ensures Moves(States()[2], Labels()[2], States()[3])
  {
    hide Opened, Sent, New, G.Created, Acked, Announced, Draining, Drained, Finalised;
  }

  lemma Acknowledges()
    ensures Moves(States()[3], Labels()[3], States()[4])
  {
    hide Opened, Sent, Received, Acked, Announced, Draining, Drained, Finalised, Net2;
    ReceivedIs();
  }

  lemma HearsAck()
    ensures Moves(States()[4], Labels()[4], States()[5])
  {
    hide Opened, Sent, Received, HandlePayload, Announced, Draining, Drained, Finalised, Net2;
  }

  lemma Closes()
    ensures Moves(States()[5], Labels()[5], States()[6])
  {
    hide Opened, Sent, Received, Acked, Close, Draining, Drained, Finalised, Net3;
    AckedIs();
  }

  lemma HearsClose()
    ensures Moves(States()[6], Labels()[6], States()[7])
  {
    hide Opened, Sent, Received, Acked, Announced, HandleClose, Drained, Finalised, Net3;
    ReceivedIs();
    AnnouncedIs();
  }

  lemma Reads()
    ensures Moves(States()[7], Labels()[7], States()[8])
  {
    hide Opened, Sent, Received, Acked, Announced, Draining, Recv, Finalised, Net5;
  }

  lemma Ends()
    ensures Moves(States()[8], Labels()[8], States()[9])
  {
    hide Opened, Sent, Received, Acked, Announced, Draining, Drained, FireTimer, Net5;
    DrainedIs();
  }

  /** Such runs exist, so the theorem about them says something. */
  lemma GracefulCloseHappens()
    ensures G.IsRun(States(), Labels())
    ensures var e := G.At(States()[9], G.Right); e.Present? && e.s.closed && e.peerClosed && !e.quit && e.s.kcp.taken == 1
  {
    hide Opened, Sent, Received, Acked, Announced, Draining, Drained, Finalised, Net2, Net3, Net4, Net5, G.Next, G.Init;
    Starts();
    forall i | 0 <= i < 9 ensures Moves(States()[i], Labels()[i], States()[i + 1]) {
      match i {
        case 0 => Sends();
        case 1 => Transmits();
        case 2 => Creates();
        case 3 => Acknowledges();
        case 4 => HearsAck();
        case 5 => Closes();
        case 6 => HearsClose();
        case 7 => Reads();
        case _ => Ends();
      }
    }
    FinalisedIs();
    DrainedIs();
  }
}

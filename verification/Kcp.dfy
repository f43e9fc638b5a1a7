/**
  KCP as this library uses it: a reliable, ordered message transport whose
  internals are hidden behind an operations table (include/kcpmux/kcpmux_kcp.h).
  Every message handed to it fits one segment, so messages are numbered in the
  order of sending and acknowledged by number.
 */
module Kcp {

  newtype byte = x: int | 0 <= x < 256

  type Message = seq<byte>

  /**
    One end of a KCP session: what was accepted for sending, which of it the
    peer has acknowledged, what has arrived by number, and how many messages
    the application has taken.
   */
  datatype Session = Session(sent: seq<Message>, acked: set<int>, arrived: map<int, Message>, taken: int)

  /** What a datagram carries: segments by number, and acknowledgements. */
  datatype Packet = Packet(pushes: map<int, Message>, acks: set<int>)

  const FRESH := Session([], {}, map[], 0)

  /** Number of messages not yet acknowledged. */
  function WaitSnd(k: Session): int {
    |k.sent| - |k.acked|
  }

  /** Size of the next message in order, negative when it has not arrived. */
  function PeekSize(k: Session): int {
    if k.taken in k.arrived then |k.arrived[k.taken]| else -1
  }

  predicate Readable(k: Session) {
    PeekSize(k) > 0
  }

  function Send(k: Session, m: Message): Session {
    k.(sent := k.sent + [m])
  }

  /** Segments that arrived before are kept; acknowledgements for unsent numbers are ignored. */
  function Input(k: Session, p: Packet): Session {
    k.(arrived := p.pushes + k.arrived, acked := k.acked + set i | i in p.acks && 0 <= i < |k.sent|)
  }

  function Recv(k: Session): Session {
    k.(taken := k.taken + 1)
  }

  /** The messages the application has taken, in order. */
  function Taken(k: Session): (ms: seq<Message>)
    requires 0 <= k.taken && forall i | 0 <= i < k.taken :: i in k.arrived
    ensures |ms| == k.taken && forall i | 0 <= i < k.taken :: ms[i] == k.arrived[i]
  {
    seq(k.taken, i requires 0 <= i < k.taken => k.arrived[i])
  }
}

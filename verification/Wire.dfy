/**
  The wire format (src/kcpmux_protocol.c): one encoding per message type, the
  checks made on input, and the byte-order helpers that fill the buffers.
 */
module Wire {
  import opened Kcp

  type Bytes = seq<byte>

  const MSG_MAX: int := 1500
  const EXT_MAX: int := 512
  const COMMON: int := 9
  const VERSION: byte := 4

  const T_CONNECT: byte := 0x81
  const T_CONNECT_ACK: byte := 0x82
  const T_KEEPALIVE: byte := 0x83
  const T_CLOSE: byte := 0x84
  const T_CLOSE_ACK: byte := 0x85
  const T_STREAM_CLOSE: byte := 0x93
  const T_STREAM_CLOSE_ACK: byte := 0x94
  const T_STREAM_PAYLOAD: byte := 0xa1

  datatype Message =
    | Connect(source: int, version: byte, ext: Bytes)
    | ConnectAck(dest: int, source: int, version: byte, result: byte, ext: Bytes)
    | Keepalive(dest: int, time: int, sequence: int)
    | Close(dest: int, reason: byte)
    | CloseAck(dest: int, reason: byte)
    | StreamClose(dest: int, stream: int, reason: byte)
    | StreamCloseAck(dest: int, stream: int, reason: byte)
    | StreamPayload(dest: int, stream: int, data: Bytes)

  // Big-endian numbers.

  function Pow256(n: nat): (p: int)
    ensures p > 0
  {
    if n == 0 then 1 else 256 * Pow256(n - 1)
  }

  function Number(bs: Bytes): (v: int)
    ensures v >= 0
  {
    if bs == [] then 0 else Number(bs[..|bs| - 1]) * 256 + bs[|bs| - 1] as int
  }

  function BigEndian(n: nat, v: int): (bs: Bytes)
    requires v >= 0
    ensures |bs| == n
  {
    if n == 0 then [] else BigEndian(n - 1, v / 256) + [(v % 256) as byte]
  }

  predicate Fits(v: int, n: nat) {
    0 <= v < Pow256(n)
  }

  lemma {:induction false} NumberOfBigEndian(n: nat, v: int)
    requires Fits(v, n)
    ensures Number(BigEndian(n, v)) == v
  {
    if n > 0 {
      NumberOfBigEndian(n - 1, v / 256);
      assert BigEndian(n, v)[..n - 1] == BigEndian(n - 1, v / 256);
    }
  }

  lemma {:induction false} BigEndianOfNumber(bs: Bytes)
    ensures Fits(Number(bs), |bs|) && BigEndian(|bs|, Number(bs)) == bs
  {
    if bs != [] {
      BigEndianOfNumber(bs[..|bs| - 1]);
      assert bs == bs[..|bs| - 1] + [bs[|bs| - 1]];
    }
  }

  // Encoding.

  predicate Encodable(m: Message) {
    match m
    case Connect(source, _, ext) => source != 0 && Fits(source, 8) && |ext| <= EXT_MAX
    case ConnectAck(dest, source, _, _, ext) =>
      dest != 0 && source != 0 && Fits(dest, 8) && Fits(source, 8) && |ext| <= EXT_MAX
    case Keepalive(dest, time, sequence) => dest != 0 && Fits(dest, 8) && Fits(time, 4) && Fits(sequence, 4)
    case Close(dest, _) => dest != 0 && Fits(dest, 8)
    case CloseAck(dest, _) => dest != 0 && Fits(dest, 8)
    case StreamClose(dest, stream, _) => dest != 0 && stream != 0 && Fits(dest, 8) && Fits(stream, 4)
    case StreamCloseAck(dest, stream, _) => dest != 0 && stream != 0 && Fits(dest, 8) && Fits(stream, 4)
    case StreamPayload(dest, stream, _) => dest != 0 && stream != 0 && Fits(dest, 8) && Fits(stream, 4)
  }

  function Common(t: byte, dest: int): (bs: Bytes)
    requires dest >= 0
    ensures |bs| == COMMON
  {
    [t] + BigEndian(8, dest)
  }

  function Encode(m: Message): Bytes
    requires Encodable(m)
  {
    match m
    case Connect(source, version, ext) =>
      Common(T_CONNECT, 0) + BigEndian(8, source) + [version] + BigEndian(2, |ext|) + ext
    case ConnectAck(dest, source, version, result, ext) =>
      Common(T_CONNECT_ACK, dest) + BigEndian(8, source) + [version, result] + BigEndian(2, |ext|) + ext
    case Keepalive(dest, time, sequence) =>
      Common(T_KEEPALIVE, dest) + BigEndian(4, time) + BigEndian(4, sequence)
    case Close(dest, reason) => Common(T_CLOSE, dest) + [reason]
    case CloseAck(dest, reason) => Common(T_CLOSE_ACK, dest) + [reason]
    case StreamClose(dest, stream, reason) => Common(T_STREAM_CLOSE, dest) + BigEndian(4, stream) + [reason]
    case StreamCloseAck(dest, stream, reason) => Common(T_STREAM_CLOSE_ACK, dest) + BigEndian(4, stream) + [reason]
    case StreamPayload(dest, stream, data) => Common(T_STREAM_PAYLOAD, dest) + BigEndian(4, stream) + data
  }

  // The bytes by position.

  function U16At(p: Bytes, i: nat): int
    requires i + 2 <= |p|
  {
    p[i] as int * 256 + p[i + 1] as int
  }

  function U32At(p: Bytes, i: nat): int
    requires i + 4 <= |p|
  {
    p[i] as int * 0x100_0000 + p[i + 1] as int * 0x1_0000 + p[i + 2] as int * 0x100 + p[i + 3] as int
  }

  function U64At(p: Bytes, i: nat): int
    requires i + 8 <= |p|
  {
    U32At(p, i) * 0x1_0000_0000 + U32At(p, i + 4)
  }

  lemma NumberOf2(bs: Bytes)
    requires |bs| == 2
    ensures Number(bs) == U16At(bs, 0)
  {
    var a := bs[..1];
    assert a[..0] == [] && bs[..1] == a;
    assert Number(a) == Number(a[..0]) * 256 + a[0] as int;
  }

  lemma NumberOf4(bs: Bytes)
    requires |bs| == 4
    ensures Number(bs) == U32At(bs, 0)
  {
    var a, b := bs[..2], bs[..3];
    NumberOf2(a);
    assert b[..2] == a && bs[..3] == b;
    assert Number(b) == Number(a) * 256 + b[2] as int;
  }

  lemma NumberOf8(bs: Bytes)
    requires |bs| == 8
    ensures Number(bs) == U64At(bs, 0)
  {
    hide Number;
    var a, b, c, d := bs[..4], bs[..5], bs[..6], bs[..7];
    NumberOf4(a);
    NumberGrows(b);
    NumberGrows(c);
    NumberGrows(d);
    NumberGrows(bs);
    assert b[..4] == a && c[..5] == b && d[..6] == c && bs[..7] == d;
  }

  lemma NumberGrows(bs: Bytes)
    requires bs != []
    ensures Number(bs) == Number(bs[..|bs| - 1]) * 256 + bs[|bs| - 1] as int
  {
  }

  /** A number as it stands in a buffer, from position `i`. */
  lemma StandsAt(p: Bytes, i: nat, n: nat, v: int)
    requires Fits(v, n) && i + n <= |p| && p[i..i + n] == BigEndian(n, v)
    ensures n == 2 ==> U16At(p, i) == v
    ensures n == 4 ==> U32At(p, i) == v
    ensures n == 8 ==> U64At(p, i) == v
  {
    hide Number, BigEndian, Pow256;
    NumberOfBigEndian(n, v);
    var bs := p[i..i + n];
    if n == 2 {
      NumberOf2(bs);
    } else if n == 4 {
      NumberOf4(bs);
    } else if n == 8 {
      NumberOf8(bs);
    }
  }

  function TypeOf(m: Message): int {
    match m
    case Connect(_, _, _) => 129
    case ConnectAck(_, _, _, _, _) => 130
    case Keepalive(_, _, _) => 131
    case Close(_, _) => 132
    case CloseAck(_, _) => 133
    case StreamClose(_, _, _) => 147
    case StreamCloseAck(_, _, _) => 148
    case StreamPayload(_, _, _) => 161
  }

  /** Where everything is in a message, numbers with their most significant byte first. */
  ghost predicate LaidOut(m: Message, p: Bytes) {
    && |p| >= 9 && p[0] as int == TypeOf(m) && U64At(p, 1) == (if m.Connect? then 0 else m.dest)
    && match m
       case Connect(source, version, ext) =>
         |p| == 20 + |ext| && U64At(p, 9) == source && p[17] == version && U16At(p, 18) == |ext| && p[20..] == ext
       case ConnectAck(_, source, version, result, ext) =>
         && |p| == 21 + |ext| && U64At(p, 9) == source && p[17] == version && p[18] == result
         && U16At(p, 19) == |ext| && p[21..] == ext
       case Keepalive(_, time, sequence) => |p| == 17 && U32At(p, 9) == time && U32At(p, 13) == sequence
       case Close(_, reason) => |p| == 10 && p[9] == reason
       case CloseAck(_, reason) => |p| == 10 && p[9] == reason
       case StreamClose(_, stream, reason) => |p| == 14 && U32At(p, 9) == stream && p[13] == reason
       case StreamCloseAck(_, stream, reason) => |p| == 14 && U32At(p, 9) == stream && p[13] == reason
       case StreamPayload(_, stream, data) => |p| == 13 + |data| && U32At(p, 9) == stream && p[13..] == data
  }

  lemma HeaderIsLaidOut(t: byte, dest: int, body: Bytes)
    requires Fits(dest, 8)
    ensures var p := Common(t, dest) + body; p[0] == t && U64At(p, 1) == dest && p[9..] == body
  {
    hide BigEndian, Pow256, U64At;
    var p := Common(t, dest) + body;
    assert p[1..9] == BigEndian(8, dest);
    StandsAt(p, 1, 8, dest);
  }

  lemma ConnectIsLaidOut(m: Message)
    requires Encodable(m) && (m.Connect? || m.ConnectAck?)
    ensures LaidOut(m, Encode(m))
  {
    hide BigEndian, Pow256, U64At, U16At, Common;
    PowersAreLarge();
    var p := Encode(m);
    match m {
      case Connect(source, version, ext) =>
        var body := BigEndian(8, source) + [version] + BigEndian(2, |ext|) + ext;
        assert p == Common(T_CONNECT, 0) + body;
        HeaderIsLaidOut(T_CONNECT, 0, body);
        assert p[9..17] == body[..8] == BigEndian(8, source) && p[18..20] == body[9..11] == BigEndian(2, |ext|);
        StandsAt(p, 9, 8, source);
        StandsAt(p, 18, 2, |ext|);
      case ConnectAck(dest, source, version, result, ext) =>
        var body := BigEndian(8, source) + [version, result] + BigEndian(2, |ext|) + ext;
        assert p == Common(T_CONNECT_ACK, dest) + body;
        HeaderIsLaidOut(T_CONNECT_ACK, dest, body);
        assert p[9..17] == body[..8] == BigEndian(8, source) && p[19..21] == body[10..12] == BigEndian(2, |ext|);
        StandsAt(p, 9, 8, source);
        StandsAt(p, 19, 2, |ext|);
    }
  }

  lemma ControlIsLaidOut(m: Message)
    requires Encodable(m) && (m.Keepalive? || m.Close? || m.CloseAck?)
    ensures LaidOut(m, Encode(m))
  {
    hide BigEndian, Pow256, U64At, U32At, Common;
    var p := Encode(m);
    match m {
      case Keepalive(dest, time, sequence) =>
        var body := BigEndian(4, time) + BigEndian(4, sequence);
        assert p == Common(T_KEEPALIVE, dest) + body;
        HeaderIsLaidOut(T_KEEPALIVE, dest, body);
        assert p[9..13] == BigEndian(4, time) && p[13..17] == BigEndian(4, sequence);
        StandsAt(p, 9, 4, time);
        StandsAt(p, 13, 4, sequence);
      case Close(dest, reason) => HeaderIsLaidOut(T_CLOSE, dest, [reason]);
      case CloseAck(dest, reason) => HeaderIsLaidOut(T_CLOSE_ACK, dest, [reason]);
    }
  }

  lemma StreamIsLaidOut(t: byte, dest: int, stream: int, rest: Bytes)
    requires Fits(dest, 8) && Fits(stream, 4)
    ensures var p := Common(t, dest) + BigEndian(4, stream) + rest;
      |p| == 13 + |rest| && p[0] == t && U64At(p, 1) == dest && U32At(p, 9) == stream && p[13..] == rest
  {
    hide BigEndian, Pow256, U64At, U32At, Common;
    var p, body := Common(t, dest) + BigEndian(4, stream) + rest, BigEndian(4, stream) + rest;
    assert p == Common(t, dest) + body;
    HeaderIsLaidOut(t, dest, body);
    assert p[9..13] == BigEndian(4, stream);
    StandsAt(p, 9, 4, stream);
  }

  /** Every message stands in its datagram byte by byte as the protocol lays it down. */
  lemma EncodingIsLaidOut(m: Message)
    requires Encodable(m)
    ensures LaidOut(m, Encode(m))
  {
    hide BigEndian, Pow256, U64At, U32At, U16At, Common;
    match m {
      case StreamClose(dest, stream, reason) => StreamIsLaidOut(T_STREAM_CLOSE, dest, stream, [reason]);
      case StreamCloseAck(dest, stream, reason) => StreamIsLaidOut(T_STREAM_CLOSE_ACK, dest, stream, [reason]);
      case StreamPayload(dest, stream, data) => StreamIsLaidOut(T_STREAM_PAYLOAD, dest, stream, data);
      case Connect(_, _, _) => ConnectIsLaidOut(m);
      case ConnectAck(_, _, _, _, _) => ConnectIsLaidOut(m);
      case _ => ControlIsLaidOut(m);
    }
  }

  // Decoding, with the checks that input makes.

  datatype Parsed = Malformed | Parsed(message: Message)

  function Decode(p: Bytes): Parsed {
    if |p| < COMMON then Malformed
    else
      var t, dest, body := p[0], Number(p[1..9]), p[9..];
      if t == T_CONNECT then if dest != 0 then Malformed else DecodeConnect(body)
      else if dest == 0 then Malformed
      else if t == T_CONNECT_ACK then DecodeConnectAck(dest, body)
      else if t == T_KEEPALIVE then
        if |body| < 8 then Malformed else Parsed(Keepalive(dest, Number(body[..4]), Number(body[4..8])))
      else if t == T_CLOSE then if |body| < 1 then Malformed else Parsed(Close(dest, body[0]))
      else if t == T_CLOSE_ACK then if |body| < 1 then Malformed else Parsed(CloseAck(dest, body[0]))
      else DecodeStream(t, dest, body)
  }

  function DecodeConnect(body: Bytes): Parsed {
    if |body| < 11 then Malformed
    else
      var source, version, length := Number(body[..8]), body[8], Number(body[9..11]);
      if source == 0 || length > EXT_MAX || |body| < 11 + length then Malformed
      else Parsed(Connect(source, version, body[11..11 + length]))
  }

  function DecodeConnectAck(dest: int, body: Bytes): Parsed {
    if |body| < 12 then Malformed
    else
      var source, version, result, length := Number(body[..8]), body[8], body[9], Number(body[10..12]);
      if source == 0 || length > EXT_MAX || |body| < 12 + length then Malformed
      else Parsed(ConnectAck(dest, source, version, result, body[12..12 + length]))
  }

  function DecodeStream(t: byte, dest: int, body: Bytes): Parsed {
    if |body| < 4 || Number(body[..4]) == 0 then Malformed
    else
      var stream := Number(body[..4]);
      if t == T_STREAM_PAYLOAD then Parsed(StreamPayload(dest, stream, body[4..]))
      else if |body| < 5 then Malformed
      else if t == T_STREAM_CLOSE then Parsed(StreamClose(dest, stream, body[4]))
      else if t == T_STREAM_CLOSE_ACK then Parsed(StreamCloseAck(dest, stream, body[4]))
      else Malformed
  }

  lemma CommonParses(t: byte, dest: int, body: Bytes)
    requires Fits(dest, 8)
    ensures var p := Common(t, dest) + body;
      |p| >= COMMON && p[0] == t && Number(p[1..9]) == dest && p[9..] == body
  {
    NumberOfBigEndian(8, dest);
    assert (Common(t, dest) + body)[1..9] == BigEndian(8, dest);
  }

  /** What a receiver makes of a message followed by other bytes. */
  function WithTail(m: Message, tail: Bytes): Message {
    if m.StreamPayload? then m.(data := m.data + tail) else m
  }

  lemma ConnectRoundTrip(source: int, version: byte, ext: Bytes, tail: Bytes)
    requires Encodable(Connect(source, version, ext))
    ensures Decode(Encode(Connect(source, version, ext)) + tail) == Parsed(Connect(source, version, ext))
  {
    hide Number, BigEndian, Pow256, Common;
    var body := BigEndian(8, source) + [version] + BigEndian(2, |ext|) + ext + tail;
    assert Encode(Connect(source, version, ext)) + tail == Common(T_CONNECT, 0) + body;
    PowersAreLarge();
    CommonParses(T_CONNECT, 0, body);
    NumberOfBigEndian(8, source);
    NumberOfBigEndian(2, |ext|);
    assert body[..8] == BigEndian(8, source) && body[9..11] == BigEndian(2, |ext|) && body[11..11 + |ext|] == ext;
  }

  lemma ConnectAckRoundTrip(dest: int, source: int, version: byte, result: byte, ext: Bytes, tail: Bytes)
    requires Encodable(ConnectAck(dest, source, version, result, ext))
    ensures Decode(Encode(ConnectAck(dest, source, version, result, ext)) + tail)
         == Parsed(ConnectAck(dest, source, version, result, ext))
  {
    hide Number, BigEndian, Pow256, Common;
    var body := BigEndian(8, source) + [version, result] + BigEndian(2, |ext|) + ext + tail;
    assert Encode(ConnectAck(dest, source, version, result, ext)) + tail == Common(T_CONNECT_ACK, dest) + body;
    PowersAreLarge();
    CommonParses(T_CONNECT_ACK, dest, body);
    NumberOfBigEndian(8, source);
    NumberOfBigEndian(2, |ext|);
    assert body[..8] == BigEndian(8, source) && body[10..12] == BigEndian(2, |ext|) && body[12..12 + |ext|] == ext;
  }

  lemma ControlRoundTrip(m: Message, tail: Bytes)
    requires Encodable(m) && (m.Keepalive? || m.Close? || m.CloseAck?)
    ensures Decode(Encode(m) + tail) == Parsed(m)
  {
    hide Number, BigEndian, Pow256, Common;
    match m {
      case Keepalive(dest, time, sequence) =>
        var body := BigEndian(4, time) + BigEndian(4, sequence) + tail;
        assert Encode(m) + tail == Common(T_KEEPALIVE, dest) + body;
        CommonParses(T_KEEPALIVE, dest, body);
        NumberOfBigEndian(4, time);
        NumberOfBigEndian(4, sequence);
        assert body[..4] == BigEndian(4, time) && body[4..8] == BigEndian(4, sequence);
      case Close(dest, reason) =>
        assert Encode(m) + tail == Common(T_CLOSE, dest) + ([reason] + tail);
        CommonParses(T_CLOSE, dest, [reason] + tail);
      case CloseAck(dest, reason) =>
        assert Encode(m) + tail == Common(T_CLOSE_ACK, dest) + ([reason] + tail);
        CommonParses(T_CLOSE_ACK, dest, [reason] + tail);
    }
  }

  lemma StreamRoundTrip(m: Message, tail: Bytes)
    requires Encodable(m) && (m.StreamClose? || m.StreamCloseAck? || m.StreamPayload?)
    ensures Decode(Encode(m) + tail) == Parsed(WithTail(m, tail))
  {
    hide Number, BigEndian, Pow256, Common;
    match m {
      case StreamClose(dest, stream, reason) => StreamParses(T_STREAM_CLOSE, dest, stream, [reason], tail);
      case StreamCloseAck(dest, stream, reason) => StreamParses(T_STREAM_CLOSE_ACK, dest, stream, [reason], tail);
      case StreamPayload(dest, stream, data) => StreamParses(T_STREAM_PAYLOAD, dest, stream, data, tail);
    }
  }

  /** Every message is recovered; trailing bytes matter to STREAM_PAYLOAD alone. */
  lemma DecodeEncode(m: Message, tail: Bytes)
    requires Encodable(m)
    ensures Decode(Encode(m) + tail) == Parsed(WithTail(m, tail))
  {
    hide Decode, Encode, Encodable;
    match m {
      case Connect(source, version, ext) => ConnectRoundTrip(source, version, ext, tail);
      case ConnectAck(dest, source, version, result, ext) =>
        ConnectAckRoundTrip(dest, source, version, result, ext, tail);
      case Keepalive(_, _, _) => ControlRoundTrip(m, tail);
      case Close(_, _) => ControlRoundTrip(m, tail);
      case CloseAck(_, _) => ControlRoundTrip(m, tail);
      case StreamClose(_, _, _) => StreamRoundTrip(m, tail);
      case StreamCloseAck(_, _, _) => StreamRoundTrip(m, tail);
      case StreamPayload(_, _, _) => StreamRoundTrip(m, tail);
    }
  }

  // The converse: what is accepted is an encoding, possibly with a tail.

  lemma CommonRebuilds(p: Bytes)
    requires |p| >= COMMON
    ensures Fits(Number(p[1..9]), 8) && p == Common(p[0], Number(p[1..9])) + p[9..]
  {
    hide Number, BigEndian, Pow256;
    BigEndianOfNumber(p[1..9]);
  }

  lemma ConnectRebuilds(body: Bytes)
    requires DecodeConnect(body).Parsed?
    ensures var m := DecodeConnect(body).message;
      m.Connect? && Encodable(m) && Common(T_CONNECT, 0) + body == Encode(m) + body[11 + |m.ext|..]
  {
    hide Number, BigEndian, Pow256, Common;
    var n := Number(body[9..11]);
    BigEndianOfNumber(body[..8]);
    BigEndianOfNumber(body[9..11]);
    assert body == body[..8] + [body[8]] + body[9..11] + body[11..11 + n] + body[11 + n..];
  }

  lemma ConnectAckRebuilds(dest: int, body: Bytes)
    requires dest != 0 && Fits(dest, 8) && DecodeConnectAck(dest, body).Parsed?
    ensures var m := DecodeConnectAck(dest, body).message;
      m.ConnectAck? && Encodable(m) && Common(T_CONNECT_ACK, dest) + body == Encode(m) + body[12 + |m.ext|..]
  {
    hide Number, BigEndian, Pow256, Common;
    var n := Number(body[10..12]);
    BigEndianOfNumber(body[..8]);
    BigEndianOfNumber(body[10..12]);
    assert body == body[..8] + [body[8], body[9]] + body[10..12] + body[12..12 + n] + body[12 + n..];
  }

  lemma StreamRebuilds(t: byte, dest: int, body: Bytes)
    requires dest != 0 && Fits(dest, 8) && DecodeStream(t, dest, body).Parsed?
    ensures var m := DecodeStream(t, dest, body).message;
      Encodable(m) && Common(t, dest) + body == Encode(m) + if m.StreamPayload? then [] else body[5..]
  {
    hide Number, BigEndian, Pow256, Common;
    BigEndianOfNumber(body[..4]);
    assert body == body[..4] + body[4..];
    assert |body| >= 5 ==> body[4..] == [body[4]] + body[5..];
  }

  lemma ControlRebuilds(p: Bytes)
    requires Decode(p).Parsed? && (p[0] == T_KEEPALIVE || p[0] == T_CLOSE || p[0] == T_CLOSE_ACK)
    ensures Encodable(Decode(p).message) && Encode(Decode(p).message) <= p
  {
    hide Number, BigEndian, Pow256, Common;
    CommonRebuilds(p);
    var body := p[9..];
    if p[0] == T_KEEPALIVE {
      BigEndianOfNumber(body[..4]);
      BigEndianOfNumber(body[4..8]);
      assert body == body[..4] + body[4..8] + body[8..];
    } else {
      assert body == [body[0]] + body[1..];
    }
  }

  /** Input is accepted exactly as the message whose encoding it starts with, or is for a payload. */
  lemma AcceptedIsEncoded(p: Bytes)
    requires Decode(p).Parsed?
    ensures var m := Decode(p).message;
      Encodable(m) && Encode(m) <= p && (m.StreamPayload? ==> Encode(m) == p)
  {
    hide Number, BigEndian, Pow256, Common, Encode, Encodable, DecodeConnect, DecodeConnectAck, DecodeStream;
    CommonRebuilds(p);
    var dest := Number(p[1..9]);
    if p[0] == T_CONNECT {
      ConnectRebuilds(p[9..]);
    } else if p[0] == T_CONNECT_ACK {
      ConnectAckRebuilds(dest, p[9..]);
    } else if p[0] == T_KEEPALIVE || p[0] == T_CLOSE || p[0] == T_CLOSE_ACK {
      ControlRebuilds(p);
    } else {
      StreamRebuilds(p[0], dest, p[9..]);
    }
  }

  /** No generated message exceeds the limit: extensions are capped, and a KCP segment is its header and at most one MSS. */
  lemma MessagesFit(m: Message, mss: int)
    requires Encodable(m) && mss <= 1463 && (m.StreamPayload? ==> |m.data| <= mss + 24)
    ensures |Encode(m)| <= MSG_MAX
  {
  }

  lemma StreamParses(t: byte, dest: int, stream: int, rest: Bytes, tail: Bytes)
    requires Fits(dest, 8) && Fits(stream, 4)
    ensures var p := Common(t, dest) + BigEndian(4, stream) + rest + tail;
      |p| >= 13 && p[0] == t && Number(p[1..9]) == dest && Number(p[9..][..4]) == stream && p[9..][4..] == rest + tail
  {
    hide Number, BigEndian, Pow256;
    var body := BigEndian(4, stream) + (rest + tail);
    assert Common(t, dest) + BigEndian(4, stream) + rest + tail == Common(t, dest) + body;
    CommonParses(t, dest, body);
    NumberOfBigEndian(4, stream);
    assert body[..4] == BigEndian(4, stream);
  }

  lemma PowersAreLarge()
    ensures Pow256(2) == 0x1_0000 && Fits(0, 8)
  {
    assert Pow256(1) == 256;
  }

  // The buffers.

  lemma DivideTwice(v: int, p: int)
    requires v >= 0 && p > 0
    ensures (v / 256) / p == v / (256 * p)
  {
    var x := v / 256;
    var y := x / p;
    assert p * y <= x < p * y + p;
    assert 256 * (p * y) == (256 * p) * y;
    QuotientIs(v, 256 * p, y);
  }

  lemma QuotientIs(a: int, b: int, q: int)
    requires b > 0 && b * q <= a < b * q + b
    ensures a / b == q
  {
    var r := a / b;
    assert b * r <= a < b * r + b;
    assert r < q ==> b * (r + 1) <= b * q;
    assert r > q ==> b * (q + 1) <= b * r;
  }

  /** The byte at `i` is the number shifted right by the bytes after it. */
  lemma {:induction false} ByteAt(n: nat, v: int, i: nat)
    requires v >= 0 && i < n
    ensures BigEndian(n, v)[i] as int == v / Pow256(n - 1 - i) % 256
  {
    if i < n - 1 {
      ByteAt(n - 1, v / 256, i);
      DivideTwice(v, Pow256(n - 2 - i));
    }
  }

  method WriteU64(buf: array<byte>, at: nat, v: int)
    requires Fits(v, 8) && at + 8 <= buf.Length
    modifies buf
    ensures buf[..at + 8] == old(buf[..at]) + BigEndian(8, v)
  {
    hide BigEndian, Pow256;
    for i := 0 to 8
      invariant buf[..at] == old(buf[..at]) && buf[at..at + i] == BigEndian(8, v)[..i]
    {
      ByteAt(8, v, i);
      buf[at + i] := (v / Pow256(7 - i) % 256) as byte;
    }
    assert buf[..at + 8] == buf[..at] + buf[at..at + 8];
  }

  method WriteU32(buf: array<byte>, at: nat, v: int)
    requires Fits(v, 4) && at + 4 <= buf.Length
    modifies buf
    ensures buf[..at + 4] == old(buf[..at]) + BigEndian(4, v)
  {
    SmallPowers();
    ByteAt(4, v, 0);
    ByteAt(4, v, 1);
    ByteAt(4, v, 2);
    ByteAt(4, v, 3);
    hide BigEndian, Pow256;
    buf[at] := (v / 0x100_0000 % 256) as byte;
    buf[at + 1] := (v / 0x1_0000 % 256) as byte;
    buf[at + 2] := (v / 0x100 % 256) as byte;
    buf[at + 3] := (v % 256) as byte;
    assert buf[..at + 4] == buf[..at] + [buf[at], buf[at + 1], buf[at + 2], buf[at + 3]];
    assert BigEndian(4, v) == [buf[at], buf[at + 1], buf[at + 2], buf[at + 3]];
  }

  method WriteU16(buf: array<byte>, at: nat, v: int)
    requires Fits(v, 2) && at + 2 <= buf.Length
    modifies buf
    ensures buf[..at + 2] == old(buf[..at]) + BigEndian(2, v)
  {
    SmallPowers();
    ByteAt(2, v, 0);
    ByteAt(2, v, 1);
    hide BigEndian, Pow256;
    buf[at] := (v / 0x100 % 256) as byte;
    buf[at + 1] := (v % 256) as byte;
    assert buf[..at + 2] == buf[..at] + [buf[at], buf[at + 1]];
    assert BigEndian(2, v) == [buf[at], buf[at + 1]];
  }

  lemma SmallPowers()
    ensures Pow256(0) == 1 && Pow256(1) == 0x100 && Pow256(2) == 0x1_0000 && Pow256(3) == 0x100_0000
  {
  }

  method ReadU64(buf: Bytes) returns (v: int)
    requires |buf| >= 8
    ensures v == Number(buf[..8])
  {
    v := 0;
    for i := 0 to 8
      invariant v == Number(buf[..i])
    {
      assert buf[..i + 1][..i] == buf[..i];
      v := v * 256 + buf[i] as int;
    }
  }

  /** memcpy to the end of what has been written. */
  method WriteBytes(buf: array<byte>, at: nat, data: Bytes)
    requires at + |data| <= buf.Length
    modifies buf
    ensures buf[..at + |data|] == old(buf[..at]) + data
  {
    for i := 0 to |data|
      invariant buf[..at] == old(buf[..at]) && buf[at..at + i] == data[..i]
    {
      buf[at + i] := data[i];
    }
    assert buf[..at + |data|] == buf[..at] + buf[at..at + |data|];
  }

  method WriteCommon(buf: array<byte>, t: byte, dest: int)
    requires buf.Length >= COMMON && Fits(dest, 8)
    modifies buf
    ensures buf[..COMMON] == Common(t, dest)
  {
    buf[0] := t;
    WriteU64(buf, 1, dest);
    assert buf[..COMMON] == buf[..1 + 8];
  }

  const INVALID_PARAM: int := 42
  const STATE: int := 200

  /** A datagram handed to the socket, or an error instead. */
  datatype Sending = Refused(status: int) | Sent(datagram: Bytes)

  method SendConnect(local: int, ext: Bytes) returns (r: Sending)
    requires local != 0 && Fits(local, 8) && |ext| <= EXT_MAX
    ensures r == Sent(Encode(Connect(local, VERSION, ext)))
  {
    hide BigEndian, Pow256, Common;
    PowersAreLarge();
    var length := COMMON + 11 + |ext|;
    var buf := new byte[MSG_MAX](_ => 0);
    WriteCommon(buf, T_CONNECT, 0);
    WriteU64(buf, COMMON, local);
    WriteBytes(buf, COMMON + 8, [VERSION]);
    WriteU16(buf, COMMON + 9, |ext|);
    WriteBytes(buf, COMMON + 11, ext);
    return Sent(buf[..length]);
  }

  method SendConnectAck(peer: int, local: int, result: byte, ext: Bytes) returns (r: Sending)
    requires peer != 0 && local != 0 && Fits(peer, 8) && Fits(local, 8) && |ext| <= EXT_MAX
    ensures r == Sent(Encode(ConnectAck(peer, local, VERSION, result, ext)))
  {
    hide BigEndian, Pow256, Common;
    PowersAreLarge();
    var length := COMMON + 12 + |ext|;
    var buf := new byte[MSG_MAX](_ => 0);
    WriteCommon(buf, T_CONNECT_ACK, peer);
    WriteU64(buf, COMMON, local);
    WriteBytes(buf, COMMON + 8, [VERSION, result]);
    WriteU16(buf, COMMON + 10, |ext|);
    WriteBytes(buf, COMMON + 12, ext);
    return Sent(buf[..length]);
  }

  method SendKeepalive(peer: int, time: int, sequence: int) returns (r: Sending)
    requires peer != 0 && Fits(peer, 8) && Fits(time, 4) && Fits(sequence, 4)
    ensures r == Sent(Encode(Keepalive(peer, time, sequence)))
  {
    hide BigEndian, Pow256, Common;
    var buf := new byte[COMMON + 8](_ => 0);
    WriteCommon(buf, T_KEEPALIVE, peer);
    WriteU32(buf, COMMON, time);
    WriteU32(buf, COMMON + 4, sequence);
    return Sent(buf[..COMMON + 8]);
  }

  /** Before the handshake completes there is no peer to name, and no CLOSE is emitted. */
  method SendClose(peer: int, reason: byte) returns (r: Sending)
    requires Fits(peer, 8)
    ensures r == if peer == 0 then Refused(-STATE) else Sent(Encode(Close(peer, reason)))
  {
    hide BigEndian, Pow256, Common;
    if peer == 0 {
      return Refused(-STATE);
    }
    var buf := new byte[COMMON + 1](_ => 0);
    WriteCommon(buf, T_CLOSE, peer);
    WriteBytes(buf, COMMON, [reason]);
    return Sent(buf[..COMMON + 1]);
  }

  /** An acknowledgement is emitted even without a peer, and is then one that no receiver accepts. */
  method SendCloseAck(peer: int, reason: byte) returns (r: Sending)
    requires Fits(peer, 8)
    ensures r.Sent? && Decode(r.datagram) == if peer == 0 then Malformed else Parsed(CloseAck(peer, reason))
  {
    hide BigEndian, Pow256, Common, Number;
    var buf := new byte[COMMON + 1](_ => 0);
    WriteCommon(buf, T_CLOSE_ACK, peer);
    WriteBytes(buf, COMMON, [reason]);
    CommonParses(T_CLOSE_ACK, peer, [reason]);
    return Sent(buf[..COMMON + 1]);
  }

  method SendStreamClose(peer: int, stream: int, reason: byte, ack: bool) returns (r: Sending)
    requires peer != 0 && stream != 0 && Fits(peer, 8) && Fits(stream, 4)
    ensures r == Sent(Encode(if ack then StreamCloseAck(peer, stream, reason) else StreamClose(peer, stream, reason)))
  {
    hide BigEndian, Pow256, Common;
    var buf := new byte[COMMON + 5](_ => 0);
    WriteCommon(buf, if ack then T_STREAM_CLOSE_ACK else T_STREAM_CLOSE, peer);
    WriteU32(buf, COMMON, stream);
    WriteBytes(buf, COMMON + 4, [reason]);
    return Sent(buf[..COMMON + 5]);
  }

  /** The header and KCP's segment go to the socket as two fragments. */
  method SendStreamPayload(peer: int, stream: int, segment: Bytes) returns (r: Sending)
    requires peer != 0 && stream != 0 && Fits(peer, 8) && Fits(stream, 4)
    ensures r == if segment == [] || |segment| > MSG_MAX - 13 then Refused(-INVALID_PARAM)
                 else Sent(Encode(StreamPayload(peer, stream, segment)))
  {
    hide BigEndian, Pow256, Common;
    if |segment| == 0 || COMMON + 4 + |segment| > MSG_MAX {
      return Refused(-INVALID_PARAM);
    }
    var header := new byte[COMMON + 4](_ => 0);
    WriteCommon(header, T_STREAM_PAYLOAD, peer);
    WriteU32(header, COMMON, stream);
    return Sent(header[..COMMON + 4] + segment);
  }
}

/**
  The send path of a stream (src/kcpmux_stream.c): data, contiguous or in
  fragments, is cut into messages of at most `mss` bytes that are handed to
  KCP one by one until it refuses one.
 */
module SendPath {
  import Kcp

  type Bytes = seq<Kcp.byte>

  const INT_MAX: int := 0x7FFF_FFFF
  const INVALID_PARAM: int := 42

  /** The status code for a KCP return value. */
  function KcpError(ret: int): int {
    300 - ret
  }

  function Flatten(iov: seq<Bytes>): Bytes {
    if iov == [] then [] else iov[0] + Flatten(iov[1..])
  }

  function Min(a: int, b: int): int {
    if a < b then a else b
  }

  /** The messages that `data` is cut into. */
  function Chunks(data: Bytes, mss: int): (ms: seq<Bytes>)
    requires mss > 0
    decreases |data|
  {
    if data == [] then []
    else var n := Min(|data|, mss); [data[..n]] + Chunks(data[n..], mss)
  }

  /** What a KCP that takes `room` more messages accepts of it. */
  function Accepted(data: Bytes, mss: int, room: nat): (ms: seq<Bytes>)
    requires mss > 0
  {
    Chunks(data, mss)[..Min(room, |Chunks(data, mss)|)]
  }

  /** Sends that are turned away unseen. */
  predicate Invalid(data: Bytes, flush: bool) {
    |data| > INT_MAX || (|data| == 0 && !flush)
  }

  /** What KCP accepts is nothing at all or comes to some bytes, in messages none of which is empty. */
  lemma AcceptedIsSound(data: Bytes, mss: int, room: nat)
    requires mss > 0
    ensures var got := Accepted(data, mss, room);
      && (forall m | m in got :: m != []) && (got == [] <==> |Flatten(got)| == 0)
      && (got == [] <==> data == [] || room == 0)
  {
    var got, all := Accepted(data, mss, room), Chunks(data, mss);
    forall m | m in got ensures m != [] {
      var i :| 0 <= i < |got| && got[i] == m;
      ChunkSizes(data, mss, i);
    }
    if got != [] {
      assert got[0] in got;
    }
  }

  /** What the caller is told: bytes accepted, or KCP's error if it refused at once. */
  function Told(data: Bytes, mss: int, room: nat, code: int): int
    requires mss > 0
  {
    if data != [] && room == 0 then -KcpError(code) else |Flatten(Accepted(data, mss, room))|
  }

  lemma {:induction false} FlattenAppend(a: seq<Bytes>, b: seq<Bytes>)
    ensures Flatten(a + b) == Flatten(a) + Flatten(b)
  {
    if a == [] {
      assert a + b == b;
    } else {
      assert (a + b)[1..] == a[1..] + b;
      FlattenAppend(a[1..], b);
    }
  }

  /** Cutting loses nothing: the messages joined are the data. */
  lemma {:induction false} ChunksJoin(data: Bytes, mss: int)
    requires mss > 0
    ensures Flatten(Chunks(data, mss)) == data
    decreases |data|
  {
    if data != [] {
      var n := Min(|data|, mss);
      ChunksJoin(data[n..], mss);
      var rest := Chunks(data[n..], mss);
      assert Chunks(data, mss)[1..] == rest;
      assert data == data[..n] + data[n..];
    }
  }

  /** Every message is full except possibly the last, and none is empty. */
  lemma {:induction false} ChunkSizes(data: Bytes, mss: int, i: nat)
    requires mss > 0 && i < |Chunks(data, mss)|
    ensures 0 < |Chunks(data, mss)[i]| <= mss
    ensures i < |Chunks(data, mss)| - 1 ==> |Chunks(data, mss)[i]| == mss
    decreases |data|
  {
    var n := Min(|data|, mss);
    if i > 0 {
      ChunkSizes(data[n..], mss, i - 1);
    }
  }

  /** The accepted messages joined are a prefix of the data, of the length the caller is told. */
  lemma AcceptedIsPrefix(data: Bytes, mss: int, room: nat, code: int)
    requires mss > 0
    ensures var got := Flatten(Accepted(data, mss, room));
      got <= data && (data == [] || room > 0 ==> Told(data, mss, room, code) == |got|)
  {
    var cs := Chunks(data, mss);
    var k := Min(room, |cs|);
    assert cs == cs[..k] + cs[k..];
    FlattenAppend(cs[..k], cs[k..]);
    ChunksJoin(data, mss);
  }

  // The cursor into a list of fragments.

  predicate Cursor(iov: seq<Bytes>, index: int, offset: int) {
    0 <= index <= |iov| && 0 <= offset && if index < |iov| then offset <= |iov[index]| else offset == 0
  }

  /** What is left after the cursor. */
  function Rest(iov: seq<Bytes>, index: int, offset: int): (r: Bytes)
    requires Cursor(iov, index, offset)
    ensures index == |iov| ==> r == []
  {
    if index == |iov| then [] else iov[index][offset..] + Flatten(iov[index + 1..])
  }

  lemma NextFragment(iov: seq<Bytes>, index: int)
    requires 0 <= index < |iov|
    ensures Rest(iov, index + 1, 0) == Flatten(iov[index + 1..])
  {
    if index + 1 < |iov| {
      assert iov[index + 1..][1..] == iov[index + 2..];
    }
  }

  /** Moving the cursor within a fragment, or to the next one at its end. */
  lemma MoveCursor(iov: seq<Bytes>, index: int, offset: int, take: int)
    requires Cursor(iov, index, offset) && index < |iov| && 0 <= take <= |iov[index]| - offset
    ensures var done := offset + take == |iov[index]|;
      var i, o := if done then index + 1 else index, if done then 0 else offset + take;
      && Cursor(iov, i, o)
      && take <= |Rest(iov, index, offset)|
      && Rest(iov, index, offset)[..take] == iov[index][offset..offset + take]
      && Rest(iov, i, o) == Rest(iov, index, offset)[take..]
  {
    NextFragment(iov, index);
    var item, tail := iov[index], Flatten(iov[index + 1..]);
    assert (item[offset..] + tail)[take..] == item[offset + take..] + tail;
  }

  lemma RestFromStart(iov: seq<Bytes>)
    ensures Rest(iov, 0, 0) == Flatten(iov)
  {
    if iov != [] {
      assert iov[0][0..] == iov[0];
    }
  }

  datatype Mode = Contiguous | Native | Scratch

  /** A send in progress, with the KCP it feeds. */
  class Sender {
    // KCP: takes `room` more messages, then fails with `code`.
    var messages: seq<Bytes>
    var room: nat
    const code: int
    // Contiguous data.
    const buf: Bytes
    var bufOffset: int
    // Fragmented data.
    const iov: seq<Bytes>
    var index: int
    var offset: int
    const scratch: array<Kcp.byte>

    ghost predicate Valid()
      reads this
    {
      0 <= bufOffset <= |buf| && Cursor(iov, index, offset) && code < 0
    }

    ghost function Left(mode: Mode): Bytes
      requires Valid()
      reads this
    {
      if mode == Contiguous then buf[bufOffset..] else Rest(iov, index, offset)
    }

    constructor (messages: seq<Bytes>, room: nat, code: int, buf: Bytes, iov: seq<Bytes>, mss: nat)
      requires code < 0
      ensures Valid() && this.messages == messages && this.room == room && this.code == code
      ensures this.buf == buf && this.iov == iov && bufOffset == 0 && index == 0 && offset == 0
      ensures scratch.Length == mss && fresh(scratch)
    {
      this.messages, this.room, this.code := messages, room, code;
      this.buf, bufOffset, this.iov, index, offset := buf, 0, iov, 0, 0;
      scratch := new Kcp.byte[mss](_ => 0);
    }

    /** KCP's contiguous send. */
    method KcpSend(data: Bytes) returns (ret: int)
      requires code < 0
      modifies this`messages, this`room
      ensures if old(room) == 0 then ret == code && messages == old(messages) && room == 0
              else ret >= 0 && messages == old(messages) + [data] && room == old(room) - 1
    {
      if room == 0 {
        return code;
      }
      messages := messages + [data];
      room := room - 1;
      return 0;
    }

    /** Moves the cursor over `size` bytes and any empty fragments that follow. */
    method VectoredAdvance(size: int)
      requires Valid() && 0 <= size <= |Rest(iov, index, offset)|
      modifies this`index, this`offset
      ensures Valid() && Rest(iov, index, offset) == old(Rest(iov, index, offset))[size..]
      ensures index < |iov| ==> iov[index] != []
    {
      hide Rest;
      ghost var all := Rest(iov, index, offset);
      var left := size;
      while left > 0
        invariant Valid() && 0 <= left <= size <= |all| && Rest(iov, index, offset) == all[size - left..]
        decreases |iov| - index + left
      {
        var item := iov[index];
        var available := |item| - offset;
        var take := Min(available, left);
        MoveCursor(iov, index, offset, take);
        offset := offset + take;
        left := left - take;
        if offset == |item| {
          index := index + 1;
          offset := 0;
        }
      }
      while index < |iov| && iov[index] == []
        invariant Valid() && Rest(iov, index, offset) == all[size..]
        decreases |iov| - index
      {
        MoveCursor(iov, index, offset, 0);
        index := index + 1;
      }
    }

    /** Gathers the next `size` bytes into the scratch buffer without moving the cursor. */
    method VectoredCopy(size: int)
      requires Valid() && 0 <= size <= |Rest(iov, index, offset)| && size <= scratch.Length
      modifies scratch
      ensures scratch[..size] == Rest(iov, index, offset)[..size]
    {
      hide Rest;
      ghost var all := Rest(iov, index, offset);
      var i, o, dest := index, offset, 0;
      while dest < size
        invariant Cursor(iov, i, o) && 0 <= dest <= size && Rest(iov, i, o) == all[dest..]
        invariant scratch[..dest] == all[..dest]
        decreases |iov| - i + size - dest
      {
        var item := iov[i];
        var take := Min(|item| - o, size - dest);
        MoveCursor(iov, i, o, take);
        CopyInto(dest, item[o..o + take]);
        assert all[..dest + take] == all[..dest] + all[dest..][..take];
        dest, o := dest + take, o + take;
        if o == |item| {
          i, o := i + 1, 0;
        }
      }
    }

    /** memcpy into the scratch buffer. */
    method CopyInto(dest: nat, data: Bytes)
      requires dest + |data| <= scratch.Length
      modifies scratch
      ensures scratch[..dest + |data|] == old(scratch[..dest]) + data
    {
      for k := 0 to |data|
        invariant scratch[..dest] == old(scratch[..dest]) && scratch[dest..dest + k] == data[..k]
      {
        scratch[dest + k] := data[k];
      }
      assert scratch[..dest + |data|] == scratch[..dest] + scratch[dest..dest + |data|];
    }

    /** Hands KCP the next `size` bytes as one message. */
    method SendChunk(mode: Mode, size: int) returns (ret: int)
      requires Valid() && 0 < size <= |Left(mode)| && size <= scratch.Length
      modifies this, scratch
      ensures Valid()
      ensures if old(room) == 0
              then ret == code && messages == old(messages) && room == 0 && Left(mode) == old(Left(mode))
              else ret >= 0 && messages == old(messages) + [old(Left(mode))[..size]] && room == old(room) - 1
                   && Left(mode) == old(Left(mode))[size..]
    {
      hide Rest;
      match mode {
        case Contiguous =>
          ret := KcpSend(buf[bufOffset..][..size]);
          if ret >= 0 {
            bufOffset := bufOffset + size;
          }
        case Native =>
          // KCP gathers the message itself.
          ret := KcpSendV(size);
          if ret >= 0 {
            VectoredAdvance(size);
          }
        case Scratch =>
          VectoredCopy(size);
          ret := KcpSend(scratch[..size]);
          if ret >= 0 {
            VectoredAdvance(size);
          }
      }
    }

    /** KCP's vectored send: one message of exactly `size` flattened bytes from the cursor on. */
    method KcpSendV(size: int) returns (ret: int)
      requires Valid() && 0 < size <= |Rest(iov, index, offset)|
      modifies this`messages, this`room
      ensures if old(room) == 0 then ret == code && messages == old(messages) && room == 0
              else ret >= 0 && messages == old(messages) + [Rest(iov, index, offset)[..size]] && room == old(room) - 1
    {
      if room == 0 {
        return code;
      }
      messages := messages + [Rest(iov, index, offset)[..size]];
      room := room - 1;
      return 0;
    }

    /** The loop over chunks: what is accepted and what is told depend on the bytes alone. */
    method SendChunks(mode: Mode, size: int, mss: int) returns (r: int)
      requires Valid() && |Left(mode)| == size && 0 < mss <= scratch.Length
      modifies this, scratch
      ensures messages == old(messages) + Accepted(old(Left(mode)), mss, old(room))
      ensures r == Told(old(Left(mode)), mss, old(room), code)
    {
      hide Rest, Chunks;
      ghost var data, had := Left(mode), room;
      var remaining, totalSent := size, 0;
      ghost var sent: seq<Bytes> := [];
      while remaining > 0
        invariant Valid() && 0 <= remaining <= size && totalSent == size - remaining == |Flatten(sent)|
        invariant Left(mode) == data[totalSent..]
        invariant messages == old(messages) + sent && room == had - |sent|
        invariant Chunks(data, mss) == sent + Chunks(data[totalSent..], mss)
        invariant sent == [] ==> totalSent == 0
      {
        var sendSize := Min(remaining, mss);
        var ret := SendChunk(mode, sendSize);
        if ret < 0 {
          AcceptedSoFar(data, mss, had, sent, totalSent);
          if totalSent == 0 {
            return -KcpError(ret);
          }
          break;
        }
        ghost var chunk := data[totalSent..][..sendSize];
        ChunkTaken(data, mss, sent, totalSent, sendSize);
        sent := sent + [chunk];
        totalSent := totalSent + sendSize;
        remaining := remaining - sendSize;
      }
      AcceptedSoFar(data, mss, had, sent, totalSent);
      return totalSent;
    }

    lemma ChunkTaken(data: Bytes, mss: int, sent: seq<Bytes>, done: int, n: int)
      requires mss > 0 && 0 <= done < |data| && n == Min(|data| - done, mss) && |Flatten(sent)| == done
      requires Chunks(data, mss) == sent + Chunks(data[done..], mss)
      ensures var chunk := data[done..][..n];
        Chunks(data, mss) == (sent + [chunk]) + Chunks(data[done + n..], mss) && |Flatten(sent + [chunk])| == done + n
    {
      FlattenAppend(sent, [data[done..][..n]]);
      assert data[done..][n..] == data[done + n..];
    }

    lemma AcceptedSoFar(data: Bytes, mss: int, room: nat, sent: seq<Bytes>, done: int)
      requires mss > 0 && 0 <= done <= |data| && |sent| <= room
      requires Chunks(data, mss) == sent + Chunks(data[done..], mss)
      requires done == |data| || |sent| == room
      ensures Accepted(data, mss, room) == sent
    {
      if done == |data| {
        assert Chunks(data[done..], mss) == [];
      }
    }
  }

  /** A contiguous send, as the application calls it. */
  method StreamSend(messages: seq<Bytes>, room: nat, code: int, buf: Bytes, mss: int, flush: bool)
    returns (r: int, handed: seq<Bytes>)
    requires code < 0 && mss > 0
    ensures (r, handed) == Outcome(buf, messages, room, code, mss, flush)
  {
    if Invalid(buf, flush) {
      return -INVALID_PARAM, messages;
    }
    var sender := new Sender(messages, room, code, buf, [], mss);
    assert sender.Left(Contiguous) == buf;
    r := sender.SendChunks(Contiguous, |buf|, mss);
    handed := sender.messages;
  }

  /** What a send of `data` returns, and the messages KCP holds afterwards. */
  function Outcome(data: Bytes, messages: seq<Bytes>, room: nat, code: int, mss: int, flush: bool): (int, seq<Bytes>)
    requires mss > 0
  {
    if Invalid(data, flush) then (-INVALID_PARAM, messages)
    else (Told(data, mss, room, code), messages + Accepted(data, mss, room))
  }

  /** The size of fragmented data, or something too large if it is. */
  method TotalSize(iov: seq<Bytes>) returns (total: int)
    ensures total == |Flatten(iov)| || (total > INT_MAX && |Flatten(iov)| > INT_MAX)
  {
    total := 0;
    for i := 0 to |iov|
      invariant total == |Flatten(iov[..i])| <= INT_MAX
    {
      assert iov[..i + 1] == iov[..i] + [iov[i]];
      FlattenAppend(iov[..i], [iov[i]]);
      total := total + |iov[i]|;
      if total > INT_MAX {
        assert iov == iov[..i + 1] + iov[i + 1..];
        FlattenAppend(iov[..i + 1], iov[i + 1..]);
        return;
      }
    }
    assert iov[..|iov|] == iov;
  }

  /** A vectored send has the outcome of the contiguous send of the flattened bytes. */
  method StreamSendV(messages: seq<Bytes>, room: nat, code: int, iov: seq<Bytes>, mss: int, flush: bool, native: bool)
    returns (r: int, handed: seq<Bytes>)
    requires code < 0 && mss > 0
    ensures (r, handed) == Outcome(Flatten(iov), messages, room, code, mss, flush)
  {
    var total := TotalSize(iov);
    if total > INT_MAX || (total == 0 && !flush) {
      return -INVALID_PARAM, messages;
    }
    var sender := new Sender(messages, room, code, [], iov, mss);
    RestFromStart(iov);
    sender.VectoredAdvance(0);
    var mode := if native then Native else Scratch;
    assert sender.Left(mode) == Flatten(iov);
    r := sender.SendChunks(mode, total, mss);
    handed := sender.messages;
  }
}

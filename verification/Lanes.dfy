/** One forwarding direction of a bridge session, and the atomic actions the
    dispatcher's pump loop performs on it. */
module Lanes {
  import opened Bytes

  const BUFFER_LIMIT: nat := 16384
  const TOTAL_BUFFER_LIMIT: nat := 262144
  const DIRECTION_BUDGET: nat := 32

  /** Which way a lane forwards: from the public socket to the backend's host
      socket, or back. */
  datatype Way = ToBackend | ToPublic

  /** The first group of fields is the kernel's; the second describes the two
      sockets the lane joins; the third is the history of the byte streams.

      readable is the readiness flag of the source side, writable that of the
      destination side.  buffer is the whole allocation while held. */
  datatype Lane = Lane(
    readable: bool, writable: bool,
    held: bool, buffer: seq<Byte>, offset: nat, length: nat,
    bytes: nat, done: bool, waiting: bool,

    input: bool,     // the source has unread bytes or an unread end of stream
    room: bool,      // the destination accepts at least one byte

    received: seq<Byte>, sent: seq<Byte>, eof: bool, shut: bool)

  const Idle := Lane(false, false, false, [], 0, 0, 0, false, false, false, false, [], [], false, false)

  predicate Pending(l: Lane) {
    l.offset < l.length
  }

  /** Nothing to do for this lane until its flags or waiting mark change. */
  predicate Blocked(l: Lane) {
    || l.done
    || (Pending(l) && !l.writable)
    || (!Pending(l) && (l.waiting || !l.readable))
  }

  /** What the dispatcher leaves true of a lane between two of its actions. */
  ghost predicate StreamOk(l: Lane) {
    && BufferOk(l)
    && l.received == l.sent + l.buffer[l.offset..l.length]
    && l.bytes == |l.sent|
  }

  ghost predicate BufferOk(l: Lane) {
    && l.offset <= l.length <= |l.buffer|
    && |l.buffer| == (if l.held then BUFFER_LIMIT else 0)
    && (l.offset == l.length ==> l.offset == 0)
  }

  // ----- the pump's actions, in program order -----

  function TakeWritable(l: Lane): Lane { l.(writable := false) }

  /** The socket call: n bytes leave the buffer; room is what is left of the
      destination's space. */
  function Send(l: Lane, n: nat, room: bool): Lane
    requires l.offset + n <= |l.buffer|
  {
    l.(sent := l.sent + l.buffer[l.offset..l.offset + n], room := room)
  }

  /** What the loop does after a send of n bytes returned. */
  function AfterSend(l: Lane, n: nat): Lane {
    var offset := l.offset + n;
    l.(writable := true,
       offset := if offset == l.length then 0 else offset,
       length := if offset == l.length then 0 else l.length,
       bytes := l.bytes + n)
  }

  function TakeReadable(l: Lane): Lane { l.(readable := false) }

  /** acquire_buffer when the budget allows it; fresh memory reads as zero. */
  function Acquire(l: Lane): Lane {
    if l.held then l else l.(held := true, buffer := seq(BUFFER_LIMIT, _ => 0 as Byte))
  }

  /** The budget is exhausted: put the flag back and wait for a buffer. */
  function AwaitBuffer(l: Lane): Lane { l.(readable := true, waiting := true) }

  /** The socket call: data overwrites the front of the buffer. */
  function Receive(l: Lane, data: seq<Byte>, input: bool): Lane
    requires |data| <= |l.buffer|
  {
    l.(buffer := data + l.buffer[|data|..], received := l.received + data, input := input)
  }

  /** What the loop does after a receive of n bytes returned. */
  function AfterReceive(l: Lane, n: nat): Lane { l.(readable := true, length := n) }

  function Release(l: Lane): Lane { l.(held := false, buffer := []) }

  function EndOfStream(l: Lane): Lane { l.(eof := true, input := false) }

  /** The half-close of the destination succeeded. */
  function HalfClosed(l: Lane): Lane { l.(shut := true, done := true) }

  // ----- the stream invariant, action by action -----

  lemma SendSplits(l: Lane, n: nat, room: bool)
    requires StreamOk(l) && 0 < n <= l.length - l.offset
    ensures l.received == Send(l, n, room).sent + l.buffer[l.offset + n..l.length]
  {
    MoveSlice(l.sent, l.buffer, l.offset, l.offset + n, l.length);
  }

  lemma AfterSendKeeps(l: Lane, n: nat)
    requires BufferOk(l) && 0 < n <= l.length - l.offset && l.bytes + n == |l.sent|
    requires l.received == l.sent + l.buffer[l.offset + n..l.length]
    ensures StreamOk(AfterSend(l, n))
  {
    if l.offset + n == l.length {
      assert l.buffer[l.length..l.length] == [];
      assert l.buffer[0..0] == [];
    }
  }

  lemma SendKeepsStream(l: Lane, n: nat, room: bool)
    requires StreamOk(l) && 0 < n <= l.length - l.offset
    ensures StreamOk(AfterSend(Send(l, n, room), n))
  {
    SendSplits(l, n, room);
    AfterSendKeeps(Send(l, n, room), n);
    hide StreamOk, AfterSend;
  }

  lemma MoveSlice(sent: seq<Byte>, buffer: seq<Byte>, a: nat, b: nat, c: nat)
    requires a <= b <= c <= |buffer|
    ensures sent + buffer[a..c] == sent + buffer[a..b] + buffer[b..c]
  {
  }

  lemma ReceiveKeepsStream(l: Lane, data: seq<Byte>, input: bool)
    requires StreamOk(l) && !Pending(l) && l.held && 0 < |data| <= BUFFER_LIMIT
    ensures StreamOk(AfterReceive(Receive(l, data, input), |data|))
    ensures Pending(AfterReceive(Receive(l, data, input), |data|))
  {
    var l' := Receive(l, data, input);
    assert l.buffer[l.offset..l.length] == [];
    assert l'.buffer[0..|data|] == data;
  }

  lemma AcquireReleaseKeepStream(l: Lane)
    requires StreamOk(l) && !Pending(l)
    ensures StreamOk(Acquire(l)) && StreamOk(Release(l))
    ensures l.received == l.sent
  {
    assert l.buffer[l.offset..l.length] == [];
  }
}

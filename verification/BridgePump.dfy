/** One forwarding direction as the kernel keeps it, updated in place by the
    pump loop, with whatever the sockets answer and whoever sets its flags. */
module BridgePump {
  import opened Lists
  import opened Bytes
  import opened Lanes

  /** A status other than success. */
  type ErrorCode = e: int | e != 0 witness -5

  /** What a socket, the allocator or the half-close answers. */
  datatype Answer =
    | Taken(n: nat)                          // at most n bytes go out
    | Filled(first: Byte, rest: seq<Byte>)   // these bytes, as far as the buffer holds them
    | Ended(shut: Option<ErrorCode>)         // end of stream, and what the half-close then answers
    | Again
    | Fault(code: ErrorCode)
    | NoMemory(code: ErrorCode)

  /** One turn of the loop: the flags set by others before it, the answer, and
      the flags set by others after the loop took one and before the turn ends. */
  datatype Happening = Happening(readable: bool, writable: bool, answer: Answer, lateReadable: bool, lateWritable: bool)

  /** Flags set by callbacks and events. */
  function Flagged(l: Lane, h: Happening): Lane {
    l.(readable := l.readable || h.readable, writable := l.writable || h.writable)
  }

  function Late(l: Lane, h: Happening): Lane {
    l.(readable := l.readable || h.lateReadable, writable := l.writable || h.lateWritable)
  }

  /** The lane without flags that may have been set late. */
  function Sooner(l: Lane, h: Happening): Lane {
    l.(readable := l.readable && !h.lateReadable, writable := l.writable && !h.lateWritable)
  }

  // ----- the loop as a function of the lane and the answers -----

  datatype Turned = Turned(lane: Lane, over: bool, status: int, operations: nat)

  function Filling(first: Byte, rest: seq<Byte>): (data: seq<Byte>)
    ensures 0 < |data| <= BUFFER_LIMIT
  {
    [first] + if |rest| < BUFFER_LIMIT then rest else rest[..BUFFER_LIMIT - 1]
  }

  ghost function SendTurned(l: Lane, a: Answer, operations: nat): (t: Turned)
    requires BufferOk(l) && Pending(l)
    ensures BufferOk(t.lane) && t.operations == operations
  {
    match a
    case Taken(n) =>
      var count := if n < l.length - l.offset then n else l.length - l.offset;
      if count == 0 then Turned(l, true, -5, operations)
      else Turned(AfterSend(Send(l, count, false), count), false, 0, operations)
    case Fault(code) => Turned(l, true, code, operations)
    case _ => Turned(l, true, 0, operations)
  }

  ghost function Stored(l: Lane, data: seq<Byte>): (r: Lane)
    requires BufferOk(l) && !Pending(l) && l.held && 0 < |data| <= BUFFER_LIMIT
    ensures BufferOk(r)
  {
    AfterReceive(Receive(l, data, false), |data|)
  }

  ghost function Released(l: Lane): (r: Lane)
    requires BufferOk(l) && !Pending(l) && l.held
    ensures BufferOk(r)
  {
    Release(l)
  }

  /** End of stream, and the half-close if it succeeds. */
  ghost function Finished(l: Lane, shut: bool): (r: Lane)
    requires BufferOk(l)
    ensures BufferOk(r)
  {
    if shut then HalfClosed(EndOfStream(l)) else EndOfStream(l)
  }

  ghost function ReceiveTurned(l: Lane, a: Answer, operations: nat): (t: Turned)
    requires BufferOk(l) && !Pending(l) && l.held
    ensures BufferOk(t.lane) && t.operations == operations
  {
    match a
    case Filled(first, rest) =>
      Turned(Stored(l, Filling(first, rest)), false, 0, operations)
    case Ended(failed) =>
      Turned(Finished(Released(l), failed.None?), true, if failed.Some? then failed.value else 0, operations)
    case Fault(code) => Turned(l, true, code, operations)
    case _ => Turned(Released(l), true, 0, operations)
  }

  /** One turn, with so many bytes of the budget in use. */
  ghost function TurnOf(l: Lane, used: int, h: Happening, before: nat): (t: Turned)
    requires BufferOk(l)
    ensures BufferOk(t.lane) && before <= t.operations <= before + 1 && (!t.over ==> t.operations == before + 1)
  {
    if Pending(l) then
      if !l.writable then Turned(l, true, 0, before) else SendTurned(Late(TakeWritable(l), h), h.answer, before + 1)
    else if l.waiting || !l.readable then Turned(l, true, 0, before)
    else
      var t := Late(TakeReadable(l), h);
      if !l.held && used + BUFFER_LIMIT > TOTAL_BUFFER_LIMIT then Turned(AwaitBuffer(t), true, 0, before)
      else if !l.held && h.answer.NoMemory? then Turned(t, true, h.answer.code, before)
      else ReceiveTurned(Acquire(t), h.answer, before + 1)
  }

  function Holds(l: Lane): nat {
    if l.held then 1 else 0
  }

  /** The loop from a given turn on. */
  ghost function Pumped(l: Lane, used: int, world: nat -> Happening, turn: nat, operations: nat): Turned
    requires BufferOk(l)
    decreases DIRECTION_BUDGET - operations
  {
    if operations >= DIRECTION_BUDGET || l.done then Turned(Flagged(l, world(turn)), true, 0, operations)
    else
      var t := TurnOf(Flagged(l, world(turn)), used, world(turn), operations);
      if t.over then t
      else Pumped(t.lane, used + BUFFER_LIMIT * (Holds(t.lane) - Holds(l)), world, turn + 1, t.operations)
  }

  /** The last turn of that loop. */
  ghost function Last(l: Lane, used: int, world: nat -> Happening, turn: nat, operations: nat): nat
    requires BufferOk(l)
    decreases DIRECTION_BUDGET - operations
  {
    if operations >= DIRECTION_BUDGET || l.done then turn
    else
      var t := TurnOf(Flagged(l, world(turn)), used, world(turn), operations);
      if t.over then turn
      else Last(t.lane, used + BUFFER_LIMIT * (Holds(t.lane) - Holds(l)), world, turn + 1, t.operations)
  }

  /** What every turn of the loop keeps of a lane. */
  ghost predicate LaneOk(l: Lane) {
    StreamOk(l) && (l.done <==> l.shut) && (l.shut ==> l.eof) && (l.eof ==> !l.held)
  }

  /** A turn only adds to the streams; a turn that does not end the loop moves
      at least one byte; one that ends it without an error leaves the lane
      blocked but for flags that others set during the turn, and done only when
      everything was sent. */
  ghost predicate TurnedWell(l: Lane, used: int, h: Happening, t: Turned) {
    && LaneOk(t.lane) && l.received <= t.lane.received && l.sent <= t.lane.sent
    && (t.over && t.status == 0 ==> Blocked(Sooner(t.lane, h)))
    && (t.lane.done ==> t.over && t.status == 0 && t.lane.sent == t.lane.received)
    && (!t.over ==> t.status == 0 && !t.lane.eof && t.lane.waiting == l.waiting && Moved(t.lane) > Moved(l))
    && (t.lane.waiting && !l.waiting ==>
          t.over && t.status == 0 && !l.held && !t.lane.held && used + BUFFER_LIMIT > TOTAL_BUFFER_LIMIT)
    && used + BUFFER_LIMIT * (Holds(t.lane) - Holds(l)) <= TOTAL_BUFFER_LIMIT
  }

  function Moved(l: Lane): nat {
    |l.sent| + |l.received|
  }

  lemma SentWell(l: Lane, used: int, h: Happening, count: nat, n: nat)
    requires LaneOk(l) && !l.eof && 0 < count <= l.length - l.offset <= |l.buffer| - l.offset && used <= TOTAL_BUFFER_LIMIT
    ensures TurnedWell(l, used, h, Turned(AfterSend(Send(Late(TakeWritable(l), h), count, false), count), false, 0, n))
  {
    var k := Late(TakeWritable(l), h);
    KeepsStream(l, k);
    SendKeepsStream(k, count, false);
    hide StreamOk, Blocked;
  }

  lemma SendStopsWell(l: Lane, used: int, h: Happening, status: int, n: nat)
    requires LaneOk(l) && !l.eof && Pending(l) && used <= TOTAL_BUFFER_LIMIT
    ensures TurnedWell(l, used, h, Turned(Late(TakeWritable(l), h), true, status, n))
  {
    KeepsStream(l, Late(TakeWritable(l), h));
    hide StreamOk;
  }

  lemma SendTurnedWell(l: Lane, used: int, h: Happening, n: nat)
    requires LaneOk(l) && !l.eof && Pending(l) && l.writable && used <= TOTAL_BUFFER_LIMIT && BufferOk(Late(TakeWritable(l), h))
    ensures TurnedWell(l, used, h, SendTurned(Late(TakeWritable(l), h), h.answer, n))
  {
    InBuffer(l);
    hide LaneOk, TurnedWell, BufferOk;
    match h.answer
    case Taken(m) =>
      var count := if m < l.length - l.offset then m else l.length - l.offset;
      if count > 0 {
        SentWell(l, used, h, count, n);
      } else {
        SendStopsWell(l, used, h, -5, n);
      }
    case Fault(code) => SendStopsWell(l, used, h, code, n);
    case _ => SendStopsWell(l, used, h, 0, n);
  }

  /** The lane with its buffer, ready to receive. */
  predicate Prepared(l: Lane, k: Lane, used: int, h: Happening) {
    && k == Acquire(Late(TakeReadable(l), h)) && !l.eof && !Pending(l)
    && used <= TOTAL_BUFFER_LIMIT && (l.held || used + BUFFER_LIMIT <= TOTAL_BUFFER_LIMIT)
  }

  lemma PreparedOk(l: Lane, k: Lane, used: int, h: Happening)
    requires LaneOk(l) && Prepared(l, k, used, h)
    ensures StreamOk(k) && k.held && !Pending(k) && !k.eof && LaneOk(k)
  {
    KeepsStream(l, Late(TakeReadable(l), h));
    AcquireReleaseKeepStream(Late(TakeReadable(l), h));
    hide StreamOk;
  }

  lemma StoredWell(l: Lane, k: Lane, used: int, h: Happening, data: seq<Byte>, n: nat)
    requires LaneOk(l) && Prepared(l, k, used, h) && BufferOk(k) && 0 < |data| <= BUFFER_LIMIT
    ensures TurnedWell(l, used, h, Turned(Stored(k, data), false, 0, n))
  {
    PreparedOk(l, k, used, h);
    StoreKeepsStream(k, data);
    hide StreamOk, BufferOk, Blocked;
  }

  lemma FinishedWell(l: Lane, k: Lane, used: int, h: Happening, shut: bool, status: int, n: nat)
    requires LaneOk(l) && Prepared(l, k, used, h) && BufferOk(k) && (shut <==> status == 0)
    ensures TurnedWell(l, used, h, Turned(Finished(Released(k), shut), true, status, n))
  {
    PreparedOk(l, k, used, h);
    ReleaseKeepsStream(k);
    hide StreamOk, BufferOk;
  }

  lemma ReleasedWell(l: Lane, k: Lane, used: int, h: Happening, n: nat)
    requires LaneOk(l) && Prepared(l, k, used, h) && BufferOk(k)
    ensures TurnedWell(l, used, h, Turned(Released(k), true, 0, n))
  {
    PreparedOk(l, k, used, h);
    ReleaseKeepsStream(k);
    hide StreamOk, BufferOk;
  }

  lemma ReceiveFailsWell(l: Lane, k: Lane, used: int, h: Happening, status: int, n: nat)
    requires LaneOk(l) && Prepared(l, k, used, h) && status != 0
    ensures TurnedWell(l, used, h, Turned(k, true, status, n))
  {
    PreparedOk(l, k, used, h);
    hide StreamOk, Blocked;
  }

  lemma ReceiveTurnedWell(l: Lane, k: Lane, used: int, h: Happening, n: nat)
    requires LaneOk(l) && Prepared(l, k, used, h) && BufferOk(k) && !Pending(k) && k.held
    ensures TurnedWell(l, used, h, ReceiveTurned(k, h.answer, n))
  {
    hide LaneOk, TurnedWell, BufferOk, Prepared, Filling, Stored, Finished, Released;
    match h.answer
    case Filled(first, rest) => StoredWell(l, k, used, h, Filling(first, rest), n);
    case Ended(failed) => FinishedWell(l, k, used, h, failed.None?, if failed.Some? then failed.value else 0, n);
    case Fault(code) => ReceiveFailsWell(l, k, used, h, code, n);
    case _ => ReleasedWell(l, k, used, h, n);
  }

  lemma ReleaseKeepsStream(l: Lane)
    requires StreamOk(l) && !Pending(l)
    ensures StreamOk(Release(l)) && l.sent == l.received && StreamOk(EndOfStream(Release(l))) && StreamOk(HalfClosed(EndOfStream(Release(l))))
  {
    AcquireReleaseKeepStream(l);
    assert l.buffer[l.offset..l.length] == [];
  }

  lemma StoreKeepsStream(l: Lane, data: seq<Byte>)
    requires StreamOk(l) && !Pending(l) && l.held && 0 < |data| <= BUFFER_LIMIT
    ensures StreamOk(Stored(l, data))
  {
    ReceiveKeepsStream(l, data, false);
  }

  lemma TurnOfWell(l: Lane, used: int, h: Happening, before: nat)
    requires LaneOk(l) && BufferOk(l) && !l.eof && used <= TOTAL_BUFFER_LIMIT
    ensures TurnedWell(l, used, h, TurnOf(l, used, h, before))
  {
    var k := Late(TakeReadable(l), h);
    KeepsStream(l, k);
    KeepsStream(l, AwaitBuffer(k));
    if Pending(l) && l.writable {
      SendTurnedWell(l, used, h, before + 1);
      hide *;
    } else if !Pending(l) && !l.waiting && l.readable && (l.held || used + BUFFER_LIMIT <= TOTAL_BUFFER_LIMIT)
              && (l.held || !h.answer.NoMemory?) {
      PreparedOk(l, Acquire(k), used, h);
      ReceiveTurnedWell(l, Acquire(k), used, h, before + 1);
      hide *;
    }
    hide StreamOk, SendTurned, ReceiveTurned;
  }

  lemma PumpedStops(l: Lane, used: int, world: nat -> Happening, turn: nat, operations: nat)
    requires BufferOk(l) && (operations >= DIRECTION_BUDGET || l.done)
    ensures Pumped(l, used, world, turn, operations) == Turned(Flagged(l, world(turn)), true, 0, operations)
    ensures Last(l, used, world, turn, operations) == turn
  {
  }

  lemma PumpedStep(l: Lane, used: int, world: nat -> Happening, turn: nat, operations: nat, t: Turned)
    requires BufferOk(l) && operations < DIRECTION_BUDGET && !l.done
    requires BufferOk(Flagged(l, world(turn))) && t == TurnOf(Flagged(l, world(turn)), used, world(turn), operations)
    ensures BufferOk(t.lane)
    ensures Pumped(l, used, world, turn, operations) ==
            if t.over then t
            else Pumped(t.lane, used + BUFFER_LIMIT * (Holds(t.lane) - Holds(l)), world, turn + 1, t.operations)
    ensures Last(l, used, world, turn, operations) ==
            if t.over then turn
            else Last(t.lane, used + BUFFER_LIMIT * (Holds(t.lane) - Holds(l)), world, turn + 1, t.operations)
  {
    hide TurnOf;
  }

  /** What the loop as a whole does: it stays within the operation budget, and
      within the buffer budget; short of the first it ends with an error or a
      lane that is blocked but for flags set during its last turn; every turn
      but possibly the last is one operation; every operation but the last moves
      at least one byte. */
  ghost predicate PumpedWell(l: Lane, used: int, world: nat -> Happening, turn: nat, last: nat, p: Turned, operations: nat) {
    && (last - turn == p.operations - operations || last - turn == p.operations - operations - 1)
    && LaneOk(p.lane) && l.received <= p.lane.received && l.sent <= p.lane.sent && operations <= p.operations <= DIRECTION_BUDGET
    && (p.status == 0 && p.operations < DIRECTION_BUDGET ==> Blocked(Sooner(p.lane, world(last))))
    && (p.lane.done && !l.done ==> p.status == 0 && p.lane.eof && p.lane.sent == p.lane.received)
    && (l.done ==> p.lane == l.(readable := p.lane.readable, writable := p.lane.writable) && p.operations == operations)
    && (p.lane.waiting && !l.waiting ==>
          && p.status == 0 && !p.lane.held
          && used + BUFFER_LIMIT * (Holds(p.lane) - Holds(l)) + BUFFER_LIMIT > TOTAL_BUFFER_LIMIT)
    && Moved(p.lane) + 1 >= Moved(l) + p.operations - operations
    && used + BUFFER_LIMIT * (Holds(p.lane) - Holds(l)) <= TOTAL_BUFFER_LIMIT
  }

  lemma FlagsKeep(l: Lane, h: Happening)
    requires LaneOk(l)
    ensures LaneOk(Flagged(l, h)) && BufferOk(Flagged(l, h)) && BufferOk(l) && Flagged(l, h).eof == l.eof
  {
    InBuffer(l);
    InBuffer(Flagged(l, h));
    KeepsStream(l, Flagged(l, h));
    hide StreamOk;
  }

  lemma LastTurn(l: Lane, used: int, world: nat -> Happening, t: Turned, turn: nat, operations: nat)
    requires !l.done && operations < DIRECTION_BUDGET && operations <= t.operations <= operations + 1 && t.over
    requires TurnedWell(Flagged(l, world(turn)), used, world(turn), t) && LaneOk(t.lane)
    ensures PumpedWell(l, used, world, turn, turn, t, operations)
  {
    hide StreamOk, Blocked;
  }

  lemma MoreTurns(l: Lane, used: int, world: nat -> Happening, t: Turned, turn: nat, last: nat, p: Turned, operations: nat)
    requires !l.done && t.operations == operations + 1 && !t.over && TurnedWell(Flagged(l, world(turn)), used, world(turn), t)
    requires PumpedWell(t.lane, used + BUFFER_LIMIT * (Holds(t.lane) - Holds(l)), world, turn + 1, last, p, t.operations)
    ensures PumpedWell(l, used, world, turn, last, p, operations)
  {
    hide StreamOk, Blocked;
  }

  lemma NoTurn(l: Lane, used: int, world: nat -> Happening, turn: nat, operations: nat)
    requires LaneOk(l) && (l.eof ==> l.done) && used <= TOTAL_BUFFER_LIMIT && operations <= DIRECTION_BUDGET
    requires operations == DIRECTION_BUDGET || l.done
    ensures PumpedWell(l, used, world, turn, turn, Turned(Flagged(l, world(turn)), true, 0, operations), operations)
  {
    var f := Flagged(l, world(turn));
    FlagsKeep(l, world(turn));
    InBuffer(l);
    assert l.done ==> Blocked(Sooner(f, world(turn)));
    if l.done {
      AllSent(l);
    }
    hide StreamOk, BufferOk;
  }

  /** What a turn leaves for the next one. */
  lemma TurnLeaves(l: Lane, used: int, h: Happening, t: Turned)
    requires TurnedWell(Flagged(l, h), used, h, t)
    ensures LaneOk(t.lane) && (!t.over ==> !t.lane.eof) && used + BUFFER_LIMIT * (Holds(t.lane) - Holds(l)) <= TOTAL_BUFFER_LIMIT
  {
    hide LaneOk;
  }

  lemma {:induction false} PumpsWell(l: Lane, used: int, world: nat -> Happening, turn: nat, operations: nat)
    requires LaneOk(l) && BufferOk(l) && (l.eof ==> l.done) && used <= TOTAL_BUFFER_LIMIT && operations <= DIRECTION_BUDGET
    ensures PumpedWell(l, used, world, turn, Last(l, used, world, turn, operations), Pumped(l, used, world, turn, operations), operations)
    decreases DIRECTION_BUDGET - operations
  {
    hide *;
    if operations >= DIRECTION_BUDGET || l.done {
      PumpedStops(l, used, world, turn, operations);
      NoTurn(l, used, world, turn, operations);
    } else {
      var f := Flagged(l, world(turn));
      FlagsKeep(l, world(turn));
      var t := TurnOf(f, used, world(turn), operations);
      PumpedStep(l, used, world, turn, operations, t);
      TurnOfWell(f, used, world(turn), operations);
      TurnLeaves(l, used, world(turn), t);
      if t.over {
        LastTurn(l, used, world, t, turn, operations);
      } else {
        var rest := used + BUFFER_LIMIT * (Holds(t.lane) - Holds(l));
        PumpsWell(t.lane, rest, world, turn + 1, t.operations);
        MoreTurns(l, used, world, t, turn, Last(t.lane, rest, world, turn + 1, t.operations),
                  Pumped(t.lane, rest, world, turn + 1, t.operations), operations);
      }
    }
  }

  /** The shared buffer budget. */
  class Manager {
    var bufferBytes: nat

    constructor ()
      ensures bufferBytes == 0
    {
      bufferBytes := 0;
    }
  }

  class Direction {
    var readable: bool
    var writable: bool
    var buffer: array?<Byte>
    var offset: nat
    var length: nat
    var bytes: nat
    var done: bool
    var waiting: bool

    // what went through the two sockets
    var received: seq<Byte>
    var sent: seq<Byte>
    var eof: bool
    var shut: bool

    constructor ()
      ensures Valid() && Value() == Idle && fresh(this)
    {
      readable, writable, buffer := false, false, null;
      offset, length, bytes, done, waiting := 0, 0, 0, false, false;
      received, sent, eof, shut := [], [], false, false;
    }

    /** The direction as a value; what the sockets could still do is not part
        of it. */
    ghost function Value(): Lane
      reads this, buffer
    {
      Lane(readable, writable, buffer != null, if buffer != null then buffer[..] else [], offset, length,
           bytes, done, waiting, false, false, received, sent, eof, shut)
    }

    ghost predicate Valid()
      reads this, buffer
    {
      LaneOk(Value())
    }

    function Held(): nat
      reads this
    {
      if buffer != null then 1 else 0
    }

    /** Flags set by callbacks and events. */
    method SetFlags(h: Happening)
      requires Valid()
      modifies this`readable, this`writable
      ensures Valid() && Value() == Flagged(old(Value()), h)
    {
      FlagsKeep(Value(), h);
      hide LaneOk;
      readable := readable || h.readable;
      writable := writable || h.writable;
    }

    /** Others set flags while the turn goes on. */
    method SetLate(h: Happening)
      requires Valid()
      modifies this`readable, this`writable
      ensures Valid() && Value() == Late(old(Value()), h)
    {
      LateKeeps(Value(), h);
      hide LaneOk;
      readable := readable || h.lateReadable;
      writable := writable || h.lateWritable;
    }

    /** The socket call that fills the buffer from the front. */
    method CopyIn(data: seq<Byte>)
      requires buffer != null && |data| <= buffer.Length
      modifies buffer
      ensures buffer[..] == data + old(buffer[..])[|data|..]
    {
      var i := 0;
      while i < |data|
        invariant 0 <= i <= |data|
        invariant forall k :: 0 <= k < i ==> buffer[k] == data[k]
        invariant forall k :: i <= k < buffer.Length ==> buffer[k] == old(buffer[k])
      {
        buffer[i] := data[i];
        i := i + 1;
      }
    }

    /** tcpcc_bridge_acquire_buffer; false when the budget is used up. */
    method AcquireBuffer(m: Manager) returns (ok: bool)
      requires Valid() && !Pending(Value()) && !eof
      modifies this`buffer, m
      ensures ok <==> old(buffer) != null || old(m.bufferBytes) + BUFFER_LIMIT <= TOTAL_BUFFER_LIMIT
      ensures !ok ==> unchanged(this) && unchanged(m)
      ensures ok ==> buffer != null && Value() == Acquire(old(Value())) && Valid()
      ensures ok ==> buffer == old(buffer) || fresh(buffer)
      ensures m.bufferBytes == old(m.bufferBytes) + BUFFER_LIMIT * (Held() - old(Held()))
      ensures old(m.bufferBytes) <= TOTAL_BUFFER_LIMIT ==> m.bufferBytes <= TOTAL_BUFFER_LIMIT
    {
      if buffer != null {
        return true;
      }
      if m.bufferBytes + BUFFER_LIMIT > TOTAL_BUFFER_LIMIT {
        return false;
      }
      AcquireReleaseKeepStream(Value());
      buffer := new Byte[BUFFER_LIMIT](_ => 0);
      m.bufferBytes := m.bufferBytes + BUFFER_LIMIT;
      assert buffer[..] == seq(BUFFER_LIMIT, _ => 0 as Byte);
      ok := true;
    }

    /** tcpcc_bridge_release_buffer, without the wake-up of the waiters. */
    method ReleaseBuffer(m: Manager)
      requires Valid() && !Pending(Value()) && buffer != null && m.bufferBytes >= BUFFER_LIMIT
      modifies this`buffer, m
      ensures Value() == Release(old(Value())) && Valid()
      ensures m.bufferBytes == old(m.bufferBytes) - BUFFER_LIMIT
    {
      AcquireReleaseKeepStream(Value());
      buffer := null;
      m.bufferBytes := m.bufferBytes - BUFFER_LIMIT;
    }

    /** count bytes leave for the destination. */
    method SendBytes(count: nat)
      requires Valid() && 0 < count <= length - offset
      modifies this`sent, this`writable, this`offset, this`length, this`bytes
      ensures Value() == AfterSend(Send(old(Value()), count, false), count) && Valid()
    {
      ghost var before := Value();
      SendKeepsStream(before, count, false);
      hide StreamOk;
      sent := sent + buffer[offset..offset + count];
      writable := true;
      offset := offset + count;
      bytes := bytes + count;
      if offset == length {
        offset, length := 0, 0;
      }
    }

    /** The send half of a turn.  over: the loop ends; status is its result. */
    method SendTurn(h: Happening, ghost n: nat) returns (over: bool, status: int)
      requires Valid() && Pending(Value()) && writable
      modifies this`sent, this`readable, this`writable, this`offset, this`length, this`bytes
      ensures Valid()
      ensures BufferOk(old(Value())) && Turned(Value(), over, status, n) == SendTurned(Late(TakeWritable(old(Value())), h), h.answer, n)
    {
      WriteFlagKeeps(Value(), h);
      hide LaneOk, BufferOk;
      writable := false;
      SetLate(h);
      match h.answer
      case Taken(most) =>
        var count := if most < length - offset then most else length - offset;
        if count == 0 {
          return true, -5;
        }
        SendBytes(count);
        return false, 0;
      case Fault(code) => return true, code;
      case _ => return true, 0;
    }

    /** The receive half of a turn, with an acquired buffer. */
    method ReceiveTurn(m: Manager, answer: Answer, ghost n: nat) returns (over: bool, status: int)
      requires Valid() && !Pending(Value()) && buffer != null && m.bufferBytes >= BUFFER_LIMIT && !eof
      modifies this`received, this`readable, this`length, this`eof, this`shut, this`done, this`buffer, buffer, m
      ensures Valid()
      ensures BufferOk(old(Value())) && Turned(Value(), over, status, n) == ReceiveTurned(old(Value()), answer, n)
      ensures m.bufferBytes == old(m.bufferBytes) + BUFFER_LIMIT * (Held() - 1)
      ensures buffer == null || buffer == old(buffer)
    {
      InBuffer(Value());
      hide StreamOk;
      match answer
      case Filled(first, rest) =>
        ReceiveBytes(Filling(first, rest));
        return false, 0;
      case Ended(failed) =>
        ReleaseBuffer(m);
        ghost var released := Value();
        eof := true;
        KeepsStream(released, Value());
        AllSent(Value());
        if failed.Some? {
          return true, failed.value;
        }
        shut, done := true, true;
        KeepsStream(released, Value());
        return true, 0;
      case Fault(code) => return true, code;
      case _ =>
        ReleaseBuffer(m);
        return true, 0;
    }

    method ReceiveBytes(data: seq<Byte>)
      requires Valid() && !Pending(Value()) && buffer != null && 0 < |data| <= BUFFER_LIMIT && !eof
      modifies this`received, this`readable, this`length, buffer
      ensures Valid() && Pending(Value()) && BufferOk(old(Value()))
      ensures Value() == Stored(old(Value()), data)
    {
      InBuffer(Value());
      ReceiveKeepsStream(Value(), data, false);
      CopyIn(data);
      received := received + data;
      readable := true;
      length := |data|;
    }
  }

  /** The pump loop of one direction: up to 32 socket calls, stopping early when
      a flag is clear, a buffer is missing, the stream ends or a call fails. */
  method Pump(d: Direction, m: Manager, world: nat -> Happening) returns (status: int, operations: nat)
    requires d.Valid() && (d.eof ==> d.done)
    requires m.bufferBytes <= TOTAL_BUFFER_LIMIT && m.bufferBytes >= BUFFER_LIMIT * d.Held()
    modifies d, d.buffer, m
    ensures BufferOk(old(d.Value())) && Pumped(old(d.Value()), old(m.bufferBytes), world, 0, 0) == Turned(d.Value(), true, status, operations)
    ensures d.Valid() && operations <= DIRECTION_BUDGET && (d.buffer == old(d.buffer) || d.buffer == null || fresh(d.buffer))
    ensures m.bufferBytes == old(m.bufferBytes) + BUFFER_LIMIT * (d.Held() - old(d.Held()))
    ensures PumpedWell(old(d.Value()), old(m.bufferBytes), world, 0, Last(old(d.Value()), old(m.bufferBytes), world, 0, 0),
                       Turned(d.Value(), true, status, operations), 0)
  {
    InBuffer(d.Value());
    PumpsWell(d.Value(), m.bufferBytes, world, 0, 0);
    hide LaneOk, BufferOk, Pumped, Last, PumpedWell, TurnOf, Flagged;
    operations, status := 0, 0;
    ghost var others := m.bufferBytes - BUFFER_LIMIT * d.Held();
    var turn := 0;
    while operations < DIRECTION_BUDGET && !d.done
      invariant d.Valid() && operations <= DIRECTION_BUDGET && (d.eof ==> d.done) && status == 0 && BufferOk(d.Value())
      invariant Pumped(old(d.Value()), old(m.bufferBytes), world, 0, 0) == Pumped(d.Value(), m.bufferBytes, world, turn, operations)
      invariant d.buffer == old(d.buffer) || d.buffer == null || fresh(d.buffer)
      invariant m.bufferBytes == others + BUFFER_LIMIT * d.Held() <= TOTAL_BUFFER_LIMIT
    {
      var over;
      over, status, operations := NextTurn(d, m, world, turn, operations);
      turn := turn + 1;
      if over {
        return;
      }
    }
    PumpedStops(d.Value(), m.bufferBytes, world, turn, operations);
    d.SetFlags(world(turn));
  }

  /** The flags others have set meanwhile, and one turn. */
  method NextTurn(d: Direction, m: Manager, world: nat -> Happening, turn: nat, before: nat)
    returns (over: bool, status: int, operations: nat)
    requires d.Valid() && BufferOk(d.Value()) && !d.eof && !d.done && before < DIRECTION_BUDGET
    requires m.bufferBytes <= TOTAL_BUFFER_LIMIT && m.bufferBytes >= BUFFER_LIMIT * d.Held()
    modifies d, d.buffer, m
    ensures d.Valid() && BufferOk(d.Value()) && before <= operations <= before + 1
    ensures Pumped(old(d.Value()), old(m.bufferBytes), world, turn, before) ==
            if over then Turned(d.Value(), true, status, operations)
            else Pumped(d.Value(), m.bufferBytes, world, turn + 1, operations)
    ensures d.buffer == old(d.buffer) || d.buffer == null || fresh(d.buffer)
    ensures m.bufferBytes == old(m.bufferBytes) + BUFFER_LIMIT * (d.Held() - old(d.Held())) && m.bufferBytes <= TOTAL_BUFFER_LIMIT
    ensures !over ==> status == 0 && operations == before + 1 && !d.done && !d.eof
  {
    hide LaneOk, BufferOk, Pumped, TurnOf, Flagged;
    ghost var l, used := d.Value(), m.bufferBytes;
    FlagsKeep(l, world(turn));
    d.SetFlags(world(turn));
    over, status, operations := OneTurn(d, m, world(turn), before);
    PumpedStep(l, used, world, turn, before, Turned(d.Value(), over, status, operations));
  }

  /** One turn of the loop. */
  method OneTurn(d: Direction, m: Manager, h: Happening, before: nat) returns (over: bool, status: int, operations: nat)
    requires d.Valid() && !d.eof && !d.done && before < DIRECTION_BUDGET
    requires m.bufferBytes <= TOTAL_BUFFER_LIMIT && m.bufferBytes >= BUFFER_LIMIT * d.Held()
    modifies d, d.buffer, m
    ensures d.Valid() && before <= operations <= before + 1
    ensures BufferOk(old(d.Value())) && TurnOf(old(d.Value()), old(m.bufferBytes), h, before) == Turned(d.Value(), over, status, operations)
    ensures d.buffer == old(d.buffer) || d.buffer == null || fresh(d.buffer)
    ensures m.bufferBytes == old(m.bufferBytes) + BUFFER_LIMIT * (d.Held() - old(d.Held())) && m.bufferBytes <= TOTAL_BUFFER_LIMIT
    ensures !over ==> status == 0 && operations == before + 1 && !d.done && !d.eof
  {
    InBuffer(d.Value());
    TurnOfWell(d.Value(), m.bufferBytes, h, before);
    hide StreamOk, LaneOk, SendTurned, ReceiveTurned, Blocked, TurnedWell;
    if d.offset < d.length {
      if !d.writable {
        return true, 0, before;
      }
      over, status := d.SendTurn(h, before + 1);
      return over, status, before + 1;
    }
    over, status, operations := ReceiveHalf(d, m, h, before);
  }

  /** The rest of a turn without unsent bytes. */
  method ReceiveHalf(d: Direction, m: Manager, h: Happening, before: nat) returns (over: bool, status: int, operations: nat)
    requires d.Valid() && BufferOk(d.Value()) && !d.eof && !d.done && !Pending(d.Value())
    requires m.bufferBytes <= TOTAL_BUFFER_LIMIT && m.bufferBytes >= BUFFER_LIMIT * d.Held()
    modifies d, d.buffer, m
    ensures d.Valid() && TurnOf(old(d.Value()), old(m.bufferBytes), h, before) == Turned(d.Value(), over, status, operations)
    ensures d.buffer == old(d.buffer) || d.buffer == null || fresh(d.buffer)
    ensures m.bufferBytes == old(m.bufferBytes) + BUFFER_LIMIT * (d.Held() - old(d.Held())) && m.bufferBytes <= TOTAL_BUFFER_LIMIT
  {
    ReadFlagKeeps(d.Value(), h);
    hide LaneOk, SendTurned, ReceiveTurned, BufferOk;
    if d.waiting || !d.readable {
      return true, 0, before;
    }
    ghost var l := d.Value();
    d.readable := false;
    d.SetLate(h);
    if d.buffer == null && m.bufferBytes + BUFFER_LIMIT <= TOTAL_BUFFER_LIMIT && h.answer.NoMemory? {
      return true, h.answer.code, before;
    }
    var ok := d.AcquireBuffer(m);
    if !ok {
      d.readable, d.waiting := true, true;
      return true, 0, before;
    }
    over, status := d.ReceiveTurn(m, h.answer, before + 1);
    return over, status, before + 1;
  }

  lemma ReadFlagKeeps(l: Lane, h: Happening)
    requires LaneOk(l)
    ensures LaneOk(TakeReadable(l)) && LaneOk(Late(TakeReadable(l), h)) && LaneOk(AwaitBuffer(Late(TakeReadable(l), h)))
  {
    KeepsStream(l, TakeReadable(l));
    KeepsStream(l, Late(TakeReadable(l), h));
    KeepsStream(l, AwaitBuffer(Late(TakeReadable(l), h)));
    hide StreamOk;
  }

  lemma WriteFlagKeeps(l: Lane, h: Happening)
    requires LaneOk(l)
    ensures LaneOk(TakeWritable(l)) && LaneOk(Late(TakeWritable(l), h)) && BufferOk(l) && BufferOk(Late(TakeWritable(l), h))
    ensures l.offset <= l.length <= |l.buffer|
  {
    KeepsStream(l, TakeWritable(l));
    KeepsStream(l, Late(TakeWritable(l), h));
    InBuffer(l);
    InBuffer(Late(TakeWritable(l), h));
    hide StreamOk;
  }

  lemma LateKeeps(l: Lane, h: Happening)
    requires LaneOk(l)
    ensures LaneOk(Late(l, h))
  {
    KeepsStream(l, Late(l, h));
    hide StreamOk;
  }

  lemma AllSent(l: Lane)
    requires StreamOk(l) && !l.held
    ensures l.sent == l.received
  {
  }

  lemma KeepsStream(l: Lane, l': Lane)
    requires StreamOk(l) && l'.held == l.held && l'.buffer == l.buffer && l'.offset == l.offset && l'.length == l.length
    requires l'.bytes == l.bytes && l'.received == l.received && l'.sent == l.sent
    ensures StreamOk(l')
  {
  }

  lemma InBuffer(l: Lane)
    requires StreamOk(l)
    ensures BufferOk(l) && l.offset <= l.length <= |l.buffer| && |l.buffer| == (if l.held then BUFFER_LIMIT else 0)
    ensures l.offset == l.length ==> l.offset == 0
  {
  }
}

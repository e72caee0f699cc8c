/** The pump loop of BridgePump cut at every position at which the dispatcher can
    stand in it: what is left of the loop from there, and how one step of the
    dispatcher, or a flag set by someone else, leads from one to the next. */
module BridgePumpTurns {
  import opened Lists
  import opened Bytes
  import opened Lanes
  import opened BridgeState
  import opened BridgeInvariant
  import P = BridgePump

  /** The lane as the kernel keeps it, without what the sockets could still do. */
  function Strip(l: Lane): Lane {
    l.(input := false, room := false)
  }

  /** The operations of a loop that failed are not recorded by the dispatcher. */
  function Summed(t: P.Turned): P.Turned {
    if t.status != 0 then t.(operations := 0) else t
  }

  /** The dispatcher is inside the loop over this lane. */
  predicate InLoop(at: DispatchAt, way: Way) {
    OnLane(at, way) && !at.Leaving?
  }

  /** What the loop needs of the lane where it stands. */
  ghost predicate Ready(l: Lane, at: DispatchAt) {
    match at
    case Top(_, _) => BufferOk(l)
    case Sending(_, _) => BufferOk(l) && Pending(l)
    case Sent(_, _, n) => BufferOk(l) && 0 < n <= l.length - l.offset
    case Receiving(_, _) => BufferOk(l) && !Pending(l) && l.held
    case Received(_, _, data) => BufferOk(l) && !Pending(l) && l.held && 0 < |data| <= BUFFER_LIMIT
    case _ => true
  }

  /** The loop goes on after a turn, with so many bytes in use. */
  ghost function Onward(t: P.Turned, used: int, world: nat -> P.Happening, turn: nat): P.Turned
    requires BufferOk(t.lane)
  {
    if t.over then t else P.Pumped(t.lane, used, world, turn, t.operations)
  }

  lemma FlagsApart(l: Lane, l': Lane)
    requires l' == l.(readable := l'.readable, writable := l'.writable)
    ensures BufferOk(l) ==> BufferOk(l')
    ensures Pending(l') <==> Pending(l)
  {
  }

  lemma SentOk(l: Lane, n: nat)
    requires BufferOk(l) && 0 < n <= l.length - l.offset
    ensures BufferOk(AfterSend(l, n))
  {
  }

  lemma ReceivedOk(l: Lane, n: nat)
    requires BufferOk(l) && !Pending(l) && l.held && 0 < n <= BUFFER_LIMIT
    ensures BufferOk(AfterReceive(l, n))
  {
  }

  lemma LateOk(l: Lane, h: P.Happening)
    ensures BufferOk(l) ==> BufferOk(P.Late(l, h))
    ensures Pending(P.Late(l, h)) <==> Pending(l)
  {
  }

  /** What the rest of the loop makes of the lane, from where the dispatcher
      stands: the current turn is turn, and what is still to happen in it and in
      later ones is world. */
  ghost function Rest(l: Lane, at: DispatchAt, used: int, world: nat -> P.Happening, turn: nat): P.Turned
    requires Ready(l, at)
  {
    var h := world(turn);
    var k := P.Late(l, h);
    LateOk(l, h);
    match at
    case Top(_, ops) => P.Pumped(l, used, world, turn, ops)
    case Sending(_, ops) => Onward(P.SendTurned(k, h.answer, ops + 1), used, world, turn + 1)
    case Sent(_, ops, n) =>
      SentOk(k, n);
      P.Pumped(AfterSend(k, n), used, world, turn + 1, ops)
    case NoBuffer(_, ops) => P.Turned(AwaitBuffer(k), true, 0, ops)
    case Receiving(_, ops) =>
      var t := P.ReceiveTurned(k, h.answer, ops + 1);
      Onward(t, used + BUFFER_LIMIT * (P.Holds(t.lane) - 1), world, turn + 1)
    case Received(_, ops, data) =>
      ReceivedOk(k, |data|);
      P.Pumped(AfterReceive(k, |data|), used, world, turn + 1, ops)
    case Draining(_, ops, eof) => if eof then Closed(k, h.answer, ops) else P.Turned(k, true, 0, ops)
    case HalfClosing(_, ops) => Closed(k, h.answer, ops)
    case Leaving(_, ops) => P.Turned(l, true, 0, ops)
    case Failing(_, status) => P.Turned(l, true, status, 0)
    case _ => P.Turned(l, true, 0, 0)
  }

  /** The half-close, once the end of the stream was read. */
  function Closed(l: Lane, a: P.Answer, ops: nat): P.Turned {
    if a.Ended? && a.shut.Some? then P.Turned(l, true, a.shut.value, ops) else P.Turned(HalfClosed(l), true, 0, ops)
  }

  function Instead(world: nat -> P.Happening, turn: nat, h: P.Happening): nat -> P.Happening {
    (n: nat) => if n == turn then h else world(n)
  }

  const Still := P.Happening(false, false, P.Answer.Again, false, false)

  /** The loop's next turn, or its end. */
  ghost function Next(l: Lane, used: int, h: P.Happening, ops: nat): (t: P.Turned)
    requires BufferOk(l)
    ensures BufferOk(t.lane) && (!t.over ==> ops < t.operations <= DIRECTION_BUDGET)
  {
    var f := P.Flagged(l, h);
    FlagsApart(l, f);
    if ops >= DIRECTION_BUDGET || l.done then P.Turned(f, true, 0, ops) else P.TurnOf(f, used, h, ops)
  }

  function After(l: Lane, used: int, l': Lane): int {
    used + BUFFER_LIMIT * (P.Holds(l') - P.Holds(l))
  }

  lemma PumpedIs(l: Lane, used: int, w: nat -> P.Happening, turn: nat, ops: nat)
    requires BufferOk(l)
    ensures var t := Next(l, used, w(turn), ops);
            P.Pumped(l, used, w, turn, ops) == Onward(t, After(l, used, t.lane), w, turn + 1)
  {
    FlagsApart(l, P.Flagged(l, w(turn)));
    hide P.Pumped, P.TurnOf, BufferOk, P.Flagged;
    if ops >= DIRECTION_BUDGET || l.done {
      P.PumpedStops(l, used, w, turn, ops);
    } else {
      P.PumpedStep(l, used, w, turn, ops, Next(l, used, w(turn), ops));
    }
  }

  /** Only what is still to come matters. */
  lemma {:induction false} PumpedAhead(l: Lane, used: int, w: nat -> P.Happening, w': nat -> P.Happening, turn: nat, ops: nat)
    requires BufferOk(l) && forall n: nat :: n >= turn ==> w(n) == w'(n)
    ensures P.Pumped(l, used, w, turn, ops) == P.Pumped(l, used, w', turn, ops)
    decreases DIRECTION_BUDGET - ops
  {
    hide P.Pumped, Next, BufferOk, After;
    PumpedIs(l, used, w, turn, ops);
    PumpedIs(l, used, w', turn, ops);
    var t := Next(l, used, w(turn), ops);
    if !t.over {
      PumpedAhead(t.lane, After(l, used, t.lane), w, w', turn + 1, t.operations);
    }
  }

  lemma OnwardAhead(t: P.Turned, used: int, w: nat -> P.Happening, turn: nat, h: P.Happening)
    requires BufferOk(t.lane)
    ensures Onward(t, used, Instead(w, turn, h), turn + 1) == Onward(t, used, w, turn + 1)
  {
    hide P.Pumped, BufferOk;
    if !t.over {
      PumpedAhead(t.lane, used, Instead(w, turn, h), w, turn + 1, t.operations);
    }
  }

  /** One unfolding of the loop at its head, with this happening. */
  lemma Unfold(l: Lane, used: int, w: nat -> P.Happening, turn: nat, ops: nat, h: P.Happening)
    requires BufferOk(l)
    ensures var t := Next(l, used, h, ops);
            P.Pumped(l, used, Instead(w, turn, h), turn, ops) == Onward(t, After(l, used, t.lane), w, turn + 1)
  {
    var w0 := Instead(w, turn, h);
    assert w0(turn) == h;
    hide P.Pumped, Next, BufferOk, After, Onward, Instead;
    PumpedIs(l, used, w0, turn, ops);
    var t := Next(l, used, h, ops);
    OnwardAhead(t, After(l, used, t.lane), w, turn, h);
  }

  /** The next turn when nothing happens before it. */
  lemma NextIs(l: Lane, used: int, h: P.Happening, ops: nat)
    requires BufferOk(l) && ops < DIRECTION_BUDGET && !l.done && !h.readable && !h.writable
    ensures Next(l, used, h, ops) == P.TurnOf(l, used, h, ops)
  {
    assert P.Flagged(l, h) == l;
    hide P.TurnOf, BufferOk;
  }

  // ----- the dispatcher's steps, on the lane -----

  lemma TopStops(l: Lane, way: Way, ops: nat, used: int, w: nat -> P.Happening, turn: nat)
    requires BufferOk(l) && (ops >= DIRECTION_BUDGET || Blocked(l))
    ensures Rest(l, Top(way, ops), used, Instead(w, turn, Still), turn) == P.Turned(l, true, 0, ops)
  {
    StopsNow(l, used, ops);
    hide P.Pumped, Next, BufferOk;
    Unfold(l, used, w, turn, ops, Still);
  }

  lemma StopsNow(l: Lane, used: int, ops: nat)
    requires BufferOk(l) && (ops >= DIRECTION_BUDGET || Blocked(l))
    ensures Next(l, used, Still, ops) == P.Turned(l, true, 0, ops)
  {
    assert P.Flagged(l, Still) == l;
    hide BufferOk;
  }

  lemma TopSends(l: Lane, way: Way, ops: nat, used: int, w: nat -> P.Happening, turn: nat)
    requires BufferOk(l) && ops < DIRECTION_BUDGET && !l.done && Pending(l) && l.writable
    ensures Ready(TakeWritable(l), Sending(way, ops))
    ensures Rest(l, Top(way, ops), used, Instead(w, turn, Headless(w(turn))), turn) ==
            Rest(TakeWritable(l), Sending(way, ops), used, w, turn)
  {
    FlagsApart(l, TakeWritable(l));
    SendNow(l, used, w(turn), ops);
    hide P.Pumped, Next, BufferOk, P.SendTurned, Instead, Onward, Headless;
    Unfold(l, used, w, turn, ops, Headless(w(turn)));
  }

  lemma SendNow(l: Lane, used: int, h: P.Happening, ops: nat)
    requires BufferOk(l) && ops < DIRECTION_BUDGET && !l.done && Pending(l) && l.writable && BufferOk(TakeWritable(l))
    ensures var k := P.Late(TakeWritable(l), h);
            && BufferOk(k) && Pending(k) && Next(l, used, Headless(h), ops) == P.SendTurned(k, h.answer, ops + 1)
            && After(l, used, Next(l, used, Headless(h), ops).lane) == used
  {
    LateOk(TakeWritable(l), h);
    NextIs(l, used, Headless(h), ops);
    assert P.Late(TakeWritable(l), Headless(h)) == P.Late(TakeWritable(l), h);
    SameHolds(P.Late(TakeWritable(l), h), h.answer, ops + 1);
    hide Next, P.SendTurned, BufferOk;
  }

  function Headless(h: P.Happening): P.Happening {
    h.(readable := false, writable := false)
  }

  lemma SameHolds(l: Lane, a: P.Answer, n: nat)
    requires BufferOk(l) && Pending(l)
    ensures P.Holds(P.SendTurned(l, a, n).lane) == P.Holds(l)
  {
  }

  lemma TopReceives(l: Lane, way: Way, ops: nat, used: int, w: nat -> P.Happening, turn: nat)
    requires BufferOk(l) && ops < DIRECTION_BUDGET && !l.done && !Pending(l) && !l.waiting && l.readable
    requires l.held || used + BUFFER_LIMIT <= TOTAL_BUFFER_LIMIT
    ensures Ready(Acquire(TakeReadable(l)), Receiving(way, ops))
    ensures Rest(l, Top(way, ops), used, Instead(w, turn, Plenty(w(turn))), turn) ==
            Rest(Acquire(TakeReadable(l)), Receiving(way, ops), After(l, used, Acquire(TakeReadable(l))), w, turn)
  {
    FlagsApart(l, TakeReadable(l));
    AcquireOk(TakeReadable(l));
    ReceiveNow(l, used, w(turn), ops);
    UsedAfter(l, used, P.ReceiveTurned(P.Late(Acquire(TakeReadable(l)), w(turn)), w(turn).answer, ops + 1).lane);
    hide P.Pumped, Next, BufferOk, P.ReceiveTurned, Instead, Onward, Plenty, After, Acquire, P.Holds;
    Unfold(l, used, w, turn, ops, Plenty(w(turn)));
  }

  lemma UsedAfter(l: Lane, used: int, l': Lane)
    ensures After(l, used, Acquire(TakeReadable(l))) + BUFFER_LIMIT * (P.Holds(l') - 1) == After(l, used, l')
  {
  }

  lemma ReceiveNow(l: Lane, used: int, h: P.Happening, ops: nat)
    requires BufferOk(l) && ops < DIRECTION_BUDGET && !l.done && !Pending(l) && !l.waiting && l.readable
    requires l.held || used + BUFFER_LIMIT <= TOTAL_BUFFER_LIMIT
    requires var k := Acquire(TakeReadable(l)); BufferOk(k) && !Pending(k) && k.held
    ensures var k := P.Late(Acquire(TakeReadable(l)), h);
            && BufferOk(k) && !Pending(k) && k.held && Next(l, used, Plenty(h), ops) == P.ReceiveTurned(k, h.answer, ops + 1)
  {
    LateOk(Acquire(TakeReadable(l)), h);
    var k := P.Late(Acquire(TakeReadable(l)), h);
    assert k == Acquire(P.Late(TakeReadable(l), Plenty(h)));
    NextIs(l, used, Plenty(h), ops);
    SameAnswer(k, h.answer, ops + 1);
    hide Next, P.ReceiveTurned, BufferOk, Acquire;
  }

  /** An answer that is not about memory; without memory the socket is not asked,
      and what it would have answered is the same as EAGAIN. */
  function Plenty(h: P.Happening): P.Happening {
    Headless(h).(answer := if h.answer.NoMemory? then P.Answer.Again else h.answer)
  }

  lemma AcquireOk(l: Lane)
    requires BufferOk(l) && !Pending(l)
    ensures BufferOk(Acquire(l)) && Acquire(l).held && !Pending(Acquire(l))
  {
  }

  lemma SameAnswer(l: Lane, a: P.Answer, n: nat)
    requires BufferOk(l) && !Pending(l) && l.held
    ensures P.ReceiveTurned(l, a, n) == P.ReceiveTurned(l, if a.NoMemory? then P.Answer.Again else a, n)
  {
  }

  lemma TopStarves(l: Lane, way: Way, ops: nat, used: int, w: nat -> P.Happening, turn: nat)
    requires BufferOk(l) && ops < DIRECTION_BUDGET && !l.done && !Pending(l) && !l.waiting && l.readable && !l.held
    requires used + BUFFER_LIMIT > TOTAL_BUFFER_LIMIT
    ensures Rest(l, Top(way, ops), used, Instead(w, turn, Headless(w(turn))), turn) ==
            Rest(TakeReadable(l), NoBuffer(way, ops), used, w, turn)
  {
    NextIs(l, used, Headless(w(turn)), ops);
    hide P.Pumped, Next, BufferOk;
    Unfold(l, used, w, turn, ops, Headless(w(turn)));
  }

  lemma TopFails(l: Lane, way: Way, ops: nat, used: int, w: nat -> P.Happening, turn: nat, code: P.ErrorCode)
    requires BufferOk(l) && ops < DIRECTION_BUDGET && !l.done && !Pending(l) && !l.waiting && l.readable && !l.held
    requires used + BUFFER_LIMIT <= TOTAL_BUFFER_LIMIT
    ensures Rest(l, Top(way, ops), used, Instead(w, turn, Still.(answer := P.NoMemory(code))), turn) ==
            P.Turned(TakeReadable(l), true, code, ops)
  {
    NextIs(l, used, Still.(answer := P.NoMemory(code)), ops);
    hide P.Pumped, Next, BufferOk;
    Unfold(l, used, w, turn, ops, Still.(answer := P.NoMemory(code)));
  }

  lemma SendMoves(l: Lane, way: Way, ops: nat, used: int, w: nat -> P.Happening, turn: nat, n: nat)
    requires BufferOk(l) && Pending(l) && 0 < n <= l.length - l.offset && Strip(l) == l
    ensures Ready(Send(l, n, false), Sent(way, ops + 1, n))
    ensures Rest(l, Sending(way, ops), used, Instead(w, turn, w(turn).(answer := P.Answer.Taken(n))), turn) ==
            Rest(Send(l, n, false), Sent(way, ops + 1, n), used, w, turn)
  {
    var h := w(turn);
    var h0 := h.(answer := P.Answer.Taken(n));
    LateOk(l, h);
    SendTakes(l, h, n, ops + 1);
    assert P.Late(l, h0) == P.Late(l, h) && Instead(w, turn, h0)(turn) == h0;
    var sent := AfterSend(P.Late(Send(l, n, false), h), n);
    hide *;
    RestSending(l, way, ops, used, Instead(w, turn, h0), turn);
    RestSent(Send(l, n, false), way, ops + 1, used, w, turn, n);
    OnwardAhead(P.SendTurned(P.Late(l, h), h0.answer, ops + 1), used, w, turn, h0);
    Goes(sent, used, w, turn + 1, ops + 1);
  }

  lemma RestSending(l: Lane, way: Way, ops: nat, used: int, w: nat -> P.Happening, turn: nat)
    requires BufferOk(l) && Pending(l) && BufferOk(P.Late(l, w(turn))) && Pending(P.Late(l, w(turn)))
    ensures Ready(l, Sending(way, ops))
    ensures Rest(l, Sending(way, ops), used, w, turn) ==
            Onward(P.SendTurned(P.Late(l, w(turn)), w(turn).answer, ops + 1), used, w, turn + 1)
  {
    hide BufferOk, P.SendTurned, Onward, P.Late;
  }

  lemma RestSent(l: Lane, way: Way, ops: nat, used: int, w: nat -> P.Happening, turn: nat, n: nat)
    requires Ready(l, Sent(ToBackend, 0, n))
    ensures Ready(l, Sent(way, ops, n)) && BufferOk(AfterSend(P.Late(l, w(turn)), n))
    ensures Rest(l, Sent(way, ops, n), used, w, turn) == P.Pumped(AfterSend(P.Late(l, w(turn)), n), used, w, turn + 1, ops)
  {
    LateOk(l, w(turn));
    SentOk(P.Late(l, w(turn)), n);
    hide BufferOk, P.Pumped, AfterSend;
  }

  lemma RestReceiving(l: Lane, way: Way, ops: nat, used: int, w: nat -> P.Happening, turn: nat)
    requires BufferOk(l) && !Pending(l) && l.held
    requires BufferOk(P.Late(l, w(turn))) && !Pending(P.Late(l, w(turn))) && P.Late(l, w(turn)).held
    ensures Ready(l, Receiving(way, ops))
    ensures var t := P.ReceiveTurned(P.Late(l, w(turn)), w(turn).answer, ops + 1);
            Rest(l, Receiving(way, ops), used, w, turn) == Onward(t, used + BUFFER_LIMIT * (P.Holds(t.lane) - 1), w, turn + 1)
  {
    hide BufferOk, P.ReceiveTurned, Onward, P.Late, P.Holds;
  }

  lemma RestReceived(l: Lane, way: Way, ops: nat, used: int, w: nat -> P.Happening, turn: nat, data: seq<Byte>)
    requires Ready(l, Received(ToBackend, 0, data))
    ensures Ready(l, Received(way, ops, data)) && BufferOk(AfterReceive(P.Late(l, w(turn)), |data|))
    ensures Rest(l, Received(way, ops, data), used, w, turn) ==
            P.Pumped(AfterReceive(P.Late(l, w(turn)), |data|), used, w, turn + 1, ops)
  {
    LateOk(l, w(turn));
    LateHeld(l, w(turn));
    ReceivedOk(P.Late(l, w(turn)), |data|);
    hide BufferOk, P.Pumped, AfterReceive;
  }

  lemma Goes(l: Lane, used: int, w: nat -> P.Happening, turn: nat, ops: nat)
    requires BufferOk(l)
    ensures Onward(P.Turned(l, false, 0, ops), used, w, turn) == P.Pumped(l, used, w, turn, ops)
  {
    hide P.Pumped;
  }

  lemma SendTakes(l: Lane, h: P.Happening, n: nat, ops: nat)
    requires BufferOk(l) && Pending(l) && 0 < n <= l.length - l.offset && Strip(l) == l
    requires BufferOk(P.Late(l, h)) && Pending(P.Late(l, h))
    ensures P.SendTurned(P.Late(l, h), P.Answer.Taken(n), ops) ==
            P.Turned(AfterSend(P.Late(Send(l, n, false), h), n), false, 0, ops)
    ensures Ready(Send(l, n, false), Sent(ToBackend, 0, n))
  {
    assert Send(P.Late(l, h), n, false) == P.Late(Send(l, n, false), h);
  }

  lemma SendStops(l: Lane, way: Way, ops: nat, used: int, w: nat -> P.Happening, turn: nat, a: P.Answer, status: int)
    requires BufferOk(l) && Pending(l) && (a == P.Answer.Taken(0) ==> status == -5) && (a.Fault? ==> status == a.code)
    requires (a.Again? ==> status == 0) && (a == P.Answer.Taken(0) || a.Fault? || a.Again?)
    ensures Rest(l, Sending(way, ops), used, Instead(w, turn, Still.(answer := a)), turn) == P.Turned(l, true, status, ops + 1)
  {
    assert P.Late(l, Still.(answer := a)) == l;
    hide P.Pumped;
  }

  lemma Returns(l: Lane, way: Way, at: DispatchAt, used: int, w: nat -> P.Happening, turn: nat)
    requires Ready(l, at) && (at.Sent? || at.Received?)
    ensures var k := if at.Sent? then AfterSend(l, at.count) else AfterReceive(l, |at.data|);
            && Ready(k, Top(way, at.ops))
            && Rest(l, at, used, Instead(w, turn, Still), turn) == Rest(k, Top(way, at.ops), used, w, turn + 1)
  {
    assert P.Late(l, Still) == l;
    var k := if at.Sent? then AfterSend(l, at.count) else AfterReceive(l, |at.data|);
    if at.Sent? {
      SentOk(l, at.count);
    } else {
      ReceivedOk(l, |at.data|);
    }
    hide P.Pumped, BufferOk;
    PumpedAhead(k, used, Instead(w, turn, Still), w, turn + 1, at.ops);
  }

  lemma Awaits(l: Lane, way: Way, ops: nat, used: int, w: nat -> P.Happening, turn: nat)
    ensures Rest(l, NoBuffer(way, ops), used, Instead(w, turn, Still), turn) == P.Turned(AwaitBuffer(l), true, 0, ops)
  {
  }

  lemma ReceiveFills(l: Lane, way: Way, ops: nat, used: int, w: nat -> P.Happening, turn: nat, data: seq<Byte>)
    requires BufferOk(l) && !Pending(l) && l.held && 0 < |data| <= BUFFER_LIMIT && Strip(l) == l
    ensures Ready(Receive(l, data, false), Received(way, ops + 1, data))
    ensures Rest(l, Receiving(way, ops), used, Instead(w, turn, w(turn).(answer := P.Answer.Filled(data[0], data[1..]))), turn) ==
            Rest(Receive(l, data, false), Received(way, ops + 1, data), used, w, turn)
  {
    InBuffer(l, data);
    hide *;
    var h := w(turn);
    var h0 := h.(answer := P.Answer.Filled(data[0], data[1..]));
    LateOk(l, h);
    LateHeld(l, h);
    ReceiveStores(l, h, data, ops + 1);
    SameLate(l, h, h0.answer);
    There(w, turn, h0);
    var filled := AfterReceive(P.Late(Receive(l, data, false), h), |data|);
    RestReceiving(l, way, ops, used, Instead(w, turn, h0), turn);
    RestReceived(Receive(l, data, false), way, ops + 1, used, w, turn, data);
    OnwardAhead(P.ReceiveTurned(P.Late(l, h), h0.answer, ops + 1), used, w, turn, h0);
    Goes(filled, used, w, turn + 1, ops + 1);
  }

  lemma InBuffer(l: Lane, data: seq<Byte>)
    requires BufferOk(l) && l.held && |data| <= BUFFER_LIMIT
    ensures |data| <= |l.buffer|
  {
  }

  lemma SameLate(l: Lane, h: P.Happening, a: P.Answer)
    ensures P.Late(l, h.(answer := a)) == P.Late(l, h)
  {
  }

  lemma There(w: nat -> P.Happening, turn: nat, h: P.Happening)
    ensures Instead(w, turn, h)(turn) == h
  {
  }

  lemma ReceiveStores(l: Lane, h: P.Happening, data: seq<Byte>, ops: nat)
    requires BufferOk(l) && !Pending(l) && l.held && 0 < |data| <= BUFFER_LIMIT && Strip(l) == l
    requires BufferOk(P.Late(l, h)) && !Pending(P.Late(l, h)) && P.Late(l, h).held
    ensures var t := P.ReceiveTurned(P.Late(l, h), P.Answer.Filled(data[0], data[1..]), ops);
            t == P.Turned(AfterReceive(P.Late(Receive(l, data, false), h), |data|), false, 0, ops) && P.Holds(t.lane) == 1
    ensures Ready(Receive(l, data, false), Received(ToBackend, 0, data))
  {
    assert P.Filling(data[0], data[1..]) == data;
    assert Receive(P.Late(l, h), data, false) == P.Late(Receive(l, data, false), h);
  }

  lemma ReceiveEnds(l: Lane, way: Way, ops: nat, used: int, w: nat -> P.Happening, turn: nat)
    requires BufferOk(l) && !Pending(l) && l.held
    ensures Rest(l, Receiving(way, ops), used, Instead(w, turn, w(turn).(answer := AtEnd(w(turn).answer))), turn) ==
            Rest(Release(EndOfStream(l)), Draining(way, ops + 1, true), used - BUFFER_LIMIT, w, turn)
  {
    var h := w(turn);
    LateOk(l, h);
    assert EndOfStream(Release(P.Late(l, h))) == P.Late(Release(EndOfStream(l)), h);
    EndsTurned(P.Late(l, h), AtEnd(h.answer), ops + 1);
    SameClosed(P.Late(Release(EndOfStream(l)), h), h.answer, ops + 1);
    assert P.Late(l, h.(answer := AtEnd(h.answer))) == P.Late(l, h);
    hide P.Pumped, P.ReceiveTurned, Closed, BufferOk, AtEnd;
  }

  lemma EndsTurned(l: Lane, a: P.Answer, n: nat)
    requires BufferOk(l) && !Pending(l) && l.held && a.Ended?
    ensures P.ReceiveTurned(l, a, n) == Closed(EndOfStream(Release(l)), a, n) && P.ReceiveTurned(l, a, n).over
  {
  }

  lemma SameClosed(l: Lane, a: P.Answer, n: nat)
    ensures Closed(l, AtEnd(a), n) == Closed(l, a, n)
  {
  }

  function AtEnd(a: P.Answer): P.Answer {
    if a.Ended? then a else P.Answer.Ended(None)
  }

  lemma ReceiveStops(l: Lane, way: Way, ops: nat, used: int, w: nat -> P.Happening, turn: nat, code: P.ErrorCode)
    requires BufferOk(l) && !Pending(l) && l.held
    ensures Rest(l, Receiving(way, ops), used, Instead(w, turn, Still.(answer := P.Answer.Fault(code))), turn) ==
            P.Turned(l, true, code, ops + 1)
  {
    assert P.Late(l, Still.(answer := P.Answer.Fault(code))) == l;
    hide P.Pumped;
  }

  lemma ReceiveBlocks(l: Lane, way: Way, ops: nat, used: int, w: nat -> P.Happening, turn: nat)
    requires BufferOk(l) && !Pending(l) && l.held
    ensures Rest(l, Receiving(way, ops), used, Instead(w, turn, w(turn).(answer := P.Answer.Again)), turn) ==
            Rest(Release(l), Draining(way, ops + 1, false), used - BUFFER_LIMIT, w, turn)
  {
    var h := w(turn);
    LateOk(l, h);
    assert Release(P.Late(l, h)) == P.Late(Release(l), h);
    hide P.Pumped;
  }

  lemma DrainEnds(l: Lane, way: Way, ops: nat, eof: bool, used: int, w: nat -> P.Happening, turn: nat)
    ensures eof ==> Rest(l, Draining(way, ops, eof), used, w, turn) == Rest(l, HalfClosing(way, ops), used, w, turn)
    ensures !eof ==> Rest(l, Draining(way, ops, eof), used, Instead(w, turn, Still), turn) == P.Turned(l, true, 0, ops)
  {
  }

  lemma HalfCloses(l: Lane, way: Way, ops: nat, used: int, w: nat -> P.Happening, turn: nat, shut: Option<P.ErrorCode>)
    ensures Rest(l, HalfClosing(way, ops), used, Instead(w, turn, Still.(answer := P.Answer.Ended(shut))), turn) ==
            if shut.Some? then P.Turned(l, true, shut.value, ops) else P.Turned(HalfClosed(l), true, 0, ops)
  {
  }

  // ----- everybody else's steps, on the lane -----

  /** Flags set while the loop stands there count as set before the turn or
      late in it. */
  function Noted(at: DispatchAt, h: P.Happening, l: Lane, l': Lane): P.Happening {
    if at.Top? then FromStart(h, l')
    else h.(lateReadable := h.lateReadable || (l'.readable && !l.readable), lateWritable := h.lateWritable || (l'.writable && !l.writable))
  }

  function FromStart(h: P.Happening, l': Lane): P.Happening {
    h.(readable := h.readable || l'.readable, writable := h.writable || l'.writable)
  }

  lemma EdgesKeep(l: Lane, l': Lane, way: Way, at: DispatchAt, used: int, w: nat -> P.Happening, turn: nat)
    requires InLoop(at, way) && Ready(l, at) && Ready(l', at)
    requires l' == l.(readable := l'.readable, writable := l'.writable) && (l.readable ==> l'.readable) && (l.writable ==> l'.writable)
    ensures Rest(l, at, used, Instead(w, turn, Noted(at, w(turn), l, l')), turn) == Rest(l', at, used, w, turn)
  {
    var h, h0 := w(turn), Noted(at, w(turn), l, l');
    if at.Top? {
      TopEdges(l, l', at.ops, used, w, turn);
    } else {
      LateNoted(l, l', at, h);
      hide P.Late, Noted;
      LateEdges(l, l', way, at, used, w, turn, h0);
    }
  }

  function Flag(l: Lane, write: bool): bool {
    if write then l.writable else l.readable
  }

  function LateFlag(h: P.Happening, write: bool): bool {
    if write then h.lateWritable else h.lateReadable
  }

  /** No flag is late in the first world that is not late in the second. */
  ghost predicate NoLater(w0: nat -> P.Happening, w: nat -> P.Happening) {
    forall n: nat, write: bool :: LateFlag(w0(n), write) ==> LateFlag(w(n), write)
  }

  lemma NoneLater(w: nat -> P.Happening, turn: nat, a: P.Answer)
    ensures NoLater(w, w) && NoLater(Instead(w, turn, Still), w) && NoLater(Instead(w, turn, Still.(answer := a)), w)
    ensures NoLater(Instead(w, turn, Headless(w(turn))), w) && NoLater(Instead(w, turn, Plenty(w(turn))), w)
    ensures NoLater(Instead(w, turn, w(turn).(answer := a)), w)
  {
  }

  /** A flag noted late was set at that moment. */
  lemma NotedLate(at: DispatchAt, w: nat -> P.Happening, turn: nat, l: Lane, l': Lane, n: nat, write: bool)
    requires LateFlag(Instead(w, turn, Noted(at, w(turn), l, l'))(n), write)
    ensures LateFlag(w(n), write) || (n == turn && !at.Top? && !Flag(l, write) && Flag(l', write))
  {
  }

  lemma LateNoted(l: Lane, l': Lane, at: DispatchAt, h: P.Happening)
    requires !at.Top?
    requires l' == l.(readable := l'.readable, writable := l'.writable) && (l.readable ==> l'.readable) && (l.writable ==> l'.writable)
    ensures P.Late(l, Noted(at, h, l, l')) == P.Late(l', h) && Noted(at, h, l, l').answer == h.answer
  {
  }

  lemma LateEdges(l: Lane, l': Lane, way: Way, at: DispatchAt, used: int, w: nat -> P.Happening, turn: nat, h0: P.Happening)
    requires Ready(l, at) && Ready(l', at) && !at.Top? && InLoop(at, way)
    requires P.Late(l, h0) == P.Late(l', w(turn)) && h0.answer == w(turn).answer
    ensures Rest(l, at, used, Instead(w, turn, h0), turn) == Rest(l', at, used, w, turn)
  {
    hide P.Pumped, P.SendTurned, P.ReceiveTurned, BufferOk, AfterSend, AfterReceive, P.Late, Pending, P.Holds, Closed;
    var h := w(turn);
    var k := P.Late(l', h);
    LateOk(l', h);
    if at.Sending? {
      OnwardAhead(P.SendTurned(k, h.answer, at.ops + 1), used, w, turn, h0);
    } else if at.Receiving? {
      LateHeld(l', h);
      var t := P.ReceiveTurned(k, h.answer, at.ops + 1);
      OnwardAhead(t, used + BUFFER_LIMIT * (P.Holds(t.lane) - 1), w, turn, h0);
    } else if at.Sent? {
      LateHeld(l', h);
      SentOk(k, at.count);
      PumpedAhead(AfterSend(k, at.count), used, Instead(w, turn, h0), w, turn + 1, at.ops);
    } else if at.Received? {
      LateHeld(l', h);
      ReceivedOk(k, |at.data|);
      PumpedAhead(AfterReceive(k, |at.data|), used, Instead(w, turn, h0), w, turn + 1, at.ops);
    }
  }

  lemma LateHeld(l: Lane, h: P.Happening)
    ensures var k := P.Late(l, h); k.held == l.held && k.offset == l.offset && k.length == l.length
  {
  }

  lemma SameTurn(l: Lane, used: int, h: P.Happening, h': P.Happening, ops: nat)
    requires BufferOk(l) && h' == h.(readable := h'.readable, writable := h'.writable)
    ensures P.TurnOf(l, used, h, ops) == P.TurnOf(l, used, h', ops)
  {
    assert forall k :: P.Late(k, h) == P.Late(k, h');
    hide P.SendTurned, P.ReceiveTurned, BufferOk;
  }

  lemma SameNext(l: Lane, l': Lane, used: int, h: P.Happening, h0: P.Happening, ops: nat)
    requires BufferOk(l) && BufferOk(l') && l' == l.(readable := l'.readable, writable := l'.writable)
    requires P.Flagged(l, h0) == P.Flagged(l', h) && h0 == h.(readable := h0.readable, writable := h0.writable)
    ensures Next(l, used, h0, ops) == Next(l', used, h, ops)
  {
    FlagsApart(l', P.Flagged(l', h));
    SameTurn(P.Flagged(l', h), used, h, h0, ops);
    hide P.TurnOf, BufferOk, P.Flagged;
  }

  lemma TopEdges(l: Lane, l': Lane, ops: nat, used: int, w: nat -> P.Happening, turn: nat)
    requires BufferOk(l) && BufferOk(l')
    requires l' == l.(readable := l'.readable, writable := l'.writable) && (l.readable ==> l'.readable) && (l.writable ==> l'.writable)
    ensures P.Pumped(l, used, Instead(w, turn, FromStart(w(turn), l')), turn, ops) == P.Pumped(l', used, w, turn, ops)
  {
    FromStartFacts(l, l', w(turn));
    hide *;
    var h := w(turn);
    SameNext(l, l', used, h, FromStart(h, l'), ops);
    SameAfter(l, l', used, Next(l', used, h, ops).lane);
    Unfold(l, used, w, turn, ops, FromStart(h, l'));
    PumpedIs(l', used, w, turn, ops);
  }

  lemma FromStartFacts(l: Lane, l': Lane, h: P.Happening)
    requires l' == l.(readable := l'.readable, writable := l'.writable) && (l.readable ==> l'.readable) && (l.writable ==> l'.writable)
    ensures var h0 := FromStart(h, l');
            P.Flagged(l, h0) == P.Flagged(l', h) && h0 == h.(readable := h0.readable, writable := h0.writable)
  {
  }

  lemma SameAfter(l: Lane, l': Lane, used: int, next: Lane)
    requires l' == l.(readable := l'.readable, writable := l'.writable)
    ensures After(l, used, next) == After(l', used, next)
  {
  }

  // ----- what the sockets could still do does not matter -----

  lemma StripTakes(l: Lane)
    ensures Strip(TakeWritable(l)) == TakeWritable(Strip(l)) && Strip(TakeReadable(l)) == TakeReadable(Strip(l))
  {
  }

  lemma StripEnds(l: Lane)
    ensures Strip(AwaitBuffer(l)) == AwaitBuffer(Strip(l)) && Strip(HalfClosed(l)) == HalfClosed(Strip(l))
  {
  }

  lemma StripBlocked(l: Lane)
    ensures (Blocked(Strip(l)) <==> Blocked(l)) && Strip(Strip(l)) == Strip(l)
  {
  }

  lemma StripAcquire(l: Lane)
    ensures Strip(Acquire(l)) == Acquire(Strip(l))
  {
  }

  lemma StripRelease(l: Lane)
    ensures Strip(Release(l)) == Release(Strip(l))
  {
  }

  lemma StripEnd(l: Lane)
    ensures Strip(EndOfStream(l)) == EndOfStream(Strip(l))
  {
  }

  /** The pump's actions do not depend on what the sockets could still do. */
  lemma StripThrough(l: Lane)
    ensures Strip(TakeWritable(l)) == TakeWritable(Strip(l)) && Strip(TakeReadable(l)) == TakeReadable(Strip(l))
    ensures Strip(AwaitBuffer(l)) == AwaitBuffer(Strip(l)) && Strip(HalfClosed(l)) == HalfClosed(Strip(l))
    ensures Blocked(Strip(l)) <==> Blocked(l)
  {
    hide *;
    StripTakes(l);
    StripEnds(l);
    StripBlocked(l);
  }

  lemma StripBuffer(l: Lane)
    ensures Strip(Acquire(TakeReadable(l))) == Acquire(TakeReadable(Strip(l)))
    ensures Strip(Release(l)) == Release(Strip(l)) && Strip(Release(EndOfStream(l))) == Release(EndOfStream(Strip(l)))
    ensures Strip(Strip(l)) == Strip(l)
  {
    hide *;
    StripTakes(l);
    StripAcquire(TakeReadable(l));
    StripRelease(l);
    StripEnd(l);
    StripRelease(EndOfStream(l));
    StripBlocked(l);
  }

  lemma StripReturns(l: Lane, n: nat)
    ensures Strip(AfterSend(l, n)) == AfterSend(Strip(l), n) && Strip(AfterReceive(l, n)) == AfterReceive(Strip(l), n)
  {
  }

  lemma StripSend(l: Lane, n: nat, more: bool)
    requires l.offset + n <= |l.buffer|
    ensures Strip(Send(l, n, more)) == Send(Strip(l), n, false) && Strip(Strip(l)) == Strip(l)
  {
  }

  lemma StripReceive(l: Lane, data: seq<Byte>, more: bool)
    requires |data| <= |l.buffer|
    ensures Strip(Receive(l, data, more)) == Receive(Strip(l), data, false) && Strip(Strip(l)) == Strip(l)
  {
  }

  lemma RestLeaving(l: Lane, way: Way, ops: nat, used: int, w: nat -> P.Happening, turn: nat)
    ensures Ready(l, Leaving(way, ops)) && Rest(l, Leaving(way, ops), used, w, turn) == P.Turned(l, true, 0, ops)
  {
  }

  lemma RestFailing(l: Lane, status: int, used: int, w: nat -> P.Happening, turn: nat, ops: nat)
    requires status != 0
    ensures Ready(l, Failing(StopLock, status))
    ensures Summed(Rest(l, Failing(StopLock, status), used, w, turn)) == Summed(P.Turned(l, true, status, ops))
  {
  }

  lemma AnyReady(l: Lane, way: Way, ops: nat, eof: bool)
    ensures Ready(l, Draining(way, ops, eof)) && Ready(l, HalfClosing(way, ops)) && Ready(l, NoBuffer(way, ops))
  {
  }

  lemma ReadyFlags(l: Lane, l': Lane, at: DispatchAt)
    requires Ready(l, at) && l' == l.(readable := l'.readable, writable := l'.writable)
    ensures Ready(l', at)
  {
    FlagsApart(l, l');
    hide BufferOk;
  }

  lemma StripReady(l: Lane, d: DispatchAt)
    requires Ready(l, d)
    ensures Ready(Strip(l), d) && Strip(l).waiting == l.waiting
  {
  }
}

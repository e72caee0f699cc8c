/** The dispatcher's steps through one pump loop, interleaved in any way with
    everybody else's, compute the loop of BridgePump. */
module BridgePumpRuns {
  import opened Lists
  import opened Lanes
  import opened BridgeState
  import opened BridgeSteps
  import opened BridgeInvariant
  import opened BridgeHandling
  import opened BridgeBystanders
  import opened BridgePumping
  import opened BridgeAllocating
  import opened BridgeTheorems
  import opened BridgePumpTurns
  import P = BridgePump

  function LaneOf(st: State, way: Way): Lane
    requires st.dispatcher.session < |st.sessions|
  {
    Strip(GetLane(st.sessions[st.dispatcher.session], way))
  }

  /** The rest of the loop, with the dispatcher where it stands. */
  ghost function Result(st: State, way: Way, w: nat -> P.Happening, turn: nat): P.Turned
    requires st.dispatcher.session < |st.sessions| && Ready(LaneOf(st, way), st.dispatcher.at)
  {
    Summed(Rest(LaneOf(st, way), st.dispatcher.at, st.bufferBytes, w, turn))
  }

  /** A step leads on: what follows, with world, is what was to follow, with
      before. */
  ghost predicate Leads(st: State, st': State, way: Way, before: nat -> P.Happening, turn: nat, world: nat -> P.Happening, turn': nat) {
    && st.dispatcher.session < |st.sessions| && Ready(LaneOf(st, way), st.dispatcher.at)
    && st'.dispatcher.session < |st'.sessions| && Ready(LaneOf(st', way), st'.dispatcher.at)
    && Result(st, way, before, turn) == Result(st', way, world, turn')
  }

  lemma LeadsOf(st: State, st': State, way: Way, before: nat -> P.Happening, turn: nat, world: nat -> P.Happening, turn': nat,
                l': Lane, at': DispatchAt, used': int)
    requires st.dispatcher.session < |st.sessions| && Ready(LaneOf(st, way), st.dispatcher.at)
    requires st'.dispatcher.session < |st'.sessions| && LaneOf(st', way) == l' && st'.dispatcher.at == at' && st'.bufferBytes == used'
    requires Ready(l', at')
    requires Summed(Rest(LaneOf(st, way), st.dispatcher.at, st.bufferBytes, before, turn)) == Summed(Rest(l', at', used', world, turn'))
    ensures Leads(st, st', way, before, turn, world, turn')
  {
    hide Rest, Ready, LaneOf, Summed;
  }

  lemma PutLane(st: State, way: Way, l: Lane, at: DispatchAt)
    requires st.dispatcher.session < |st.sessions|
    ensures var s := st.dispatcher.session; var st' := Dispatch(Put(st, s, SetLane(st.sessions[s], way, l)), at);
            && st'.dispatcher.session == s && s < |st'.sessions| && LaneOf(st', way) == Strip(l)
            && st'.dispatcher.at == at && st'.bufferBytes == st.bufferBytes
  {
  }

  lemma SameLaneOf(st: State, st': State, way: Way)
    requires st.dispatcher.session < |st.sessions| && st'.sessions == st.sessions && st'.dispatcher.session == st.dispatcher.session
    ensures LaneOf(st', way) == LaneOf(st, way)
  {
  }

  lemma LaneOfIs(st: State, way: Way)
    requires st.dispatcher.session < |st.sessions|
    ensures var l := GetLane(st.sessions[st.dispatcher.session], way);
            && LaneOf(st, way) == Strip(l) && Strip(l).held == l.held && (Pending(Strip(l)) <==> Pending(l))
            && Strip(l).done == l.done && Strip(l).waiting == l.waiting && Strip(l).readable == l.readable && Strip(l).writable == l.writable
    ensures DIRECTION_BUDGET == 32
  {
  }

  /** The lane is put back and the budget changes. */
  lemma PutLaneUsed(st: State, way: Way, l: Lane, at: DispatchAt, used: nat)
    requires st.dispatcher.session < |st.sessions|
    ensures var s := st.dispatcher.session; var st' := Dispatch(Put(st, s, SetLane(st.sessions[s], way, l)), at).(bufferBytes := used);
            && st'.dispatcher.session == s && s < |st'.sessions| && LaneOf(st', way) == Strip(l)
            && st'.dispatcher.at == at && st'.bufferBytes == used
  {
  }

  /** Nothing but the dispatcher's place changes. */
  lemma MoveLane(st: State, way: Way, at: DispatchAt)
    requires st.dispatcher.session < |st.sessions|
    ensures var st' := Dispatch(st, at);
            && st'.dispatcher.session < |st'.sessions| && LaneOf(st', way) == LaneOf(st, way)
            && st'.dispatcher.at == at && st'.bufferBytes == st.bufferBytes
  {
  }

  lemma AcquiredUse(l: Lane, used: int)
    ensures After(l, used, Acquire(TakeReadable(l))) == if l.held then used else used + BUFFER_LIMIT
    ensures l.held ==> Acquire(TakeReadable(l)) == TakeReadable(l)
  {
  }

  lemma TopReadStep(st: State, r: Reply, way: Way, ops: nat, w: nat -> P.Happening, turn: nat) returns (w0: nat -> P.Happening)
    requires CanHandle(st, r) && st.dispatcher.at == Top(way, ops) && ops < 32
    requires st.dispatcher.session < |st.sessions| && Ready(LaneOf(st, way), Top(way, ops)) && BufferOk(LaneOf(st, way))
    requires var l := GetLane(st.sessions[st.dispatcher.session], way); !Blocked(l) && !Pending(l)
    ensures Leads(st, Handle(st, r), way, w0, turn, w, turn) && NoLater(w0, w)
  {
    hide *;
    var l := GetLane(st.sessions[st.dispatcher.session], way);
    var k, used, st' := LaneOf(st, way), st.bufferBytes, Handle(st, r);
    LaneOfIs(st, way);
    StripTakes(l);
    StripAcquire(TakeReadable(l));
    TopHandled(st, r, way, ops);
    if l.held || (used + BUFFER_LIMIT <= TOTAL_BUFFER_LIMIT && !r.Fault?) {
      AcquiredUse(k, used);
      AcquiredUse(l, used);
      PutLane(st, way, TakeReadable(l), Receiving(way, ops));
      PutLaneUsed(st, way, Acquire(TakeReadable(l)), Receiving(way, ops), used + BUFFER_LIMIT);
      TopReceives(k, way, ops, used, w, turn);
      w0 := Instead(w, turn, Plenty(w(turn)));
      NoneLater(w, turn, P.Answer.Again);
      LeadsOf(st, st', way, w0, turn, w, turn, Acquire(TakeReadable(k)), Receiving(way, ops), After(k, used, Acquire(TakeReadable(k))));
    } else if used + BUFFER_LIMIT > TOTAL_BUFFER_LIMIT {
      PutLane(st, way, TakeReadable(l), NoBuffer(way, ops));
      TopStarves(k, way, ops, used, w, turn);
      AnyReady(TakeReadable(k), way, ops, false);
      w0 := Instead(w, turn, Headless(w(turn)));
      NoneLater(w, turn, P.Answer.Again);
      LeadsOf(st, st', way, w0, turn, w, turn, TakeReadable(k), NoBuffer(way, ops), used);
    } else {
      PutLane(st, way, TakeReadable(l), Failing(StopLock, r.code));
      TopFails(k, way, ops, used, w, turn, r.code);
      RestFailing(TakeReadable(k), r.code, used, w, turn, ops);
      w0 := Instead(w, turn, Still.(answer := P.NoMemory(r.code)));
      NoneLater(w, turn, P.NoMemory(r.code));
      LeadsOf(st, st', way, w0, turn, w, turn, TakeReadable(k), Failing(StopLock, r.code), used);
    }
  }

  lemma TopStep(st: State, r: Reply, way: Way, ops: nat, w: nat -> P.Happening, turn: nat) returns (w0: nat -> P.Happening)
    requires CanHandle(st, r) && st.dispatcher.at == Top(way, ops)
    requires st.dispatcher.session < |st.sessions| && Ready(LaneOf(st, way), Top(way, ops)) && BufferOk(LaneOf(st, way))
    ensures Leads(st, Handle(st, r), way, w0, turn, w, turn) && NoLater(w0, w)
  {
    hide *;
    var l := GetLane(st.sessions[st.dispatcher.session], way);
    var k, used, st' := LaneOf(st, way), st.bufferBytes, Handle(st, r);
    LaneOfIs(st, way);
    StripThrough(l);
    TopHandled(st, r, way, ops);
    if ops >= 32 || Blocked(l) {
      TopStops(k, way, ops, used, w, turn);
      MoveLane(st, way, Leaving(way, ops));
      RestLeaving(k, way, ops, used, w, turn);
      w0 := Instead(w, turn, Still);
      NoneLater(w, turn, P.Answer.Again);
      LeadsOf(st, st', way, w0, turn, w, turn, k, Leaving(way, ops), used);
    } else if Pending(l) {
      PutLane(st, way, TakeWritable(l), Sending(way, ops));
      TopSends(k, way, ops, used, w, turn);
      w0 := Instead(w, turn, Headless(w(turn)));
      NoneLater(w, turn, P.Answer.Again);
      LeadsOf(st, st', way, w0, turn, w, turn, TakeWritable(k), Sending(way, ops), used);
    } else {
      w0 := TopReadStep(st, r, way, ops, w, turn);
    }
  }

  lemma SendingReady(l: Lane, way: Way, ops: nat)
    ensures Ready(l, Sending(way, ops)) ==> BufferOk(l) && Pending(l)
    ensures Ready(l, Receiving(way, ops)) ==> BufferOk(l) && !Pending(l) && l.held
  {
  }

  lemma SendingStep(st: State, r: Reply, way: Way, ops: nat, w: nat -> P.Happening, turn: nat) returns (w0: nat -> P.Happening)
    requires CanHandle(st, r) && st.dispatcher.at == Sending(way, ops)
    requires st.dispatcher.session < |st.sessions| && Ready(LaneOf(st, way), Sending(way, ops))
    ensures Leads(st, Handle(st, r), way, w0, turn, w, turn) && NoLater(w0, w)
  {
    hide *;
    var l := GetLane(st.sessions[st.dispatcher.session], way);
    var k, used, st' := LaneOf(st, way), st.bufferBytes, Handle(st, r);
    LaneOfIs(st, way);
    SendingReady(k, way, ops);
    SendHandled(st, r, way, ops);
    if r.Count? && r.n > 0 {
      StripSend(l, r.n, r.more);
      PutLane(st, way, Send(l, r.n, r.more), Sent(way, ops + 1, r.n));
      StripRemains(l, r.n);
      SendMoves(k, way, ops, used, w, turn, r.n);
      w0 := Instead(w, turn, w(turn).(answer := P.Answer.Taken(r.n)));
      NoneLater(w, turn, P.Answer.Taken(r.n));
      LeadsOf(st, st', way, w0, turn, w, turn, Send(k, r.n, false), Sent(way, ops + 1, r.n), used);
    } else {
      var a, status := if r.Count? then P.Answer.Taken(0) else if r.Fault? then P.Answer.Fault(r.code) else P.Answer.Again,
                       if r.Count? then -5 else if r.Fault? then r.code else 0;
      var at' := if status == 0 then Leaving(way, ops + 1) else Failing(StopLock, status);
      w0 := Instead(w, turn, Still.(answer := a));
      NoneLater(w, turn, a);
      MoveLane(st, way, at');
      SendStops(k, way, ops, used, w, turn, a, status);
      if status == 0 {
        RestLeaving(k, way, ops + 1, used, w, turn);
      } else {
        RestFailing(k, status, used, w, turn, ops + 1);
      }
      LeadsOf(st, st', way, w0, turn, w, turn, k, at', used);
    }
  }

  lemma StripRemains(l: Lane, n: nat)
    ensures l.offset + n <= l.length ==> n <= Strip(l).length - Strip(l).offset
  {
  }

  lemma StripEmptied(l: Lane, eof: bool)
    ensures Strip(Emptied(l, eof)) == if eof then Release(EndOfStream(Strip(l))) else Release(Strip(l))
  {
    hide Strip, Release, EndOfStream;
    StripBuffer(l);
  }

  lemma ReceivingStep(st: State, r: Reply, way: Way, ops: nat, w: nat -> P.Happening, turn: nat) returns (w0: nat -> P.Happening)
    requires CanHandle(st, r) && st.dispatcher.at == Receiving(way, ops) && st.bufferBytes >= BUFFER_LIMIT
    requires st.dispatcher.session < |st.sessions| && Ready(LaneOf(st, way), Receiving(way, ops))
    ensures Leads(st, Handle(st, r), way, w0, turn, w, turn) && NoLater(w0, w)
  {
    hide *;
    var l := GetLane(st.sessions[st.dispatcher.session], way);
    var k, used, st' := LaneOf(st, way), st.bufferBytes, Handle(st, r);
    LaneOfIs(st, way);
    SendingReady(k, way, ops);
    ReceiveHandled(st, r, way, ops);
    if r.Data? {
      StripReceive(l, r.bytes, r.more);
      PutLane(st, way, Receive(l, r.bytes, r.more), Received(way, ops + 1, r.bytes));
      ReceiveFills(k, way, ops, used, w, turn, r.bytes);
      w0 := Instead(w, turn, w(turn).(answer := P.Answer.Filled(r.bytes[0], r.bytes[1..])));
      NoneLater(w, turn, P.Answer.Filled(r.bytes[0], r.bytes[1..]));
      LeadsOf(st, st', way, w0, turn, w, turn, Receive(k, r.bytes, false), Received(way, ops + 1, r.bytes), used);
    } else if r.Fault? {
      MoveLane(st, way, Failing(StopLock, r.code));
      ReceiveStops(k, way, ops, used, w, turn, r.code);
      RestFailing(k, r.code, used, w, turn, ops + 1);
      w0 := Instead(w, turn, Still.(answer := P.Answer.Fault(r.code)));
      NoneLater(w, turn, P.Answer.Fault(r.code));
      LeadsOf(st, st', way, w0, turn, w, turn, k, Failing(StopLock, r.code), used);
    } else {
      var eof := r.EndOfFile?;
      var k' := if eof then Release(EndOfStream(k)) else Release(k);
      StripEmptied(l, eof);
      PutLaneUsed(st, way, Emptied(l, eof), Draining(way, ops + 1, eof), used - BUFFER_LIMIT);
      AnyReady(k', way, ops + 1, eof);
      if eof {
        ReceiveEnds(k, way, ops, used, w, turn);
        w0 := Instead(w, turn, w(turn).(answer := AtEnd(w(turn).answer)));
        NoneLater(w, turn, AtEnd(w(turn).answer));
      } else {
        ReceiveBlocks(k, way, ops, used, w, turn);
        w0 := Instead(w, turn, w(turn).(answer := P.Answer.Again));
        NoneLater(w, turn, P.Answer.Again);
      }
      LeadsOf(st, st', way, w0, turn, w, turn, k', Draining(way, ops + 1, eof), used - BUFFER_LIMIT);
    }
  }

  lemma ReturnStep(st: State, r: Reply, way: Way, w: nat -> P.Happening, turn: nat)
    requires CanHandle(st, r) && (st.dispatcher.at.Sent? || st.dispatcher.at.Received?) && st.dispatcher.at.way == way
    requires st.dispatcher.session < |st.sessions| && Ready(LaneOf(st, way), st.dispatcher.at)
    ensures Leads(st, Handle(st, r), way, Instead(w, turn, Still), turn, w, turn + 1)
  {
    hide *;
    var at := st.dispatcher.at;
    var l := GetLane(st.sessions[st.dispatcher.session], way);
    var k, used, st' := LaneOf(st, way), st.bufferBytes, Handle(st, r);
    var n := if at.Sent? then at.count else |at.data|;
    LaneOfIs(st, way);
    TurnHandled(st, r);
    StripReturns(l, n);
    PutLane(st, way, if at.Sent? then AfterSend(l, n) else AfterReceive(l, n), Top(way, at.ops));
    Returns(k, way, at, used, w, turn);
    LeadsOf(st, st', way, Instead(w, turn, Still), turn, w, turn + 1, if at.Sent? then AfterSend(k, n) else AfterReceive(k, n),
            Top(way, at.ops), used);
  }

  lemma HalfCloseStep(st: State, r: Reply, way: Way, ops: nat, w: nat -> P.Happening, turn: nat) returns (w0: nat -> P.Happening)
    requires CanHandle(st, r) && st.dispatcher.at == HalfClosing(way, ops) && st.dispatcher.session < |st.sessions|
    ensures Leads(st, Handle(st, r), way, w0, turn, w, turn) && NoLater(w0, w)
  {
    hide *;
    var l := GetLane(st.sessions[st.dispatcher.session], way);
    var k, used, st' := LaneOf(st, way), st.bufferBytes, Handle(st, r);
    LaneOfIs(st, way);
    TurnHandled(st, r);
    AnyReady(k, way, ops, true);
    var shut := if r.Fault? then Some(r.code as P.ErrorCode) else None;
    w0 := Instead(w, turn, Still.(answer := P.Answer.Ended(shut)));
    NoneLater(w, turn, P.Answer.Ended(shut));
    HalfCloses(k, way, ops, used, w, turn, shut);
    if r.Fault? {
      MoveLane(st, way, Failing(StopLock, r.code));
      RestFailing(k, r.code, used, w, turn, ops);
      LeadsOf(st, st', way, w0, turn, w, turn, k, Failing(StopLock, r.code), used);
    } else {
      PutLane(st, way, HalfClosed(l), Leaving(way, ops));
      StripEnds(l);
      RestLeaving(HalfClosed(k), way, ops, used, w, turn);
      LeadsOf(st, st', way, w0, turn, w, turn, HalfClosed(k), Leaving(way, ops), used);
    }
  }

  lemma NoBufferStep(st: State, r: Reply, way: Way, ops: nat, w: nat -> P.Happening, turn: nat)
    requires CanHandle(st, r) && st.dispatcher.at == NoBuffer(way, ops)
    ensures Leads(st, Handle(st, r), way, Instead(w, turn, Still), turn, w, turn)
  {
    var l := GetLane(st.sessions[st.dispatcher.session], way);
    var k, used, st' := LaneOf(st, way), st.bufferBytes, Handle(st, r);
    StripThrough(l);
    assert LaneOf(st', way) == Strip(AwaitBuffer(l)) && st'.bufferBytes == used;
    Awaits(k, way, ops, used, w, turn);
    RestLeaving(AwaitBuffer(k), way, ops, used, w, turn);
    AnyReady(k, way, ops, false);
    hide Rest, Ready, Leads, Instead, LaneOf, Summed, Strip, AwaitBuffer;
    LeadsOf(st, st', way, Instead(w, turn, Still), turn, w, turn, AwaitBuffer(k), Leaving(way, ops), used);
  }

  lemma WakeKeepsLane(st: State, way: Way)
    requires st.waiters != [] && st.waiters[0] < |st.sessions| && st.dispatcher.session < |st.sessions| && !LaneOf(st, way).waiting
    ensures var st' := WakeWaiter(st);
            && st'.dispatcher == st.dispatcher && st'.bufferBytes == st.bufferBytes
            && st'.dispatcher.session < |st'.sessions| && LaneOf(st', way) == LaneOf(st, way)
  {
    var x := st.sessions[st.dispatcher.session];
    assert GetLane(Woken(x), way) == GetLane(x, way);
    hide Strip;
  }

  lemma DrainStep(st: State, r: Reply, way: Way, ops: nat, eof: bool, w: nat -> P.Happening, turn: nat) returns (w0: nat -> P.Happening)
    requires CanHandle(st, r) && st.dispatcher.at == Draining(way, ops, eof) && !LaneOf(st, way).waiting
    ensures Leads(st, Handle(st, r), way, w0, turn, w, turn) && NoLater(w0, w)
  {
    var k, used, st' := LaneOf(st, way), st.bufferBytes, Handle(st, r);
    AnyReady(k, way, ops, eof);
    NoneLater(w, turn, P.Answer.Again);
    if st.waiters != [] && st.waiters[0] < |st.sessions| {
      assert st' == WakeWaiter(st);
      w0 := w;
      hide *;
      WakeKeepsLane(st, way);
      LeadsOf(st, st', way, w0, turn, w, turn, k, Draining(way, ops, eof), used);
    } else {
      var at' := if eof then HalfClosing(way, ops) else Leaving(way, ops);
      assert st' == Dispatch(st, at');
      SameLaneOf(st, st', way);
      w0 := if eof then w else Instead(w, turn, Still);
      DrainEnds(k, way, ops, eof, used, w, turn);
      RestLeaving(k, way, ops, used, w, turn);
      hide *;
      LeadsOf(st, st', way, w0, turn, w, turn, k, at', used);
    }
  }

  lemma EdgesOf(st: State, st': State, way: Way)
    requires StandsAside(st, st') && st.dispatcher.session < |st.sessions|
    ensures st'.dispatcher.session < |st'.sessions|
    ensures var l, l' := LaneOf(st, way), LaneOf(st', way);
            l' == l.(readable := l'.readable, writable := l'.writable) && (l.readable ==> l'.readable) && (l.writable ==> l'.writable)
  {
    var s := st.dispatcher.session;
    assert LanesAside(st.sessions[s], st'.sessions[s]);
    hide SessionsAside, StandsAside;
  }

  /** A step sets a flag of the lane in hand while a turn is under way. */
  predicate Sets(st: State, st': State, way: Way, write: bool) {
    && !st.dispatcher.at.Top? && st.dispatcher.session < |st.sessions| && st'.dispatcher.session < |st'.sessions|
    && !Flag(LaneOf(st, way), write) && Flag(LaneOf(st', way), write)
  }

  lemma SetsIs(st: State, st': State, way: Way, w: nat -> P.Happening, turn: nat, n: nat, write: bool)
    requires st.dispatcher.session < |st.sessions| && st'.dispatcher.session < |st'.sessions|
    requires LateFlag(w(n), write) || (n == turn && !st.dispatcher.at.Top? && !Flag(LaneOf(st, way), write) && Flag(LaneOf(st', way), write))
    ensures LateOrSet(st, st', way, w, turn, n, write)
  {
  }

  /** No flag is late in the first world that is not late in the second, or set
      by this step in this turn. */
  ghost predicate LaterBy(st: State, st': State, way: Way, w0: nat -> P.Happening, w: nat -> P.Happening, turn: nat) {
    forall n: nat, write: bool :: LateFlag(w0(n), write) ==> LateOrSet(st, st', way, w, turn, n, write)
  }

  ghost predicate LateOrSet(st: State, st': State, way: Way, w: nat -> P.Happening, turn: nat, n: nat, write: bool) {
    LateFlag(w(n), write) || (n == turn && Sets(st, st', way, write))
  }

  lemma LaterByIs(st: State, st': State, way: Way, w0: nat -> P.Happening, w: nat -> P.Happening, turn: nat)
    requires forall n: nat, write: bool :: LateFlag(w0(n), write) ==> LateOrSet(st, st', way, w, turn, n, write)
    ensures LaterBy(st, st', way, w0, w, turn)
  {
    hide LateOrSet;
  }

  lemma OthersStep(st: State, st': State, way: Way, w: nat -> P.Happening, turn: nat) returns (w0: nat -> P.Happening)
    requires StandsAside(st, st') && InLoop(st.dispatcher.at, way)
    requires st.dispatcher.session < |st.sessions| && Ready(LaneOf(st, way), st.dispatcher.at)
    ensures Leads(st, st', way, w0, turn, w, turn)
    ensures LaterBy(st, st', way, w0, w, turn)
  {
    assert st'.dispatcher == st.dispatcher && st'.bufferBytes == st.bufferBytes;
    hide *;
    EdgesOf(st, st', way);
    var l, l', at, used := LaneOf(st, way), LaneOf(st', way), st.dispatcher.at, st.bufferBytes;
    ReadyFlags(l, l', at);
    EdgesKeep(l, l', way, at, used, w, turn);
    w0 := Instead(w, turn, Noted(at, w(turn), l, l'));
    forall n: nat, write: bool | LateFlag(w0(n), write)
      ensures LateOrSet(st, st', way, w, turn, n, write)
    {
      NotedLate(at, w, turn, l, l', n, write);
      SetsIs(st, st', way, w, turn, n, write);
    }
    LaterByIs(st, st', way, w0, w, turn);
    LeadsOf(st, st', way, w0, turn, w, turn, l', at, used);
  }

  /** What the invariant says of the lane in the loop. */
  lemma InvReady(st: State, way: Way)
    requires Inv(st) && InLoop(st.dispatcher.at, way)
    ensures st.dispatcher.session < |st.sessions| && Ready(LaneOf(st, way), st.dispatcher.at)
    ensures st.dispatcher.at.Receiving? ==> st.bufferBytes >= BUFFER_LIMIT
    ensures st.dispatcher.at.Draining? ==> !LaneOf(st, way).waiting && st.dispatcher.at.ops >= 1
    ensures st.dispatcher.at.NoBuffer? ==> !Pending(LaneOf(st, way))
  {
    var s, d := st.dispatcher.session, st.dispatcher.at;
    assert s < |st.sessions| by {
      assert PositionInv(st);
    }
    var x := st.sessions[s];
    var l := GetLane(x, way);
    assert DispatchOf(st, s) == d;
    assert d.Receiving? && l.held ==> st.bufferBytes >= BUFFER_LIMIT by {
      if d.Receiving? && l.held {
        hide *;
        InvParts(st);
        HeldBytes(st, s, x, way);
      }
    }
    SessionFacts(st, s);
    GetLanes(x, way);
    hide Inv;
    LaneReady(l, way, d, x.core, ControlOf(st, s), DueOf(x));
    StripReady(l, d);
  }

  lemma LaneReady(l: Lane, way: Way, d: DispatchAt, k: Core, c: ControlAt, due: Due)
    requires LaneInv(l, way, d, k, c, due) && InLoop(d, way) && k.running
    ensures Ready(l, d) && (d.Receiving? ==> l.held) && (d.Draining? ==> !l.waiting && d.ops >= 1) && (d.NoBuffer? ==> !Pending(l))
  {
  }

  /** A turn ends when the dispatcher goes back to the head of the loop. */
  function TurnAfter(st: State, a: Action, turn: nat): nat {
    if a.ByDispatcher? && (st.dispatcher.at.Sent? || st.dispatcher.at.Received?) then turn + 1 else turn
  }

  lemma HandleStep(st: State, r: Reply, way: Way, w: nat -> P.Happening, turn: nat) returns (w0: nat -> P.Happening)
    requires Inv(st) && CanHandle(st, r) && InLoop(st.dispatcher.at, way)
    ensures Leads(st, Handle(st, r), way, w0, turn, w, TurnAfter(st, ByDispatcher(r), turn)) && NoLater(w0, w)
  {
    hide Inv, CanHandle, Handle, Leads, LaneOf, BufferOk, Instead, NoLater;
    InvReady(st, way);
    NoneLater(w, turn, P.Answer.Again);
    match st.dispatcher.at
    case Top(_, ops) => w0 := TopStep(st, r, way, ops, w, turn);
    case Sending(_, ops) => w0 := SendingStep(st, r, way, ops, w, turn);
    case Sent(_, _, _) =>
      ReturnStep(st, r, way, w, turn);
      w0 := Instead(w, turn, Still);
    case NoBuffer(_, ops) =>
      NoBufferStep(st, r, way, ops, w, turn);
      w0 := Instead(w, turn, Still);
    case Receiving(_, ops) => w0 := ReceivingStep(st, r, way, ops, w, turn);
    case Received(_, _, _) =>
      ReturnStep(st, r, way, w, turn);
      w0 := Instead(w, turn, Still);
    case Draining(_, ops, eof) => w0 := DrainStep(st, r, way, ops, eof, w, turn);
    case HalfClosing(_, ops) => w0 := HalfCloseStep(st, r, way, ops, w, turn);
  }

  /** The dispatcher's own step sets no flag late; somebody else's may. */
  ghost predicate Grows(st: State, a: Action, st': State, way: Way, w0: nat -> P.Happening, w: nat -> P.Happening, turn: nat) {
    if a.ByDispatcher? then NoLater(w0, w) else LaterBy(st, st', way, w0, w, turn)
  }

  lemma GrowsIs(st: State, a: Action, st': State, way: Way, w0: nat -> P.Happening, w: nat -> P.Happening, turn: nat)
    requires if a.ByDispatcher? then NoLater(w0, w) else LaterBy(st, st', way, w0, w, turn)
    ensures Grows(st, a, st', way, w0, w, turn)
  {
    hide NoLater, LaterBy;
  }

  lemma LoopStep(st: State, a: Action, way: Way, w: nat -> P.Happening, turn: nat) returns (w0: nat -> P.Happening)
    requires Inv(st) && Can(st, a) && InLoop(st.dispatcher.at, way)
    ensures Leads(st, Do(st, a), way, w0, turn, w, TurnAfter(st, a, turn))
    ensures Grows(st, a, Do(st, a), way, w0, w, turn)
  {
    hide *;
    InLoopIs(st.dispatcher.at, way);
    if a.ByDispatcher? {
      DispatcherActs(st, a);
      w0 := HandleStep(st, a.reply, way, w, turn);
      GrowsIs(st, a, Do(st, a), way, w0, w, turn);
    } else {
      NoTurn(st, a, turn);
      InvReady(st, way);
      InvParts(st);
      OthersAside(st, a);
      w0 := OthersStep(st, Do(st, a), way, w, turn);
      GrowsIs(st, a, Do(st, a), way, w0, w, turn);
    }
  }

  lemma NoTurn(st: State, a: Action, turn: nat)
    requires !a.ByDispatcher?
    ensures TurnAfter(st, a, turn) == turn
  {
  }

  lemma InLoopIs(at: DispatchAt, way: Way)
    requires InLoop(at, way)
    ensures at != Nothing
  {
  }

  lemma DispatcherActs(st: State, a: Action)
    requires Can(st, a) && a.ByDispatcher? && st.dispatcher.at != Nothing
    ensures CanHandle(st, a.reply) && Do(st, a) == Handle(st, a.reply)
  {
    hide CanHandle, Handle, Loop;
  }

  /** The dispatcher has come out of the loop: done with it for now, or failed. */
  predicate CameOut(at: DispatchAt, way: Way) {
    (at.Leaving? && at.way == way) || (at.Failing? && at.at == StopLock && at.status != 0)
  }

  /** The turn under way in the k-th state, if it is this one in the i-th. */
  function TurnAt(states: seq<State>, actions: seq<Action>, i: nat, k: nat, turn: nat): nat
    requires i <= k < |states| == |actions| + 1
    decreases k - i
  {
    if i == k then turn else TurnAt(states, actions, i + 1, k, TurnAfter(states[i], actions[i], turn))
  }

  /** Somebody else set the flag between the i-th and the j-th state, in turn n. */
  ghost predicate SetIn(states: seq<State>, actions: seq<Action>, i: nat, j: nat, way: Way, turn: nat, n: nat, write: bool)
    requires i <= j < |states| == |actions| + 1
  {
    exists k :: i <= k < j && TurnAt(states, actions, i, k, turn) == n && !actions[k].ByDispatcher? && Sets(states[k], states[k + 1], way, write)
  }

  /** The flags that are late in the world were set in the run, in those turns. */
  ghost predicate Grounded(w: nat -> P.Happening, states: seq<State>, actions: seq<Action>, i: nat, j: nat, way: Way, turn: nat)
    requires i <= j < |states| == |actions| + 1
  {
    forall n: nat, write: bool :: LateFlag(w(n), write) ==> SetIn(states, actions, i, j, way, turn, n, write)
  }

  lemma SetEarlier(states: seq<State>, actions: seq<Action>, i: nat, j: nat, way: Way, turn: nat, n: nat, write: bool)
    requires i < j < |states| == |actions| + 1
    requires || SetIn(states, actions, i + 1, j, way, TurnAfter(states[i], actions[i], turn), n, write)
             || (n == turn && !actions[i].ByDispatcher? && Sets(states[i], states[i + 1], way, write))
    ensures SetIn(states, actions, i, j, way, turn, n, write)
  {
    hide TurnAfter, Sets;
    var turn' := TurnAfter(states[i], actions[i], turn);
    if SetIn(states, actions, i + 1, j, way, turn', n, write) {
      var k :| i + 1 <= k < j && TurnAt(states, actions, i + 1, k, turn') == n && !actions[k].ByDispatcher?
               && Sets(states[k], states[k + 1], way, write);
      assert TurnAt(states, actions, i, k, turn) == n;
    } else {
      assert TurnAt(states, actions, i, i, turn) == n;
    }
  }

  lemma GroundedStep(w0: nat -> P.Happening, w: nat -> P.Happening, states: seq<State>, actions: seq<Action>, i: nat, j: nat, way: Way, turn: nat)
    requires i < j < |states| == |actions| + 1
    requires Grounded(w, states, actions, i + 1, j, way, TurnAfter(states[i], actions[i], turn))
    requires Grows(states[i], actions[i], states[i + 1], way, w0, w, turn)
    ensures Grounded(w0, states, actions, i, j, way, turn)
  {
    hide Sets, TurnAfter, SetIn;
    forall n: nat, write: bool | LateFlag(w0(n), write) ensures SetIn(states, actions, i, j, way, turn, n, write) {
      assert actions[i].ByDispatcher? ==> LateFlag(w(n), write);
      assert !actions[i].ByDispatcher? ==> LateOrSet(states[i], states[i + 1], way, w, turn, n, write);
      if LateFlag(w(n), write) {
        assert SetIn(states, actions, i + 1, j, way, TurnAfter(states[i], actions[i], turn), n, write);
      }
      SetEarlier(states, actions, i, j, way, turn, n, write);
    }
  }

  lemma GroundedStill(w: nat -> P.Happening, states: seq<State>, actions: seq<Action>, j: nat, way: Way, turn: nat)
    requires j < |states| == |actions| + 1 && forall n: nat :: w(n) == Still
    ensures Grounded(w, states, actions, j, j, way, turn)
  {
  }

  /** From any position in the loop to its end, however everybody's steps
      interleave, what the dispatcher does to the lane is the rest of the loop,
      for some answers, and the flags that were set. */
  lemma {:induction false} RestOfLoop(states: seq<State>, actions: seq<Action>, i: nat, j: nat, way: Way, turn: nat)
    returns (w: nat -> P.Happening)
    requires IsRun(states, actions) && i <= j < |states| == |actions| + 1 && CameOut(states[j].dispatcher.at, way)
    requires forall k :: i <= k < j ==> InLoop(states[k].dispatcher.at, way)
    requires states[j].dispatcher.session < |states[j].sessions|
    ensures states[i].dispatcher.session < |states[i].sessions| && Ready(LaneOf(states[i], way), states[i].dispatcher.at)
    ensures Result(states[i], way, w, turn) == Final(states[j], way)
    ensures Grounded(w, states, actions, i, j, way, turn)
    decreases j - i
  {
    hide *;
    if i == j {
      w := (n: nat) => Still;
      FinalIs(states[j], way, w, turn);
      GroundedStill(w, states, actions, j, way, turn);
    } else {
      RunInv(states, actions, i);
      StepOfRun(states, actions, i);
      var turn' := TurnAfter(states[i], actions[i], turn);
      var w' := RestOfLoop(states, actions, i + 1, j, way, turn');
      w := LoopStep(states[i], actions[i], way, w', turn);
      LeadsParts(states[i], states[i + 1], way, w, turn, w', turn');
      GroundedStep(w, w', states, actions, i, j, way, turn);
    }
  }

  lemma LeadsParts(st: State, st': State, way: Way, before: nat -> P.Happening, turn: nat, world: nat -> P.Happening, turn': nat)
    requires Leads(st, st', way, before, turn, world, turn')
    ensures st.dispatcher.session < |st.sessions| && Ready(LaneOf(st, way), st.dispatcher.at)
    ensures st'.dispatcher.session < |st'.sessions| && Ready(LaneOf(st', way), st'.dispatcher.at)
    ensures Result(st, way, before, turn) == Result(st', way, world, turn')
  {
    hide Result, Ready, LaneOf;
  }

  /** The lane when the loop is over, its status and, if that is 0, the number of
      operations. */
  function Final(st: State, way: Way): P.Turned
    requires st.dispatcher.session < |st.sessions| && CameOut(st.dispatcher.at, way)
  {
    if st.dispatcher.at.Leaving? then P.Turned(LaneOf(st, way), true, 0, st.dispatcher.at.ops)
    else P.Turned(LaneOf(st, way), true, st.dispatcher.at.status, 0)
  }

  lemma FinalIs(st: State, way: Way, w: nat -> P.Happening, turn: nat)
    requires st.dispatcher.session < |st.sessions| && CameOut(st.dispatcher.at, way)
    ensures Ready(LaneOf(st, way), st.dispatcher.at) && Result(st, way, w, turn) == Final(st, way)
  {
    hide LaneOf;
  }

  /** The dispatcher's steps through the pump loop of a lane, from its head with
      no operation done to its end, compute the loop of BridgePump, whatever the
      others do meanwhile. */
  lemma PumpRuns(states: seq<State>, actions: seq<Action>, i: nat, j: nat, way: Way) returns (w: nat -> P.Happening)
    requires IsRun(states, actions) && i < j < |states| && states[i].dispatcher.at == Top(way, 0)
    requires CameOut(states[j].dispatcher.at, way) && forall k :: i <= k < j ==> InLoop(states[k].dispatcher.at, way)
    ensures states[i].dispatcher.session < |states[i].sessions| && states[j].dispatcher.session < |states[j].sessions|
    ensures BufferOk(LaneOf(states[i], way))
    ensures Summed(P.Pumped(LaneOf(states[i], way), states[i].bufferBytes, w, 0, 0)) == Final(states[j], way)
    ensures Grounded(w, states, actions, i, j, way, 0)
  {
    hide *;
    RunInv(states, actions, j);
    InHandExists(states[j], way);
    RunLength(states, actions);
    w := RestOfLoop(states, actions, i, j, way, 0);
    ResultAtTop(states[i], way, w);
  }

  lemma ResultAtTop(st: State, way: Way, w: nat -> P.Happening)
    requires st.dispatcher.session < |st.sessions| && st.dispatcher.at == Top(way, 0) && Ready(LaneOf(st, way), st.dispatcher.at)
    ensures BufferOk(LaneOf(st, way)) && Result(st, way, w, 0) == Summed(P.Pumped(LaneOf(st, way), st.bufferBytes, w, 0, 0))
  {
    hide LaneOf, BufferOk, P.Pumped, Summed;
  }

  lemma InHandExists(st: State, way: Way)
    requires Inv(st) && CameOut(st.dispatcher.at, way)
    ensures st.dispatcher.session < |st.sessions|
  {
    hide Inv;
    InvParts(st);
  }
}

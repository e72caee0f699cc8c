/** Every step of the dispatcher keeps the invariant: the pump loops. */
module BridgePumping {
  import opened Bytes
  import opened Lanes
  import opened BridgeState
  import opened BridgeSteps
  import opened BridgeInvariant
  import opened BridgeSessionProofs
  import opened BridgePumpProofs
  import opened BridgeFinishProofs
  import opened BridgeFrames
  import opened BridgeHandling
  import opened BridgeDispatching

  // ----- steps within one lane -----

  lemma LaneDesks(way: Way, d: DispatchAt, d': DispatchAt)
    requires OnLane(d, way) && (OnLane(d', way) || d'.Failing?)
    ensures SameDesk(d, d') && (Waking(d) <==> d.Draining?) && (Waking(d') <==> d'.Draining?)
  {
  }

  lemma LaneLinks(x: Session, way: Way, l: Lane)
    ensures var y := SetLane(x, way, l);
            && SameNotices(x, y) && SameQueue(x, y) && SameLinksButHeld(x, y) && y.core == x.core
            && (l.held == GetLane(x, way).held ==> SameLinks(x, y))
  {
  }

  /** A step within the loop over a lane, from the invariant of the lane. */
  lemma PumpHand(st: State, s: nat, x: Session, way: Way, d: DispatchAt, d': DispatchAt, l: Lane, c: ControlAt)
    requires InHand(st, s, x, d, c) && OnLane(d, way) && OnLane(d', way) && (d.Draining? ==> st.waiters == []) && !d'.Draining?
    requires Steady(GetLane(x, way), l) && l.held == GetLane(x, way).held && Pumping(l, way, d', x.core, c, DueOf(x))
    requires d'.NoBuffer? ==> st.bufferBytes == TOTAL_BUFFER_LIMIT
    ensures s < |st.sessions| && Inv(Dispatch(Put(st, s, SetLane(x, way, l)), d'))
    ensures l == GetLane(x, way) ==> Put(st, s, SetLane(x, way, l)) == st
  {
    hide *;
    InHandLocal(st, s, x, d, c);
    InHandParts(st, s, x, d, c);
    PumpLocal(x, way, l, d, d', c, DueOf(x));
    LaneDesks(way, d, d');
    LaneLinks(x, way, l);
    if l == GetLane(x, way) {
      SetLaneSame(x, way, l);
      PutSame(st, s);
    }
    PlainHand(st, s, x, d, c, SetLane(x, way, l), d');
  }

  /** The step out of the loop with an error. */
  lemma FailHand(st: State, s: nat, x: Session, way: Way, d: DispatchAt, l: Lane, status: int, c: ControlAt)
    requires InHand(st, s, x, d, c) && OnLane(d, way) && !d.Draining? && status != 0
    requires Steady(GetLane(x, way), l) && l.held == GetLane(x, way).held
    requires Pumping(l, way, Failing(StopLock, status), x.core, c, DueOf(x))
    ensures s < |st.sessions| && Inv(Dispatch(Put(st, s, SetLane(x, way, l)), Failing(StopLock, status)))
    ensures l == GetLane(x, way) ==> Put(st, s, SetLane(x, way, l)) == st
  {
    hide *;
    InHandLocal(st, s, x, d, c);
    InHandParts(st, s, x, d, c);
    var y, due := SetLane(x, way, l), DueOf(x);
    LocalParts(x, d, c, due);
    PumpedLane(x, way, d, c, due);
    FailFlow(x, way, l, d, status, c, due);
    SetLaneMarks(x, way, l);
    FailOwned(x.core, way, d, status, c, due.inLock, BothDone(x), BothDone(y));
    LocalOf(y, Failing(StopLock, status), c, due);
    LaneDesks(way, d, Failing(StopLock, status));
    LaneLinks(x, way, l);
    if l == GetLane(x, way) {
      SetLaneSame(x, way, l);
      PutSame(st, s);
    }
    PlainHand(st, s, x, d, c, SetLane(x, way, l), Failing(StopLock, status));
  }

  lemma SetLaneSame(x: Session, way: Way, l: Lane)
    requires l == GetLane(x, way)
    ensures SetLane(x, way, l) == x
  {
  }

  lemma SameHeld(l: Lane, n: nat)
    ensures TakeWritable(l).held == l.held && TakeReadable(l).held == l.held && AfterSend(l, n).held == l.held
    ensures AfterReceive(l, n).held == l.held && HalfClosed(l).held == l.held
    ensures l.held ==> Acquire(TakeReadable(l)) == TakeReadable(l)
  {
  }

  lemma SendHeld(l: Lane, n: nat, room: bool)
    requires l.offset + n <= |l.buffer|
    ensures Send(l, n, room).held == l.held
  {
  }

  lemma ReceiveHeld(l: Lane, data: seq<Byte>, input: bool)
    requires |data| <= |l.buffer|
    ensures Receive(l, data, input).held == l.held
  {
  }

  // ----- taking and dropping a buffer -----

  lemma Held(x: Session, way: Way, l: Lane)
    ensures Holding(SetLane(x, way, l)) - Holding(x) ==
            (if l.held then 1 else 0) - (if GetLane(x, way).held then 1 else 0)
  {
  }

  lemma AcquireHeld(l: Lane)
    ensures Acquire(TakeReadable(l)).held && !Release(l).held && !Release(EndOfStream(l)).held
  {
  }

  lemma AcquireScarce(st: State, s: nat, x: Session, way: Way, ops: nat)
    requires ScarceInv(st) && s < |st.sessions| && st.dispatcher.at == Top(way, ops)
    requires st.bufferBytes + BUFFER_LIMIT <= TOTAL_BUFFER_LIMIT
    ensures ScarceInv(Dispatch(Put(st, s, x), Receiving(way, ops)).(bufferBytes := st.bufferBytes + BUFFER_LIMIT))
  {
  }

  lemma DrainScarce(st: State, s: nat, x: Session, way: Way, ops: nat, eof: bool, bytes: nat)
    requires s < |st.sessions| && bytes + BUFFER_LIMIT <= TOTAL_BUFFER_LIMIT
    ensures ScarceInv(Dispatch(Put(st, s, x), Draining(way, ops, eof)).(bufferBytes := bytes))
  {
  }

  lemma HeldBytes(st: State, s: nat, x: Session, way: Way)
    requires TablesInv(st) && s < |st.sessions| && x == st.sessions[s] && GetLane(x, way).held
    ensures BUFFER_LIMIT <= st.bufferBytes <= TOTAL_BUFFER_LIMIT
  {
    hide Mirrors, RegistryInv;
    BudgetCovers(st, s);
  }

  lemma BudgetPut(st: State, s: nat, x: Session, at: DispatchAt, bytes: nat)
    requires s == st.dispatcher.session && s < |st.sessions| && st.dispatcher.at != Nothing
    requires SameDesk(st.dispatcher.at, at) && SameNotices(st.sessions[s], x)
    requires st.sessions[s].core.stopping ==> x.core.stopping
    ensures var st' := Dispatch(Put(st, s, x), at).(bufferBytes := bytes);
            && HandsStep(st, st', s, x, at) && SameListsButBudget(st, st') && st'.sessions == st.sessions[s := x] && st'.bufferBytes == bytes
  {
    hide SameDesk, SameNotices;
  }

  /** A step that takes or drops a buffer. */
  lemma BudgetHand(st: State, s: nat, x: Session, d: DispatchAt, c: ControlAt, x': Session, d': DispatchAt, bytes: nat)
    requires InHand(st, s, x, d, c) && Local(x', d', c, DueOf(x)) && SameDesk(d, d') && SameNotices(x, x') && SameLinksButHeld(x, x')
    requires x.core.stopping ==> x'.core.stopping
    requires bytes == st.bufferBytes + BUFFER_LIMIT * (Holding(x') - Holding(x)) && bytes <= TOTAL_BUFFER_LIMIT
    requires s < |st.sessions| && ScarceInv(Dispatch(Put(st, s, x'), d').(bufferBytes := bytes))
    ensures Inv(Dispatch(Put(st, s, x'), d').(bufferBytes := bytes))
  {
    hide *;
    var st' := Dispatch(Put(st, s, x'), d').(bufferBytes := bytes);
    InHandParts(st, s, x, d, c);
    Lift(x, x', d', c);
    BudgetPut(st, s, x', d', bytes);
    FrameBudget(st, st', s, x');
    HandleInv(st, st', s, x', d');
  }

  /** ... within the loop over a lane. */
  lemma PumpBudget(st: State, s: nat, x: Session, way: Way, d: DispatchAt, d': DispatchAt, l: Lane, c: ControlAt, bytes: nat)
    requires InHand(st, s, x, d, c) && OnLane(d, way) && OnLane(d', way)
    requires Steady(GetLane(x, way), l) && Pumping(l, way, d', x.core, c, DueOf(x))
    requires bytes == st.bufferBytes + BUFFER_LIMIT * ((if l.held then 1 else 0) - (if GetLane(x, way).held then 1 else 0))
    requires bytes <= TOTAL_BUFFER_LIMIT && s < |st.sessions|
    requires ScarceInv(Dispatch(Put(st, s, SetLane(x, way, l)), d').(bufferBytes := bytes))
    ensures Inv(Dispatch(Put(st, s, SetLane(x, way, l)), d').(bufferBytes := bytes))
  {
    hide *;
    InHandLocal(st, s, x, d, c);
    PumpLocal(x, way, l, d, d', c, DueOf(x));
    LaneDesks(way, d, d');
    LaneLinks(x, way, l);
    Held(x, way, l);
    BudgetHand(st, s, x, d, c, SetLane(x, way, l), d', bytes);
  }

  // ----- the head of the loop -----

  lemma TopPlaces(way: Way, ops: nat)
    ensures OnLane(Top(way, ops), way) && OnLane(Sending(way, ops), way) && OnLane(NoBuffer(way, ops), way)
    ensures OnLane(Receiving(way, ops), way) && OnLane(Leaving(way, ops), way)
  {
  }

  lemma TopHandled(st: State, r: Reply, way: Way, ops: nat)
    requires CanHandle(st, r) && st.dispatcher.at == Top(way, ops)
    ensures var s := st.dispatcher.session; var x := st.sessions[s]; var l := GetLane(x, way);
            var taken, full := SetLane(x, way, TakeReadable(l)), st.bufferBytes + BUFFER_LIMIT > TOTAL_BUFFER_LIMIT;
            var stops := ops >= 32 || Blocked(l);
            && (stops ==> Handle(st, r) == Dispatch(st, Leaving(way, ops)))
            && (!stops ==> !l.done && (if Pending(l) then l.writable else !l.waiting && l.readable))
            && (!stops && Pending(l) ==> Handle(st, r) == Dispatch(Put(st, s, SetLane(x, way, TakeWritable(l))), Sending(way, ops)))
            && (!stops && !Pending(l) && l.held ==> Handle(st, r) == Dispatch(Put(st, s, taken), Receiving(way, ops)))
            && (!stops && !Pending(l) && !l.held && full ==> Handle(st, r) == Dispatch(Put(st, s, taken), NoBuffer(way, ops)))
            && (!stops && !Pending(l) && !l.held && !full && r.Fault? ==>
                  r.code != 0 && Handle(st, r) == Dispatch(Put(st, s, taken), Failing(StopLock, r.code)))
            && (!stops && !Pending(l) && !l.held && !full && !r.Fault? ==>
                  Handle(st, r) == Dispatch(Put(st, s, SetLane(x, way, Acquire(TakeReadable(l)))), Receiving(way, ops))
                                     .(bufferBytes := st.bufferBytes + BUFFER_LIMIT))
  {
    hide SetLane, GetLane, TakeReadable, TakeWritable, Acquire;
  }

  lemma TopStep(st: State, s: nat, x: Session, r: Reply, way: Way, ops: nat, c: ControlAt)
    requires InHand(st, s, x, Top(way, ops), c) && CanHandle(st, r)
    ensures Inv(Handle(st, r))
  {
    hide *;
    var l, d := GetLane(x, way), Top(way, ops);
    TopPlaces(way, ops);
    InHandParts(st, s, x, d, c);
    InHandLocal(st, s, x, d, c);
    PumpedLane(x, way, d, c, DueOf(x));
    SameHeld(l, 0);
    TopHandled(st, r, way, ops);
    if ops >= 32 || Blocked(l) {
      TopLeavesLane(l, way, ops, x.core, c, DueOf(x));
      PumpHand(st, s, x, way, d, Leaving(way, ops), l, c);
    } else if Pending(l) {
      TopSendsLane(l, way, ops, x.core, c, DueOf(x));
      PumpHand(st, s, x, way, d, Sending(way, ops), TakeWritable(l), c);
    } else if l.held {
      TopTakesLane(l, way, ops, x.core, c, DueOf(x));
      PumpHand(st, s, x, way, d, Receiving(way, ops), TakeReadable(l), c);
    } else if st.bufferBytes + BUFFER_LIMIT > TOTAL_BUFFER_LIMIT {
      BudgetCovers(st, s);
      TopStarvesLane(l, way, ops, x.core, c, DueOf(x));
      PumpHand(st, s, x, way, d, NoBuffer(way, ops), TakeReadable(l), c);
    } else if r.Fault? {
      AllocationFailsLane(l, way, ops, r.code, x.core, c, DueOf(x));
      FailHand(st, s, x, way, d, TakeReadable(l), r.code, c);
    } else {
      AcquireHeld(l);
      TopTakesLane(l, way, ops, x.core, c, DueOf(x));
      AcquireScarce(st, s, SetLane(x, way, Acquire(TakeReadable(l))), way, ops);
      PumpBudget(st, s, x, way, d, Receiving(way, ops), Acquire(TakeReadable(l)), c, st.bufferBytes + BUFFER_LIMIT);
    }
  }

  // ----- socket calls -----

  lemma SendPlaces(way: Way, ops: nat, n: nat)
    ensures OnLane(Sending(way, ops), way) && OnLane(Sent(way, ops + 1, n), way) && OnLane(Leaving(way, ops + 1), way)
  {
  }

  lemma SendHandled(st: State, r: Reply, way: Way, ops: nat)
    requires CanHandle(st, r) && st.dispatcher.at == Sending(way, ops)
    ensures var s := st.dispatcher.session; var x := st.sessions[s]; var l := GetLane(x, way);
            && (r.Count? && r.n > 0 ==>
                  && l.offset + r.n <= l.length <= |l.buffer|
                  && Handle(st, r) == Dispatch(Put(st, s, SetLane(x, way, Send(l, r.n, r.more))), Sent(way, ops + 1, r.n)))
            && (r.Count? && r.n == 0 ==> Handle(st, r) == Dispatch(st, Failing(StopLock, -5)))
            && (r.Fault? ==> r.code != 0 && Handle(st, r) == Dispatch(st, Failing(StopLock, r.code)))
            && (!r.Count? && !r.Fault? ==> !l.room && Handle(st, r) == Dispatch(st, Leaving(way, ops + 1)))
  {
    hide SetLane, GetLane, Send;
  }

  lemma SendStep(st: State, s: nat, x: Session, r: Reply, way: Way, ops: nat, c: ControlAt)
    requires InHand(st, s, x, Sending(way, ops), c) && CanHandle(st, r)
    ensures Inv(Handle(st, r))
  {
    hide *;
    var l, d := GetLane(x, way), Sending(way, ops);
    SendPlaces(way, ops, if r.Count? then r.n else 0);
    InHandParts(st, s, x, d, c);
    InHandLocal(st, s, x, d, c);
    PumpedLane(x, way, d, c, DueOf(x));
    SetSame(x, way);
    SendHandled(st, r, way, ops);
    if r.Count? && r.n > 0 {
      SendHeld(l, r.n, r.more);
      SendMovesLane(l, way, ops, r.n, r.more, x.core, c, DueOf(x));
      PumpHand(st, s, x, way, d, Sent(way, ops + 1, r.n), Send(l, r.n, r.more), c);
    } else if r.Count? || r.Fault? {
      var status := if r.Count? then -5 else r.code;
      PumpFailsLane(l, way, d, status, x.core, c, DueOf(x));
      FailHand(st, s, x, way, d, l, status, c);
    } else {
      SendBlockedLane(l, way, ops, x.core, c, DueOf(x));
      PumpHand(st, s, x, way, d, Leaving(way, ops + 1), l, c);
    }
  }

  /** The lane without its buffer, at the end of the stream or not. */
  function Emptied(l: Lane, eof: bool): Lane {
    if eof then Release(EndOfStream(l)) else Release(l)
  }

  lemma EmptiedLane(l: Lane, way: Way, ops: nat, eof: bool, k: Core, c: ControlAt, due: Due)
    requires Pumping(l, way, Receiving(way, ops), k, c, due) && (eof || !l.input)
    ensures l.held && !Emptied(l, eof).held
    ensures Pumping(Emptied(l, eof), way, Draining(way, ops + 1, eof), k, c, due) && Steady(l, Emptied(l, eof))
  {
    hide Pumping, Steady, EndOfStream;
    AcquireHeld(l);
    if eof {
      ReceiveEndsLane(l, way, ops, k, c, due);
    } else {
      ReceiveBlockedLane(l, way, ops, k, c, due);
    }
  }

  lemma ReceiveHandled(st: State, r: Reply, way: Way, ops: nat)
    requires CanHandle(st, r) && st.dispatcher.at == Receiving(way, ops)
    ensures var s := st.dispatcher.session; var x := st.sessions[s]; var l := GetLane(x, way);
            && (r.Data? ==>
                  && 0 < |r.bytes| <= BUFFER_LIMIT && |r.bytes| <= |l.buffer|
                  && Handle(st, r) == Dispatch(Put(st, s, SetLane(x, way, Receive(l, r.bytes, r.more))), Received(way, ops + 1, r.bytes)))
            && (r.Fault? ==> r.code != 0 && Handle(st, r) == Dispatch(st, Failing(StopLock, r.code)))
            && (!r.Data? && !r.Fault? ==> r.EndOfFile? || !l.input)
            && (!r.Data? && !r.Fault? && l.held && st.bufferBytes >= BUFFER_LIMIT ==>
                  Handle(st, r) == Dispatch(Put(st, s, SetLane(x, way, Emptied(l, r.EndOfFile?))), Draining(way, ops + 1, r.EndOfFile?))
                                     .(bufferBytes := st.bufferBytes - BUFFER_LIMIT))
  {
    var s := st.dispatcher.session;
    var x := st.sessions[s];
    var l := GetLane(x, way);
    if r.EndOfFile? && l.held && st.bufferBytes >= BUFFER_LIMIT {
      DropIs(st, s, x, way, SetLane(x, way, EndOfStream(l)));
      hide DropBuffer, SetLane;
    } else {
      hide SetLane, Receive, EndOfStream;
    }
  }

  lemma DropIs(st: State, s: nat, x: Session, way: Way, y: Session)
    requires s < |st.sessions| && GetLane(x, way).held && st.bufferBytes >= BUFFER_LIMIT && y.core == x.core
    requires y == SetLane(x, way, EndOfStream(GetLane(x, way)))
    ensures DropBuffer(Put(st, s, y), s, way)
         == Put(st, s, SetLane(x, way, Release(EndOfStream(GetLane(x, way))))).(bufferBytes := st.bufferBytes - BUFFER_LIMIT)
  {
    SetTwice(x, way, EndOfStream(GetLane(x, way)), Release(EndOfStream(GetLane(x, way))));
    UpdateTwice(st.sessions, s, y, SetLane(y, way, Release(GetLane(y, way))));
  }

  lemma SetTwice(x: Session, way: Way, l: Lane, l': Lane)
    ensures SetLane(SetLane(x, way, l), way, l') == SetLane(x, way, l')
    ensures GetLane(SetLane(x, way, l), way) == l && SetLane(x, way, l).core == x.core
  {
  }

  lemma ReceivePlaces(way: Way, ops: nat, data: seq<Byte>, eof: bool)
    ensures OnLane(Receiving(way, ops), way) && OnLane(Received(way, ops + 1, data), way) && OnLane(Draining(way, ops + 1, eof), way)
  {
  }

  lemma ReceiveStep(st: State, s: nat, x: Session, r: Reply, way: Way, ops: nat, c: ControlAt)
    requires InHand(st, s, x, Receiving(way, ops), c) && CanHandle(st, r)
    ensures Inv(Handle(st, r))
  {
    hide *;
    var l, d, eof := GetLane(x, way), Receiving(way, ops), r.EndOfFile?;
    ReceivePlaces(way, ops, if r.Data? then r.bytes else [], eof);
    InHandParts(st, s, x, d, c);
    InHandLocal(st, s, x, d, c);
    PumpedLane(x, way, d, c, DueOf(x));
    ReceiveHandled(st, r, way, ops);
    if r.Data? {
      ReceiveHeld(l, r.bytes, r.more);
      ReceiveFillsLane(l, way, ops, r.bytes, r.more, x.core, c, DueOf(x));
      PumpHand(st, s, x, way, d, Received(way, ops + 1, r.bytes), Receive(l, r.bytes, r.more), c);
    } else if r.Fault? {
      SetSame(x, way);
      PumpFailsLane(l, way, d, r.code, x.core, c, DueOf(x));
      FailHand(st, s, x, way, d, l, r.code, c);
    } else {
      EmptiedLane(l, way, ops, eof, x.core, c, DueOf(x));
      HeldBytes(st, s, x, way);
      DrainScarce(st, s, SetLane(x, way, Emptied(l, eof)), way, ops + 1, eof, st.bufferBytes - BUFFER_LIMIT);
      PumpBudget(st, s, x, way, d, Draining(way, ops + 1, eof), Emptied(l, eof), c, st.bufferBytes - BUFFER_LIMIT);
    }
  }

  // ----- after the socket calls -----

  lemma TurnPlaces(way: Way, d: DispatchAt)
    requires (d.Sent? || d.Received? || d.Draining? || d.HalfClosing?) && d.way == way
    ensures OnLane(d, way) && OnLane(Top(way, d.ops), way) && OnLane(Leaving(way, d.ops), way)
  {
  }

  lemma TurnHandled(st: State, r: Reply)
    requires CanHandle(st, r)
    ensures var s, d := st.dispatcher.session, st.dispatcher.at; var x := st.sessions[s];
            && (d.Sent? ==> Handle(st, r) == Dispatch(Put(st, s, SetLane(x, d.way, AfterSend(GetLane(x, d.way), d.count))), Top(d.way, d.ops)))
            && (d.Received? ==>
                  Handle(st, r) == Dispatch(Put(st, s, SetLane(x, d.way, AfterReceive(GetLane(x, d.way), |d.data|))), Top(d.way, d.ops)))
            && (d.Draining? && st.waiters == [] ==> Handle(st, r) == Dispatch(st, AfterDrain(d.way, d.ops, d.eof)))
            && (d.HalfClosing? && r.Fault? ==> r.code != 0 && Handle(st, r) == Dispatch(st, Failing(StopLock, r.code)))
            && (d.HalfClosing? && !r.Fault? ==>
                  Handle(st, r) == Dispatch(Put(st, s, SetLane(x, d.way, HalfClosed(GetLane(x, d.way)))), Leaving(d.way, d.ops)))
  {
    hide SetLane, GetLane, AfterSend, AfterReceive, HalfClosed;
  }

  lemma TurnStep(st: State, s: nat, x: Session, r: Reply, way: Way, d: DispatchAt, c: ControlAt)
    requires InHand(st, s, x, d, c) && CanHandle(st, r) && (d.Draining? ==> st.waiters == [])
    requires (d.Sent? || d.Received? || d.Draining? || d.HalfClosing?) && d.way == way
    ensures Inv(Handle(st, r))
  {
    hide *;
    var l := GetLane(x, way);
    TurnPlaces(way, d);
    InHandParts(st, s, x, d, c);
    InHandLocal(st, s, x, d, c);
    PumpedLane(x, way, d, c, DueOf(x));
    SameHeld(l, if d.Sent? then d.count else if d.Received? then |d.data| else 0);
    TurnHandled(st, r);
    if d.Sent? {
      SentReturnsLane(l, way, d.ops, d.count, x.core, c, DueOf(x));
      PumpHand(st, s, x, way, d, Top(way, d.ops), AfterSend(l, d.count), c);
    } else if d.Received? {
      ReceivedReturnsLane(l, way, d.ops, d.data, x.core, c, DueOf(x));
      PumpHand(st, s, x, way, d, Top(way, d.ops), AfterReceive(l, |d.data|), c);
    } else if d.Draining? {
      DrainPlaces(way, d.ops, d.eof);
      DrainEndsLane(l, way, d.ops, d.eof, x.core, c, DueOf(x));
      PumpHand(st, s, x, way, d, AfterDrain(way, d.ops, d.eof), l, c);
    } else if r.Fault? {
      SetSame(x, way);
      PumpFailsLane(l, way, d, r.code, x.core, c, DueOf(x));
      FailHand(st, s, x, way, d, l, r.code, c);
    } else {
      HalfCloseEndsLane(l, way, d.ops, x.core, c, DueOf(x));
      PumpHand(st, s, x, way, d, Leaving(way, d.ops), HalfClosed(l), c);
    }
  }
}

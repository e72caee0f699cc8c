/** Every step of the dispatcher keeps the invariant: buffer waiters and the end
    of a session. */
module BridgeFinishing {
  import opened Lists
  import opened Lanes
  import opened BridgeState
  import opened BridgeSteps
  import opened BridgeInvariant
  import opened BridgeLaneProofs
  import opened BridgeSessionProofs
  import opened BridgePumpProofs
  import opened BridgeFinishProofs
  import opened BridgeWorldProofs
  import opened BridgeFrames
  import opened BridgeHandling
  import opened BridgeDispatching
  import opened BridgePumping
  import opened BridgeOwnership

  // ----- the waiter list -----

  predicate SameLinksButWaiting(x: Session, x': Session) {
    && x'.core.retired == x.core.retired && x'.core.freed == x.core.freed
    && x'.core.bound == x.core.bound && x'.name == x.name
  }

  predicate SameListsButWaiting(st: State, st': State) {
    st'.registry == st.registry && Unfreed(st') == Unfreed(st)
  }

  lemma FrameWaiters(st: State, st': State, s: nat, x: Session)
    requires TablesInv(st) && s < |st.sessions| && st'.sessions == st.sessions[s := x]
    requires SameLinksButWaiting(st.sessions[s], x) && SameListsButWaiting(st, st')
    requires Mirrors(st'.ready, ReadyMarks(st'.sessions)) && Mirrors(st'.waiters, WaitMarks(st'.sessions))
    requires st'.bufferBytes == st.bufferBytes + BUFFER_LIMIT * (Holding(x) - Holding(st.sessions[s]))
    requires st'.bufferBytes <= TOTAL_BUFFER_LIMIT
    ensures TablesInv(st')
  {
    hide Mirrors, RegistryInv, Holding, TablesInv, BudgetInv, HeldCount, Unfreed;
    TablesParts(st);
    MarksKept(st.sessions, s, x);
    BudgetFollows(st, s, x, st'.bufferBytes);
    TablesOf(st');
  }

  lemma WaitAdded(st: State, s: nat, x: Session)
    requires TablesInv(st) && s < |st.sessions| && x.waitQueued
    ensures Mirrors(Enqueued(st.waiters, s, st.sessions[s].waitQueued), WaitMarks(st.sessions[s := x]))
  {
    hide Mirrors, TablesInv;
    TablesParts(st);
    MarksAt(st.sessions, s);
    MarksUpdate(st.sessions, s, x);
    if st.sessions[s].waitQueued {
      MarksKept(st.sessions, s, x);
    } else {
      MarkAppend(st.waiters, WaitMarks(st.sessions), s);
    }
  }

  function Dropped(waiters: seq<nat>, s: nat, queued: bool): seq<nat> {
    if queued then Remove(waiters, s) else waiters
  }

  lemma WaitRemoved(st: State, s: nat, x: Session)
    requires TablesInv(st) && s < |st.sessions| && !x.waitQueued
    ensures Mirrors(Dropped(st.waiters, s, st.sessions[s].waitQueued), WaitMarks(st.sessions[s := x]))
    ensures Dropped(st.waiters, s, st.sessions[s].waitQueued) != [] ==> st.waiters != []
  {
    hide Mirrors, TablesInv;
    TablesParts(st);
    MarksAt(st.sessions, s);
    MarksUpdate(st.sessions, s, x);
    if st.sessions[s].waitQueued {
      MarkRemove(st.waiters, WaitMarks(st.sessions), s);
    } else {
      MarksKept(st.sessions, s, x);
    }
  }

  lemma BytesBounded(st: State)
    requires TablesInv(st)
    ensures st.bufferBytes <= TOTAL_BUFFER_LIMIT
  {
    hide Mirrors, RegistryInv, HeldCount;
  }

  // ----- a session starts to wait -----

  lemma WaitForBufferIs(st: State, s: nat, way: Way)
    requires s < |st.sessions|
    ensures WaitForBuffer(st, s, way)
         == st.(sessions := st.sessions[s := Waiting(st.sessions[s], way)],
                waiters := Enqueued(st.waiters, s, st.sessions[s].waitQueued))
  {
    if st.sessions[s].waitQueued {
      WaitingSame(st.sessions[s], way);
    }
  }

  lemma WaitingSame(x: Session, way: Way)
    requires x.waitQueued
    ensures SetLane(x, way, AwaitBuffer(GetLane(x, way))) == Waiting(x, way)
  {
  }

  lemma WaitingLinks(x: Session, way: Way)
    ensures var y := Waiting(x, way);
            && SameLinksButWaiting(x, y) && SameNotices(x, y) && SameQueue(x, y) && Holding(y) == Holding(x) && y.waitQueued
  {
  }

  lemma NoBufferStep(st: State, s: nat, x: Session, r: Reply, way: Way, ops: nat, c: ControlAt)
    requires InHand(st, s, x, NoBuffer(way, ops), c) && CanHandle(st, r)
    ensures Inv(Handle(st, r))
  {
    hide *;
    EndHandled(st, r);
    var y := Waiting(x, way);
    TopPlaces(way, ops);
    LaneDesks(way, NoBuffer(way, ops), Leaving(way, ops));
    InHandLocal(st, s, x, NoBuffer(way, ops), c);
    InHandParts(st, s, x, NoBuffer(way, ops), c);
    var l := GetLane(x, way);
    LocalParts(x, NoBuffer(way, ops), c, DueOf(x));
    PumpedLane(x, way, NoBuffer(way, ops), c, DueOf(x));
    NoBufferLane(l, way, ops, x.core, c, DueOf(x));
    PumpFlow(x, way, AwaitBuffer(l), NoBuffer(way, ops), Leaving(way, ops), c, DueOf(x));
    FlowIgnoresMark(SetLane(x, way, AwaitBuffer(l)), true, Leaving(way, ops), c, DueOf(x));
    WaitingIs(x, way);
    WaitingMarks(x, way);
    PumpOwned(x.core, way, NoBuffer(way, ops), Leaving(way, ops), c, DueOf(x).inLock, BothDone(x), BothDone(x));
    LocalOf(Waiting(x, way), Leaving(way, ops), c, DueOf(x));
    WaitingLinks(x, way);
    Lift(x, y, Leaving(way, ops), c);
    NoBufferInv(st, s, y, way, ops);
  }

  lemma NoBufferInv(st: State, s: nat, y: Session, way: Way, ops: nat)
    requires Inv(st) && s == st.dispatcher.session && s < |st.sessions| && st.dispatcher.at == NoBuffer(way, ops)
    requires y == Waiting(st.sessions[s], way) && SessionInv(y, Leaving(way, ops), ControlOf(st, s))
    requires SameDesk(NoBuffer(way, ops), Leaving(way, ops))
    ensures Inv(Dispatch(WaitForBuffer(st, s, way), Leaving(way, ops)))
  {
    hide Inv, SessionInv, TablesInv, ScarceInv, SameDesk, SameNotices, SameLinksButWaiting, SameListsButWaiting, ControlOf,
         Holding, Waiting, WaitForBuffer, Mirrors, Enqueued;
    var st' := Dispatch(WaitForBuffer(st, s, way), Leaving(way, ops));
    InvParts(st);
    WaitForBufferIs(st, s, way);
    WaitingLinks(st.sessions[s], way);
    WaitAdded(st, s, y);
    ReadyKept(st, s, y);
    BytesBounded(st);
    SameRest(st, st');
    FrameWaiters(st, st', s, y);
    WaitScarce(st, st', way, ops);
    HandleInv(st, st', s, y, Leaving(way, ops));
  }

  lemma SameRest(st: State, st': State)
    requires st'.registry == st.registry && st'.retired == st.retired && st'.dispatcher.round == st.dispatcher.round
    ensures SameListsButWaiting(st, st')
  {
  }

  lemma WaitScarce(st: State, st': State, way: Way, ops: nat)
    requires ScarceInv(st) && st.dispatcher.at == NoBuffer(way, ops) && st'.bufferBytes == st.bufferBytes
    requires st'.dispatcher.at == Leaving(way, ops)
    ensures ScarceInv(st')
  {
  }

  // ----- waking one waiter -----

  lemma WakeWaiterIs(st: State)
    requires st.waiters != [] && st.waiters[0] < |st.sessions| && st.sessions[st.waiters[0]].core.inUse
    ensures var t := st.waiters[0]; var x := st.sessions[t];
            WakeWaiter(st) == st.(sessions := st.sessions[t := WokenQueued(x)], waiters := st.waiters[1..],
                                  ready := Enqueued(st.ready, t, x.core.readyQueued), pending := true)
  {
    var t := st.waiters[0];
    var x := st.sessions[t];
    var popped := Put(st, t, Woken(x)).(waiters := st.waiters[1..]);
    assert popped.sessions[t] == Woken(x) && Woken(x).core == x.core;
    hide Enqueued, Woken, QueueAdd;
    QueueAddIs(popped, t);
    assert popped.sessions[t := WokenQueued(x)] == st.sessions[t := WokenQueued(x)];
  }

  lemma WokenLinks(x: Session)
    ensures var y := WokenQueued(x);
            && SameLinksButWaiting(x, y) && SameNotices(x, y) && Holding(y) == Holding(x) && !y.waitQueued && y.core.readyQueued
            && y.core.stopping == x.core.stopping
  {
  }

  lemma FirstWaiter(st: State)
    requires TablesInv(st) && st.waiters != []
    ensures st.waiters[0] < |st.sessions| && st.sessions[st.waiters[0]].waitQueued
    ensures Mirrors(st.waiters[1..], WaitMarks(st.sessions)[st.waiters[0] := false])
    ensures |WaitMarks(st.sessions)| == |st.sessions|
  {
    hide Mirrors, TablesInv;
    TablesParts(st);
    MarkPop(st.waiters, WaitMarks(st.sessions));
  }

  lemma WakeTables(st: State, st': State, t: nat, y: Session)
    requires TablesInv(st) && st.waiters != [] && t == st.waiters[0] && t < |st.sessions|
    requires y == WokenQueued(st.sessions[t])
    requires st' == st.(sessions := st.sessions[t := y], waiters := st.waiters[1..],
                        ready := Enqueued(st.ready, t, st.sessions[t].core.readyQueued), pending := true)
    ensures TablesInv(st')
  {
    hide TablesInv, SameLinksButWaiting, SameListsButWaiting, Holding, Mirrors, Enqueued, WokenQueued, WaitMarks, ReadyMarks;
    FirstWaiter(st);
    WokenLinks(st.sessions[t]);
    MarksUpdate(st.sessions, t, y);
    ReadyAdded(st, t, y);
    BytesBounded(st);
    SameRest(st, st');
    FrameWaiters(st, st', t, y);
  }

  lemma SameSeats(st: State, st': State)
    requires PositionInv(st) && |st'.sessions| == |st.sessions| && st'.control == st.control && st'.dispatcher == st.dispatcher
    ensures PositionInv(st')
  {
  }

  lemma Unmoved(st: State, st': State, t: nat)
    requires st'.control == st.control && st'.dispatcher == st.dispatcher
    ensures DispatcherOn(st.dispatcher, st'.dispatcher, t) && ControlOn(st.control, st'.control, t)
    ensures DispatchOf(st', t) == DispatchOf(st, t) && ControlOf(st', t) == ControlOf(st, t)
  {
  }

  lemma WakingSpare(st: State)
    requires ScarceInv(st) && Waking(st.dispatcher.at)
    ensures st.bufferBytes + BUFFER_LIMIT <= TOTAL_BUFFER_LIMIT
  {
  }

  lemma WakingScarce(st: State)
    requires Waking(st.dispatcher.at) && st.bufferBytes + BUFFER_LIMIT <= TOTAL_BUFFER_LIMIT
    ensures ScarceInv(st)
  {
  }

  lemma WokenSession(x: Session, d: DispatchAt, c: ControlAt)
    requires SessionInv(x, d, c) && x.waitQueued
    ensures x.core.inUse && SessionInv(WokenQueued(x), d, c)
  {
    hide Local, DueOf, WokenQueued;
    WokenLocal(x, d, c, DueOf(x));
    WokenLinks(x);
    hide SameNotices;
    Lift(x, WokenQueued(x), d, c);
  }

  lemma WakeStep(st: State)
    requires Inv(st) && Waking(st.dispatcher.at) && st.waiters != []
    ensures st.waiters[0] < |st.sessions| && Inv(WakeWaiter(st))
  {
    hide Inv, SessionsInv, SessionInv, TablesInv, ScarceInv, PositionInv, Alert, OperationInv, Waking, WakeWaiter, WokenQueued,
         DispatchOf, ControlOf, DispatcherOn, ControlOn, Enqueued, SameLinksButWaiting, SameNotices, Holding, Mirrors;
    InvParts(st);
    FirstWaiter(st);
    var t := st.waiters[0];
    var y := WokenQueued(st.sessions[t]);
    SessionAt(st, t);
    WokenSession(st.sessions[t], DispatchOf(st, t), ControlOf(st, t));
    WakeWaiterIs(st);
    var st' := WakeWaiter(st);
    WakeTables(st, st', t, y);
    Unmoved(st, st', t);
    FrameSessions(st, st', t, y);
    WakingSpare(st);
    WakingScarce(st');
    SameSeats(st, st');
    PendingAlert(st');
    WokenLinks(st.sessions[t]);
    FrameOperation(st, st', t, y);
    InvOf(st');
  }

  // ----- finishing -----

  function FinishedState(st: State, s: nat, dropFirst: bool, dropSecond: bool, bytes: nat, at: DispatchAt): State
    requires s < |st.sessions|
  {
    Dispatch(st.(sessions := st.sessions[s := Ended(st.sessions[s], dropFirst, dropSecond)],
                 waiters := Dropped(st.waiters, s, st.sessions[s].waitQueued), bufferBytes := bytes), at)
  }

  lemma EndedLinks(x: Session, dropFirst: bool, dropSecond: bool)
    requires (dropFirst ==> x.toBackend.held) && (dropSecond ==> x.toPublic.held)
    ensures var y := Ended(x, dropFirst, dropSecond);
            && SameLinksButWaiting(x, y) && SameNotices(x, y) && !y.waitQueued
            && y.core.stopping && y.core.readyQueued == x.core.readyQueued
            && Holding(y) == Holding(x) - (if dropFirst then 1 else 0) - (if dropSecond then 1 else 0)
  {
  }

  lemma FinishTables(st: State, s: nat, dropFirst: bool, dropSecond: bool, bytes: nat, at: DispatchAt)
    requires TablesInv(st) && s < |st.sessions| && bytes <= TOTAL_BUFFER_LIMIT
    requires (dropFirst ==> st.sessions[s].toBackend.held) && (dropSecond ==> st.sessions[s].toPublic.held)
    requires bytes == st.bufferBytes - BUFFER_LIMIT * ((if dropFirst then 1 else 0) + (if dropSecond then 1 else 0))
    ensures TablesInv(FinishedState(st, s, dropFirst, dropSecond, bytes, at))
  {
    hide TablesInv, SameLinksButWaiting, SameListsButWaiting, Holding, Mirrors, Ended, WaitMarks, ReadyMarks, Dropped, SameNotices;
    var y := Ended(st.sessions[s], dropFirst, dropSecond);
    var st' := FinishedState(st, s, dropFirst, dropSecond, bytes, at);
    EndedLinks(st.sessions[s], dropFirst, dropSecond);
    WaitRemoved(st, s, y);
    ReadyKept(st, s, y);
    SameRest(st, st');
    FrameWaiters(st, st', s, y);
  }

  lemma FinishScarce(st: State, st': State)
    requires ScarceInv(st) && !Waking(st.dispatcher.at) && (st'.waiters != [] ==> st.waiters != []) && !st'.dispatcher.at.NoBuffer?
    requires if Waking(st'.dispatcher.at) then st'.bufferBytes + BUFFER_LIMIT <= TOTAL_BUFFER_LIMIT else st'.bufferBytes == st.bufferBytes
    ensures ScarceInv(st')
  {
  }

  lemma FinishPlaces(at: DispatchAt)
    requires Parting(at)
    ensures SameDesk(Finishing, at) && !Waking(Finishing) && !at.NoBuffer? && (Waking(at) <==> at != Signalling)
  {
  }

  lemma FinishInv(st: State, s: nat, x: Session, dropFirst: bool, dropSecond: bool, bytes: nat, at: DispatchAt, c: ControlAt)
    requires InHand(st, s, x, Finishing, c) && x.core.inUse && !x.core.finishedNotified && Parting(at)
    requires dropFirst == x.toBackend.held && (dropSecond ==> x.toPublic.held)
    requires x.toPublic.held && !dropSecond ==> at == Releasing(false)
    requires bytes == st.bufferBytes - BUFFER_LIMIT * ((if dropFirst then 1 else 0) + (if dropSecond then 1 else 0))
    requires at == Signalling <==> !dropFirst && !dropSecond
    ensures Inv(FinishedState(st, s, dropFirst, dropSecond, bytes, at))
  {
    hide *;
    InHandLocal(st, s, x, Finishing, c);
    InHandParts(st, s, x, Finishing, c);
    var y1 := Ended(x, dropFirst, dropSecond);
    LocalParts(x, Finishing, c, DueOf(x));
    FlowParts(x, Finishing, c, DueOf(x));
    FinishDuty();
    FinishOwned(x.core, at, c, DueOf(x).inLock, BothDone(x));
    MayHoldSecond(at);
    EndedLaneSettles(x.toBackend, ToBackend, dropFirst, at, x.core, c, DueOf(x));
    EndedLaneSettles(x.toPublic, ToPublic, dropSecond, at, x.core, c, DueOf(x));
    EndedParts(x, dropFirst, dropSecond);
    SettledFlow(y1, at, c, DueOf(x));
    LocalOf(y1, at, c, DueOf(x));
    var y := Ended(x, dropFirst, dropSecond);
    EndedLinks(x, dropFirst, dropSecond);
    FinishPlaces(at);
    Lift(x, y, at, c);
    FinishKept(st, s, dropFirst, dropSecond, bytes, at);
  }

  lemma FinishKept(st: State, s: nat, dropFirst: bool, dropSecond: bool, bytes: nat, at: DispatchAt)
    requires Inv(st) && s == st.dispatcher.session && s < |st.sessions| && st.dispatcher.at == Finishing
    requires (dropFirst ==> st.sessions[s].toBackend.held) && (dropSecond ==> st.sessions[s].toPublic.held)
    requires bytes == st.bufferBytes - BUFFER_LIMIT * ((if dropFirst then 1 else 0) + (if dropSecond then 1 else 0))
    requires SessionInv(Ended(st.sessions[s], dropFirst, dropSecond), at, ControlOf(st, s))
    requires SameDesk(Finishing, at) && !Waking(Finishing) && !at.NoBuffer?
    requires Waking(at) <==> dropFirst || dropSecond
    ensures Inv(FinishedState(st, s, dropFirst, dropSecond, bytes, at))
  {
    hide Inv, SessionInv, TablesInv, ScarceInv, SameDesk, SameNotices, SameLinksButWaiting, ControlOf, Holding, Ended, Dropped, Waking, Mirrors;
    var y := Ended(st.sessions[s], dropFirst, dropSecond);
    var st' := FinishedState(st, s, dropFirst, dropSecond, bytes, at);
    InvParts(st);
    BytesBounded(st);
    EndedLinks(st.sessions[s], dropFirst, dropSecond);
    WaitRemoved(st, s, y);
    FinishTables(st, s, dropFirst, dropSecond, bytes, at);
    FinishScarce(st, st');
    HandleInv(st, st', s, y, at);
  }

  lemma FinishFirstIs(st: State, s: nat, x: Session)
    requires s == st.dispatcher.session && s < |st.sessions| && x == st.sessions[s]
    requires x.toBackend.held && st.bufferBytes >= BUFFER_LIMIT
    ensures FinishSession(st) == FinishedState(st, s, true, false, st.bufferBytes - BUFFER_LIMIT, Releasing(false))
  {
    var y := FinishMark(x);
    EndedIs(x, true, false);
    UpdateTwice(st.sessions, s, y, Ended(x, true, false));
    hide Release;
  }

  lemma FinishSecondIs(st: State, s: nat, x: Session)
    requires s == st.dispatcher.session && s < |st.sessions| && x == st.sessions[s]
    requires !x.toBackend.held && x.toPublic.held && st.bufferBytes >= BUFFER_LIMIT
    ensures FinishSession(st) == FinishedState(st, s, false, true, st.bufferBytes - BUFFER_LIMIT, Releasing(true))
  {
    var y := FinishMark(x);
    EndedIs(x, false, true);
    UpdateTwice(st.sessions, s, y, Ended(x, false, true));
    hide Release;
  }

  lemma FinishNeitherIs(st: State, s: nat, x: Session)
    requires s == st.dispatcher.session && s < |st.sessions| && x == st.sessions[s]
    requires !x.toBackend.held && !x.toPublic.held
    ensures FinishSession(st) == FinishedState(st, s, false, false, st.bufferBytes, Signalling)
  {
    EndedIs(x, false, false);
  }

  lemma EndedIs(x: Session, dropFirst: bool, dropSecond: bool)
    ensures var y := FinishMark(x);
            && (dropFirst && !dropSecond ==> Ended(x, dropFirst, dropSecond) == SetLane(y, ToBackend, Release(y.toBackend)))
            && (!dropFirst && dropSecond ==> Ended(x, dropFirst, dropSecond) == SetLane(y, ToPublic, Release(y.toPublic)))
            && (!dropFirst && !dropSecond ==> Ended(x, dropFirst, dropSecond) == y)
  {
  }

  lemma PartingPlaces(second: bool)
    ensures Parting(Releasing(second)) && Parting(Signalling) && Waking(Releasing(second))
    ensures SameDesk(Releasing(second), Releasing(true)) && SameDesk(Releasing(second), Signalling)
  {
  }

  lemma EndHandled(st: State, r: Reply)
    requires CanHandle(st, r)
    ensures var s, at := st.dispatcher.session, st.dispatcher.at; var x := st.sessions[s];
            && (at.NoBuffer? ==> Handle(st, r) == Dispatch(WaitForBuffer(st, s, at.way), Leaving(at.way, at.ops)))
            && (Waking(at) && st.waiters != [] && st.waiters[0] < |st.sessions| ==> Handle(st, r) == WakeWaiter(st))
            && (at == Finishing ==>
                  Handle(st, r) == if x.core.inUse && !x.core.finishedNotified then FinishSession(st) else Dispatch(st, Nothing))
            && (at.Releasing? && st.waiters == [] ==>
                  Handle(st, r) == if !at.second then ReleaseSecond(st) else Dispatch(st, Signalling))
            && (at == Signalling ==>
                  Handle(st, r) == Dispatch(Put(st, s, x.(core := x.core.(finished := x.core.finished + 1, signals := x.core.signals + 1))),
                                            Nothing))
  {
    hide WaitForBuffer, WakeWaiter, FinishSession, ReleaseSecond;
  }

  lemma FinishStep(st: State, s: nat, x: Session, r: Reply, c: ControlAt)
    requires InHand(st, s, x, Finishing, c) && CanHandle(st, r)
    ensures Inv(Handle(st, r))
  {
    hide *;
    InHandParts(st, s, x, Finishing, c);
    EndHandled(st, r);
    if x.core.inUse && !x.core.finishedNotified {
      PartingPlaces(false);
      PartingPlaces(true);
      if x.toBackend.held {
        LaneOf(x);
        HeldBytes(st, s, x, ToBackend);
        FinishFirstIs(st, s, x);
        FinishInv(st, s, x, true, false, st.bufferBytes - BUFFER_LIMIT, Releasing(false), c);
      } else if x.toPublic.held {
        LaneOf(x);
        HeldBytes(st, s, x, ToPublic);
        FinishSecondIs(st, s, x);
        FinishInv(st, s, x, false, true, st.bufferBytes - BUFFER_LIMIT, Releasing(true), c);
      } else {
        FinishNeitherIs(st, s, x);
        FinishInv(st, s, x, false, false, st.bufferBytes, Signalling, c);
      }
    } else {
      NothingDesks();
      InHandLocal(st, s, x, Finishing, c);
      LocalParts(x, Finishing, c, DueOf(x));
      FinishDuty();
      AwayDuty();
      FinishedAlready(x.core, c, DueOf(x).inLock, BothDone(x));
      PumpPasses();
      SameMarks(x, x.core);
      FlowStill(x, x, Finishing, Nothing, c, c, DueOf(x));
      LocalOf(x, Nothing, c, DueOf(x));
      MoveHand(st, s, x, Finishing, c, Nothing);
    }
  }

  lemma LaneOf(x: Session)
    ensures GetLane(x, ToBackend) == x.toBackend && GetLane(x, ToPublic) == x.toPublic
  {
  }

  lemma NothingDesks()
    ensures SameDesk(Finishing, Nothing) && SameDesk(Signalling, Nothing) && !Waking(Finishing) && !Waking(Signalling) && !Waking(Nothing)
  {
  }

  // ----- releasing and signalling -----

  lemma DropSecondLinks(x: Session)
    requires x.toPublic.held
    ensures var y := DropSecond(x);
            && SameNotices(x, y) && y.core == x.core && SameLinksButHeld(x, y) && Holding(y) == Holding(x) - 1
            && y == SetLane(x, ToPublic, Release(x.toPublic))
  {
  }

  lemma ReleaseSecondIs(st: State, s: nat, x: Session)
    requires s == st.dispatcher.session && s < |st.sessions| && x == st.sessions[s]
    requires x.toPublic.held ==> st.bufferBytes >= BUFFER_LIMIT
    ensures ReleaseSecond(st) ==
            if x.toPublic.held
            then Dispatch(Put(st, s, SetLane(x, ToPublic, Release(x.toPublic))), Releasing(true)).(bufferBytes := st.bufferBytes - BUFFER_LIMIT)
            else Dispatch(st, Signalling)
  {
    hide Release;
  }

  lemma ReleaseScarce(st: State, s: nat, x: Session, bytes: nat)
    requires s < |st.sessions| && bytes + BUFFER_LIMIT <= TOTAL_BUFFER_LIMIT
    ensures ScarceInv(Dispatch(Put(st, s, x), Releasing(true)).(bufferBytes := bytes))
  {
  }

  lemma PartStep(st: State, s: nat, x: Session, r: Reply, at: DispatchAt, c: ControlAt)
    requires InHand(st, s, x, at, c) && CanHandle(st, r) && (at == Signalling || (at.Releasing? && st.waiters == []))
    ensures Inv(Handle(st, r))
  {
    hide *;
    InHandLocal(st, s, x, at, c);
    InHandParts(st, s, x, at, c);
    EndHandled(st, r);
    if at.Releasing? {
      PartingPlaces(at.second);
      PartingPlaces(true);
      if x.toPublic.held && !at.second {
        LaneOf(x);
        HeldBytes(st, s, x, ToPublic);
        ReleaseLocal(x, at.second, Releasing(true), c, DueOf(x));
        DropSecondLinks(x);
        ReleaseSecondIs(st, s, x);
        ReleaseScarce(st, s, DropSecond(x), st.bufferBytes - BUFFER_LIMIT);
        BudgetHand(st, s, x, at, c, DropSecond(x), Releasing(true), st.bufferBytes - BUFFER_LIMIT);
      } else {
        ReleaseLocal(x, at.second, Signalling, c, DueOf(x));
        if !at.second {
          ReleaseSecondIs(st, s, x);
        }
        NothingDesks();
        MoveHand(st, s, x, at, c, Signalling);
      }
    } else {
      var k := x.core.(finished := x.core.finished + 1, signals := x.core.signals + 1);
      NothingDesks();
      LocalParts(x, Signalling, c, DueOf(x));
      SignalOwned(x.core, c, DueOf(x).inLock, BothDone(x));
      PumpPasses();
      SameMarks(x, k);
      FlowStill(x, x.(core := k), Signalling, Nothing, c, c, DueOf(x));
      LocalOf(x.(core := k), Nothing, c, DueOf(x));
      CoreLinks(x, k);
      PlainHand(st, s, x, Signalling, c, x.(core := k), Nothing);
    }
  }

}

/** Every step of the dispatcher keeps the invariant: event handling and
    pumping. */
module BridgeDispatching {
  import opened Lanes
  import opened BridgeState
  import opened BridgeSteps
  import opened BridgeInvariant
  import opened BridgeOwnership
  import opened BridgeSessionProofs
  import opened BridgeNotices
  import opened BridgeFrames
  import opened BridgeHandling

  /** The session in the dispatcher's hands. */
  ghost predicate InHand(st: State, s: nat, x: Session, at: DispatchAt, c: ControlAt) {
    && Inv(st) && s == st.dispatcher.session && s < |st.sessions| && x == st.sessions[s]
    && st.dispatcher.at == at && at != Nothing && c == ControlOf(st, s)
  }

  lemma InHandLocal(st: State, s: nat, x: Session, at: DispatchAt, c: ControlAt)
    requires InHand(st, s, x, at, c)
    ensures Local(x, at, c, DueOf(x)) && SessionInv(x, at, c)
  {
    hide Inv, Local, DueOf, ControlOf;
    SessionAt(st, s);
    PlaceAt(st, at, s);
  }

  lemma Lift(x: Session, x': Session, at: DispatchAt, c: ControlAt)
    requires Local(x', at, c, DueOf(x)) && SameNotices(x, x')
    ensures SessionInv(x', at, c)
  {
    hide Local, DueOf;
    SameDue(x, x');
  }

  lemma InHandParts(st: State, s: nat, x: Session, at: DispatchAt, c: ControlAt)
    requires InHand(st, s, x, at, c)
    ensures Inv(st) && TablesInv(st) && ScarceInv(st) && s < |st.sessions| && x == st.sessions[s]
    ensures s == st.dispatcher.session && st.dispatcher.at == at && at != Nothing && c == ControlOf(st, s)
  {
    hide Inv, TablesInv, ScarceInv, ControlOf;
    InvParts(st);
  }

  predicate SameQueue(x: Session, x': Session) {
    (x.core.stopping ==> x'.core.stopping) && x'.core.readyQueued == x.core.readyQueued
  }

  /** A step that moves no list, from the invariant of the session. */
  lemma PlainHand(st: State, s: nat, x: Session, at: DispatchAt, c: ControlAt, x': Session, at': DispatchAt)
    requires InHand(st, s, x, at, c) && Local(x', at', c, DueOf(x)) && SameDesk(at, at') && SameNotices(x, x') && SameLinks(x, x')
    requires (x.core.stopping ==> x'.core.stopping) && x'.core.readyQueued == x.core.readyQueued
    requires (Waking(at) ==> st.waiters == []) && !Waking(at')
    requires at'.NoBuffer? ==> st.bufferBytes == TOTAL_BUFFER_LIMIT
    ensures Inv(Dispatch(Put(st, s, x'), at'))
  {
    hide *;
    InHandParts(st, s, x, at, c);
    var st' := Dispatch(Put(st, s, x'), at');
    Lift(x, x', at', c);
    PutStep(st, s, x', at');
    ReadyKept(st, s, x');
    FrameTables(st, st', s, x');
    ScarceKept(st, st');
    HandleInv(st, st', s, x', at');
  }

  /** A step that changes nothing but the dispatcher's place. */
  lemma MoveHand(st: State, s: nat, x: Session, at: DispatchAt, c: ControlAt, at': DispatchAt)
    requires InHand(st, s, x, at, c) && Local(x, at', c, DueOf(x)) && SameDesk(at, at')
    requires (Waking(at) ==> st.waiters == []) && !Waking(at')
    requires at'.NoBuffer? ==> st.bufferBytes == TOTAL_BUFFER_LIMIT
    ensures Inv(Dispatch(st, at'))
  {
    hide *;
    InHandParts(st, s, x, at, c);
    PutSame(st, s);
    PlainHand(st, s, x, at, c, x, at');
  }

  /** A step that keeps every visit to come. */
  lemma CarryHand(st: State, s: nat, x: Session, at: DispatchAt, c: ControlAt, k: Core, at': DispatchAt)
    requires InHand(st, s, x, at, c) && CarriesBoth(at, at') && SameDesk(at, at') && !Waking(at) && !Waking(at') && !at'.NoBuffer?
    requires Ownership(k, DutyOf(at'), c, DueOf(x).inLock, BothDone(x))
    requires k.retired == x.core.retired && k.freed == x.core.freed && k.bound == x.core.bound && k.running == x.core.running
    requires (x.core.stopping ==> k.stopping) && k.readyQueued == x.core.readyQueued && (k.connecting ==> x.core.connecting)
    ensures s < |st.sessions| && Inv(Dispatch(Put(st, s, x.(core := k)), at'))
    ensures k == x.core ==> Put(st, s, x.(core := k)) == st
  {
    hide *;
    var y, due := x.(core := k), DueOf(x);
    InHandParts(st, s, x, at, c);
    InHandLocal(st, s, x, at, c);
    LocalParts(x, at, c, due);
    SameMarks(x, k);
    QuietKept(x.core, k, c, due.marked);
    FlowCarries(x, y, at, at', c, c, due);
    LocalOf(y, at', c, due);
    CoreLinks(x, k);
    if k == x.core {
      assert y == x;
      PutSame(st, s);
    }
    PlainHand(st, s, x, at, c, y, at');
  }

  /** A step to where both lanes are going to be visited. */
  lemma VisitHand(st: State, s: nat, x: Session, at: DispatchAt, c: ControlAt, k: Core, at': DispatchAt)
    requires InHand(st, s, x, at, c) && PassesBoth(at, at') && VisitsBoth(at') && SameDesk(at, at') && !Waking(at) && !Waking(at') && !at'.NoBuffer?
    requires Ownership(k, DutyOf(at'), c, DueOf(x).inLock, BothDone(x))
    requires k.retired == x.core.retired && k.freed == x.core.freed && k.bound == x.core.bound && k.running == x.core.running
    requires (x.core.stopping ==> k.stopping) && k.readyQueued == x.core.readyQueued && (k.connecting ==> x.core.connecting)
    ensures s < |st.sessions| && Inv(Dispatch(Put(st, s, x.(core := k)), at'))
    ensures k == x.core ==> Put(st, s, x.(core := k)) == st
  {
    hide *;
    var y, due := x.(core := k), DueOf(x);
    InHandParts(st, s, x, at, c);
    InHandLocal(st, s, x, at, c);
    LocalParts(x, at, c, due);
    SameMarks(x, k);
    FlowVisits(x, y, at, at', c, due);
    LocalOf(y, at', c, due);
    CoreLinks(x, k);
    if k == x.core {
      assert y == x;
      PutSame(st, s);
    }
    PlainHand(st, s, x, at, c, y, at');
  }

  lemma QuietKept(k: Core, k': Core, c: ControlAt, marked: bool)
    requires k'.running == k.running && (k.stopping ==> k'.stopping) && k'.readyQueued == k.readyQueued
    ensures (Quiet(k', c, marked) ==> Quiet(k, c, marked)) && (Unlisted(k') ==> Unlisted(k))
  {
  }

  /** A step that queues the session. */
  lemma QueueHand(st: State, s: nat, x: Session, at: DispatchAt, c: ControlAt, at': DispatchAt)
    requires InHand(st, s, x, at, c) && x.core.inUse && PassesBoth(at, at') && SameDesk(at, at') && !Waking(at) && !Waking(at') && !at'.NoBuffer?
    requires Ownership(x.core.(readyQueued := true), DutyOf(at'), c, DueOf(x).inLock, BothDone(x))
    ensures Inv(Dispatch(SelfQueue(st, s), at'))
  {
    hide *;
    InHandParts(st, s, x, at, c);
    InHandLocal(st, s, x, at, c);
    var st', x', due := Dispatch(SelfQueue(st, s), at'), QueuedSession(x), DueOf(x);
    QueuedIs(x);
    LocalParts(x, at, c, due);
    SameMarks(x, x'.core);
    FlowQueued(x, x', at, at', c, c, due);
    LocalOf(x', at', c, due);
    Lift(x, x', at', c);
    SelfQueueStep(st, s, at');
    ReadyAdded(st, s, x');
    FrameTables(st, st', s, x');
    ScarceKept(st, st');
    HandleInv(st, st', s, x', at');
  }

  lemma QueuedIs(x: Session)
    ensures QueuedSession(x) == x.(core := x.core.(readyQueued := true)) && SameNotices(x, QueuedSession(x))
  {
  }

  // ----- places at the same desk -----

  lemma EventDuties(stop: StopAt, status: int)
    ensures DutyOf(EventConnect) == DoConnect && DutyOf(EventAdd) == DoEventAdd && DutyOf(EventPut) == DoPut && DutyOf(EventIdle) == DoIdle
    ensures DutyOf(Nothing) == Away && DutyOf(EventStop(stop, status)) == DoEventStop(stop, status)
    ensures HoldsRef(DoEventAdd) && HoldsRef(DoEventStop(stop, status))
  {
  }

  lemma PumpDuties(way: Way, ops: nat, stop: StopAt, status: int)
    ensures DutyOf(Taken) == DoTaken && DutyOf(Top(way, ops)) == DoPump && DutyOf(Leaving(way, ops)) == DoPump && DutyOf(CheckDone) == DoPump
    ensures DutyOf(Failing(stop, status)) == DoFail(stop, status) && DutyOf(Finishing) == DoFinish && DutyOf(Nothing) == Away
    ensures DutyOf(AfterLane(way)) == DoPump
  {
  }

  lemma EventDesks()
    ensures SameDesk(EventConnect, EventPut) && SameDesk(EventAdd, EventPut) && SameDesk(EventPut, EventIdle) && SameDesk(EventIdle, Nothing)
    ensures !Waking(EventConnect) && !Waking(EventAdd) && !Waking(EventPut) && !Waking(EventIdle) && !Waking(Nothing)
  {
  }

  lemma EventStopDesks(stop: StopAt, status: int)
    ensures forall stop' :: SameDesk(EventStop(stop, status), EventStop(stop', status)) && !Waking(EventStop(stop', status))
    ensures SameDesk(EventStop(stop, status), EventAdd) && !Waking(EventStop(stop, status)) && !Waking(EventAdd)
  {
  }

  lemma FailDesks(stop: StopAt, status: int)
    ensures forall stop' :: SameDesk(Failing(stop, status), Failing(stop', status)) && !Waking(Failing(stop', status))
    ensures SameDesk(Failing(stop, status), Finishing) && !Waking(Failing(stop, status)) && !Waking(Finishing)
  {
  }

  lemma PumpDesks()
    ensures SameDesk(Taken, Nothing) && SameDesk(Taken, Finishing) && SameDesk(Taken, Top(ToBackend, 0)) && !Waking(Taken)
    ensures !Waking(Nothing) && !Waking(Finishing) && !Waking(Top(ToBackend, 0))
    ensures SameDesk(CheckDone, Finishing) && SameDesk(CheckDone, Nothing) && !Waking(CheckDone)
  {
  }

  lemma LeaveDesks(way: Way, ops: nat)
    ensures SameDesk(Leaving(way, ops), AfterLane(way)) && !Waking(Leaving(way, ops)) && !Waking(AfterLane(way)) && !AfterLane(way).NoBuffer?
  {
  }

  lemma OverDone(x: Session)
    ensures Over(x) ==> BothDone(x)
  {
  }

  /** A change of the life-cycle fields only. */
  lemma CoreLinks(x: Session, k: Core)
    requires k.retired == x.core.retired && k.freed == x.core.freed && k.bound == x.core.bound
    ensures SameNotices(x, x.(core := k)) && SameLinks(x, x.(core := k))
    ensures SameQueue(x, x.(core := k)) == ((x.core.stopping ==> k.stopping) && k.readyQueued == x.core.readyQueued)
  {
  }

  lemma StopMarkParts(k: Core, status: int)
    ensures var k' := StopMark(k, status);
            && k'.retired == k.retired && k'.freed == k.freed && k'.bound == k.bound && k'.stopping
            && k'.readyQueued == k.readyQueued && k'.running == k.running && k'.connecting == k.connecting
  {
  }

  // ----- event handling -----

  lemma EventHandled(st: State, r: Reply)
    requires CanHandle(st, r)
    ensures var s, at := st.dispatcher.session, st.dispatcher.at; var x := st.sessions[s];
            && (at == EventConnect ==> Handle(st, r) == Dispatch(st, EventPut))
            && (at == EventAdd ==> Handle(st, r) == Dispatch(SelfQueue(st, s), EventPut))
            && (at == EventPut && x.core.eventRefs == 1 ==>
                  Handle(st, r) == Dispatch(Put(st, s, x.(core := x.core.(eventRefs := 0))), EventIdle))
            && (at == EventIdle ==>
                  Handle(st, r) == Dispatch(Put(st, s, x.(core := x.core.(eventIdle := x.core.eventIdle + 1))), Nothing))
  {
    hide SelfQueue;
  }

  lemma StopHandled(st: State, r: Reply)
    requires CanHandle(st, r) && (st.dispatcher.at.EventStop? || st.dispatcher.at.Failing?)
    ensures var s, at := st.dispatcher.session, st.dispatcher.at; var x := st.sessions[s];
            var next := (stop: StopAt) => if at.EventStop? then EventStop(stop, at.status) else Failing(stop, at.status);
            && (at.at == StopLock && x.core.inUse && !x.core.connecting ==>
                  Handle(st, r) == Dispatch(Put(st, s, x.(core := StopMark(x.core, at.status))), next(StopAdd)))
            && (at.at == StopAdd ==> Handle(st, r) == Dispatch(SelfQueue(st, s), next(StopShut)))
            && (at.at == StopWake || at.at == StopShut ==> Handle(st, r) == Dispatch(st, if at.EventStop? then EventAdd else Finishing))
  {
    hide SelfQueue, StopMark;
  }

  lemma EventStep(st: State, s: nat, x: Session, r: Reply, at: DispatchAt, c: ControlAt)
    requires InHand(st, s, x, at, c) && CanHandle(st, r)
    requires at == EventConnect || at == EventAdd || at == EventPut || at == EventIdle
    ensures Inv(Handle(st, r))
  {
    hide *;
    EventDesks();
    EventPasses();
    EventDuties(StopLock, 0);
    InHandParts(st, s, x, at, c);
    InHandLocal(st, s, x, at, c);
    LocalParts(x, at, c, DueOf(x));
    EventHandled(st, r);
    var k, inLock, bothDone := x.core, DueOf(x).inLock, BothDone(x);
    if at == EventConnect {
      ConnectDone(k, c, inLock, bothDone);
      CarryHand(st, s, x, at, c, k, EventPut);
    } else if at == EventAdd {
      MayQueue(k, DoEventAdd, c, inLock, bothDone);
      Queued(k, DoEventAdd, c, inLock, bothDone);
      EventAdded(k.(readyQueued := true), c, inLock, bothDone);
      QueueHand(st, s, x, at, c, EventPut);
    } else if at == EventPut {
      PutDone(k, c, inLock, bothDone);
      CarryHand(st, s, x, at, c, k.(eventRefs := 0), EventIdle);
    } else {
      IdleDone(k, c, inLock, bothDone);
      CarryHand(st, s, x, at, c, k.(eventIdle := k.eventIdle + 1), Nothing);
    }
  }

  lemma EventStopStep(st: State, s: nat, x: Session, r: Reply, stop: StopAt, status: int, c: ControlAt)
    requires InHand(st, s, x, EventStop(stop, status), c) && CanHandle(st, r)
    ensures Inv(Handle(st, r))
  {
    hide *;
    var at := EventStop(stop, status);
    EventStopDesks(stop, status);
    EventStopPasses(stop, status);
    EventDuties(stop, status);
    InHandParts(st, s, x, at, c);
    InHandLocal(st, s, x, at, c);
    LocalParts(x, at, c, DueOf(x));
    StopHandled(st, r);
    var k, inLock, bothDone := x.core, DueOf(x).inLock, BothDone(x);
    if stop == StopLock {
      EventDuties(StopAdd, status);
      EventStops(k, status, c, inLock, bothDone);
      StopMarkParts(k, status);
      CarryHand(st, s, x, at, c, StopMark(k, status), EventStop(StopAdd, status));
    } else if stop == StopAdd {
      EventDuties(StopShut, status);
      MayQueue(k, DoEventStop(stop, status), c, inLock, bothDone);
      Queued(k, DoEventStop(stop, status), c, inLock, bothDone);
      EventStopAdded(k.(readyQueued := true), status, c, inLock, bothDone);
      QueueHand(st, s, x, at, c, EventStop(StopShut, status));
    } else {
      EventStopOver(k, stop, status, c, inLock, bothDone);
      CarryHand(st, s, x, at, c, k, EventAdd);
    }
  }

  // ----- entering and leaving the pump -----

  lemma PassHandled(st: State, r: Reply)
    requires CanHandle(st, r)
    ensures var s, at := st.dispatcher.session, st.dispatcher.at; var x := st.sessions[s];
            && (at == Taken ==>
                  Handle(st, r) == Dispatch(st, if !x.core.inUse || (!x.core.running && !x.core.stopping) then Nothing
                                                else if x.core.stopping then Finishing
                                                else Top(ToBackend, 0)))
            && (at.Leaving? ==> Handle(st, r) == Dispatch(if at.ops == 32 then SelfQueue(st, s) else st, AfterLane(at.way)))
            && (at == CheckDone ==> Handle(st, r) == Dispatch(st, if Over(x) then Finishing else Nothing))
  {
    hide SelfQueue;
  }

  lemma TakenStep(st: State, s: nat, x: Session, r: Reply, c: ControlAt)
    requires InHand(st, s, x, Taken, c) && CanHandle(st, r)
    ensures Inv(Handle(st, r))
  {
    hide *;
    PumpDesks();
    PumpPasses();
    PumpDuties(ToBackend, 0, StopLock, 0);
    InHandParts(st, s, x, Taken, c);
    InHandLocal(st, s, x, Taken, c);
    LocalParts(x, Taken, c, DueOf(x));
    PassHandled(st, r);
    TakenDecides(x.core, c, DueOf(x).inLock, BothDone(x));
    if !x.core.inUse || (!x.core.running && !x.core.stopping) {
      SameMarks(x, x.core);
      FlowStill(x, x, Taken, Nothing, c, c, DueOf(x));
      LocalOf(x, Nothing, c, DueOf(x));
      MoveHand(st, s, x, Taken, c, Nothing);
    } else if x.core.stopping {
      VisitHand(st, s, x, Taken, c, x.core, Finishing);
    } else {
      VisitHand(st, s, x, Taken, c, x.core, Top(ToBackend, 0));
    }
  }

  lemma PassStep(st: State, s: nat, x: Session, r: Reply, at: DispatchAt, c: ControlAt)
    requires InHand(st, s, x, at, c) && CanHandle(st, r) && (at.Leaving? || at == CheckDone)
    ensures Inv(Handle(st, r))
  {
    hide *;
    InHandParts(st, s, x, at, c);
    InHandLocal(st, s, x, at, c);
    LocalParts(x, at, c, DueOf(x));
    PassHandled(st, r);
    var k, inLock, bothDone := x.core, DueOf(x).inLock, BothDone(x);
    if at.Leaving? {
      PumpDuties(at.way, at.ops, StopLock, 0);
      LeaveDesks(at.way, at.ops);
      LeavePasses(at.way, at.ops);
      if at.ops == 32 {
        PumpRuns(k, c, inLock, bothDone);
        MayQueue(k, DoPump, c, inLock, bothDone);
        Queued(k, DoPump, c, inLock, bothDone);
        QueueHand(st, s, x, at, c, AfterLane(at.way));
      } else {
        CarryHand(st, s, x, at, c, k, AfterLane(at.way));
      }
    } else {
      PumpDuties(ToBackend, 0, StopLock, 0);
      PumpDesks();
      PumpPasses();
      OverDone(x);
      PumpOver(k, c, inLock, bothDone);
      if Over(x) {
        VisitHand(st, s, x, at, c, k, Finishing);
      } else {
        FlowLeaves(x, c, DueOf(x));
        LocalOf(x, Nothing, c, DueOf(x));
        MoveHand(st, s, x, at, c, Nothing);
      }
    }
  }

  lemma FailStep(st: State, s: nat, x: Session, r: Reply, stop: StopAt, status: int, c: ControlAt)
    requires InHand(st, s, x, Failing(stop, status), c) && CanHandle(st, r)
    ensures Inv(Handle(st, r))
  {
    hide *;
    var at := Failing(stop, status);
    FailDesks(stop, status);
    PumpDuties(ToBackend, 0, stop, status);
    InHandParts(st, s, x, at, c);
    InHandLocal(st, s, x, at, c);
    LocalParts(x, at, c, DueOf(x));
    StopHandled(st, r);
    var k, inLock, bothDone := x.core, DueOf(x).inLock, BothDone(x);
    if stop == StopLock {
      PumpDuties(ToBackend, 0, StopAdd, status);
      FailPasses(stop, StopAdd, status);
      FailStops(k, status, c, inLock, bothDone);
      StopMarkParts(k, status);
      VisitHand(st, s, x, at, c, StopMark(k, status), Failing(StopAdd, status));
    } else if stop == StopAdd {
      PumpDuties(ToBackend, 0, StopShut, status);
      FailPasses(stop, StopShut, status);
      FailRuns(k, stop, status, c, inLock, bothDone);
      Queued(k, DoFail(stop, status), c, inLock, bothDone);
      FailAdded(k.(readyQueued := true), status, c, inLock, bothDone);
      QueueHand(st, s, x, at, c, Failing(StopShut, status));
    } else {
      FailPasses(stop, stop, status);
      FailOver(k, stop, status, c, inLock, bothDone);
      VisitHand(st, s, x, at, c, k, Finishing);
    }
  }
}

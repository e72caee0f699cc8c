/** Every step of the control thread with a session keeps the invariant. */
module BridgeControl {
  import opened Lists
  import opened SlotRegistry
  import opened Handles
  import opened BridgeState
  import opened BridgeSteps
  import opened BridgeInvariant
  import opened BridgeOwnership
  import opened BridgeControlProofs
  import opened BridgeFrames
  import opened BridgeHandling
  import opened BridgeDispatching
  import opened BridgeFinishing
  import opened BridgeLooping

  /** The session the control thread works on. */
  ghost predicate Working(st: State, s: nat, x: Session, at: ControlAt) {
    && Inv(st) && s == st.control.session && s < |st.sessions| && x == st.sessions[s] && st.control.at == at && at != Free
  }

  lemma WorkingParts(st: State, s: nat, x: Session, at: ControlAt)
    requires Working(st, s, x, at)
    ensures Inv(st) && s == st.control.session && s < |st.sessions| && x == st.sessions[s] && st.control.at == at && at != Free
    ensures SessionsInv(st) && TablesInv(st) && ScarceInv(st) && PositionInv(st) && Alert(st) && OperationInv(st)
    ensures SessionInv(x, DispatchOf(st, s), at) && !st.control.wake
  {
    hide Inv, SessionInv, DispatchOf;
    SessionAt(st, s);
    InvParts(st);
    hide SessionsInv, TablesInv, ScarceInv, Alert, OperationInv;
  }

  // ----- frames -----

  /** The step changes session s and the control thread's place. */
  predicate ControlFrame(st: State, st': State, s: nat, y: Session) {
    && s < |st.sessions| && s == st.control.session && st'.sessions == st.sessions[s := y]
    && st'.dispatcher == st.dispatcher && st'.waiters == st.waiters && st'.bufferBytes == st.bufferBytes
    && (st'.control.at == Free || (st'.control.session == s && !st'.control.wake))
  }

  lemma ControlPlaces(st: State, st': State, s: nat, y: Session)
    requires ControlFrame(st, st', s, y)
    ensures DispatcherOn(st.dispatcher, st'.dispatcher, s) && ControlOn(st.control, st'.control, s)
    ensures DispatchOf(st', s) == DispatchOf(st, s) && ControlOf(st', s) == st'.control.at
  {
  }

  lemma ControlPosition(st: State, st': State, s: nat, y: Session)
    requires PositionInv(st) && ScarceInv(st) && ControlFrame(st, st', s, y)
    ensures PositionInv(st') && ScarceInv(st') && st'.sessions == st.sessions[s := y]
  {
  }

  lemma ControlInv(st: State, st': State, s: nat, y: Session)
    requires Inv(st) && ControlFrame(st, st', s, y) && s < |st.sessions|
    requires SessionInv(y, DispatchOf(st, s), st'.control.at)
    requires TablesInv(st') && Alert(st') && OperationInv(st')
    ensures Inv(st')
  {
    hide *;
    InvParts(st);
    ControlPlaces(st, st', s, y);
    ControlPosition(st, st', s, y);
    FrameSessions(st, st', s, y);
    InvOf(st');
  }

  /** What wakes the dispatcher is not forgotten. */
  predicate Roused(st: State, st': State) {
    && (st.pending ==> st'.pending) && (ControlWakes(st.control) ==> ControlWakes(st'.control) || st'.pending)
    && (st'.ready != [] ==> st.ready != [] || ControlWakes(st'.control))
    && (st'.retired != [] ==> st.retired != [] || ControlWakes(st'.control))
    && st'.notifiers == st.notifiers
  }

  lemma ControlAlert(st: State, st': State, s: nat, y: Session)
    requires Alert(st) && ControlFrame(st, st', s, y) && SameNotices(st.sessions[s], y) && Roused(st, st')
    ensures Alert(st')
  {
    hide HasEvents, HasAdded, ControlWakes, Looking, WillPoll, SameNotices;
    SameSounds(st, s, y, st');
  }

  // ----- operations -----

  /** Moves between places of one operation on one session. */
  predicate MayMove(at: ControlAt, at': ControlAt) {
    && at' != Free && at != Free && !at.ReapRetire? && !at'.ReapRetire?
    && (at.Stop? ==> at'.Stop? && at' != Stop(StopLock)) && (at.Joining? || Reaping(at) ==> Reaping(at'))
  }

  lemma CancelMoves(o: Control, at: ControlAt, active: seq<nat>, stops: seq<bool>, stops': seq<bool>)
    requires CancelInv(o, active, stops) && MayMove(o.at, at) && |stops'| == |stops| && o.session < |stops|
    requires forall t :: 0 <= t < |stops| && stops[t] ==> stops'[t]
    requires o.at == Stop(StopLock) ==> stops'[o.session]
    ensures CancelInv(o.(at := at), active, stops')
  {
    hide Reaping;
  }

  lemma HaltMoves(o: Control, o': Control, round: Round, stopping: bool, active: seq<nat>, retired: seq<nat>)
    requires HaltInv(o, round, stopping, active, retired) && o.at != Free && o'.operation == o.operation
    ensures HaltInv(o', round, stopping, active, retired)
  {
  }

  lemma OperationMoves(st: State, st': State, s: nat, y: Session)
    requires OperationInv(st) && ControlFrame(st, st', s, y) && MayMove(st.control.at, st'.control.at)
    requires st'.control == st.control.(at := st'.control.at)
    requires st'.registry == st.registry && st'.stopping == st.stopping && st'.retired == st.retired
    requires st.sessions[s].core.stopping ==> y.core.stopping
    requires st.control.at == Stop(StopLock) ==> y.core.stopping
    ensures OperationInv(st')
  {
    hide CancelInv, HaltInv;
    MovePlaces(st.control.at, st'.control.at);
    hide MayMove;
    MarksUpdate(st.sessions, s, y);
    MarksAt(st.sessions, s);
    CancelMoves(st.control, st'.control.at, st.registry.active, StopMarks(st.sessions), StopMarks(st'.sessions));
    HaltMoves(st.control, st'.control, st.dispatcher.round, st.stopping, st.registry.active, st.retired);
  }

  lemma MovePlaces(at: ControlAt, at': ControlAt)
    requires MayMove(at, at')
    ensures at != Free
  {
  }

  // ----- steps that move no list -----

  predicate Quieted(at: ControlAt) {
    at.Stop? && at.at.StopWake?
  }

  lemma PlainRoused(st: State, st': State)
    requires st'.pending == st.pending && st'.ready == st.ready && st'.retired == st.retired && st'.notifiers == st.notifiers
    requires st'.control == st.control.(at := st'.control.at) && !Quieted(st.control.at)
    ensures Roused(st, st')
  {
  }

  lemma PlainFrame(st: State, s: nat, y: Session, at: ControlAt)
    requires s < |st.sessions| && s == st.control.session && !st.control.wake
    ensures var st' := At(Put(st, s, y), at);
            && ControlFrame(st, st', s, y) && SameLists(st, st') && st'.sessions == st.sessions[s := y]
            && st'.control == st.control.(at := at) && st'.pending == st.pending && st'.ready == st.ready
            && st'.retired == st.retired && st'.notifiers == st.notifiers && st'.registry == st.registry && st'.stopping == st.stopping
  {
  }

  lemma SameQueueParts(x: Session, y: Session)
    requires SameQueue(x, y)
    ensures (x.core.stopping ==> y.core.stopping) && y.core.readyQueued == x.core.readyQueued
  {
  }

  lemma PlainControl(st: State, s: nat, x: Session, at: ControlAt, y: Session, at': ControlAt)
    requires Working(st, s, x, at) && SessionInv(y, DispatchOf(st, s), at')
    requires MayMove(at, at') && !Quieted(at) && SameNotices(x, y) && SameLinks(x, y) && SameQueue(x, y)
    requires at == Stop(StopLock) ==> y.core.stopping
    ensures Inv(At(Put(st, s, y), at'))
  {
    hide *;
    SameQueueParts(x, y);
    WorkingParts(st, s, x, at);
    var st' := At(Put(st, s, y), at');
    PlainFrame(st, s, y, at');
    ReadyKept(st, s, y);
    FrameTables(st, st', s, y);
    PlainRoused(st, st');
    ControlAlert(st, st', s, y);
    OperationMoves(st, st', s, y);
    ControlInv(st, st', s, y);
  }

  /** A step that changes life-cycle fields only. */
  lemma CoreControl(st: State, s: nat, x: Session, at: ControlAt, k: Core, at': ControlAt)
    requires Working(st, s, x, at) && MayMove(at, at') && !Quieted(at) && !at.StartAdd? && at != Stop(StopAdd)
    requires Ownership(k, DutyOf(DispatchOf(st, s)), at', DueOf(x).inLock, BothDone(x))
    requires k.retired == x.core.retired && k.freed == x.core.freed && k.bound == x.core.bound && k.running == x.core.running
    requires (x.core.stopping ==> k.stopping) && k.readyQueued == x.core.readyQueued && (k.connecting ==> x.core.connecting)
    requires at == Stop(StopLock) ==> k.stopping
    ensures Inv(At(PutCore(st, s, k), at'))
  {
    hide *;
    WorkingParts(st, s, x, at);
    Calm(x.core, at, k, at', DueOf(x).marked);
    ControlMoves(x, k, DispatchOf(st, s), at, at');
    CoreLinks(x, k);
    PlainControl(st, s, x, at, x.(core := k), at');
    PutCoreIs(st, s, k);
  }

  lemma PutCoreIs(st: State, s: nat, k: Core)
    requires s < |st.sessions|
    ensures PutCore(st, s, k) == Put(st, s, st.sessions[s].(core := k))
  {
  }

  /** While a session is being worked on, nobody asked the dispatcher to stop. */
  lemma HaltFar(o: Control, o': Control, round: Round, stopping: bool, active: seq<nat>, retired: seq<nat>,
                active': seq<nat>, retired': seq<nat>)
    requires HaltInv(o, round, stopping, active, retired) && o.at != Free
    requires o'.operation.CancelHalt? ==> o.operation.CancelHalt?
    ensures HaltInv(o', round, stopping, active', retired') && !stopping
  {
  }

  lemma OperationParts(st: State)
    requires OperationInv(st)
    ensures CancelInv(st.control, st.registry.active, StopMarks(st.sessions))
    ensures HaltInv(st.control, st.dispatcher.round, st.stopping, st.registry.active, st.retired)
  {
    hide CancelInv, HaltInv;
  }

  lemma OperationOf(st: State)
    requires CancelInv(st.control, st.registry.active, StopMarks(st.sessions))
    requires HaltInv(st.control, st.dispatcher.round, st.stopping, st.registry.active, st.retired)
    ensures OperationInv(st)
  {
    hide CancelInv, HaltInv;
  }

  // ----- taking the session off the ready queue -----

  function UnqueuedCore(k: Core): Core {
    k.(readyQueued := false)
  }

  lemma ReadyRemoved(st: State, s: nat, y: Session)
    requires TablesInv(st) && s < |st.sessions| && !y.core.readyQueued
    ensures Mirrors(Dropped(st.ready, s, st.sessions[s].core.readyQueued), ReadyMarks(st.sessions[s := y]))
    ensures Dropped(st.ready, s, st.sessions[s].core.readyQueued) != [] ==> st.ready != []
  {
    hide Mirrors, TablesInv;
    TablesParts(st);
    MarksAt(st.sessions, s);
    MarksUpdate(st.sessions, s, y);
    if st.sessions[s].core.readyQueued {
      MarkRemove(st.ready, ReadyMarks(st.sessions), s);
    } else {
      MarksKept(st.sessions, s, y);
    }
  }

  lemma UnqueueIs(st: State, s: nat)
    requires s < |st.sessions|
    ensures var x := st.sessions[s];
            Unqueue(st, s) == st.(sessions := st.sessions[s := x.(core := UnqueuedCore(x.core))],
                                  ready := Dropped(st.ready, s, x.core.readyQueued))
  {
    hide Remove;
    if !st.sessions[s].core.readyQueued {
      UnqueuedSame(st.sessions[s]);
      UpdateSame(st.sessions, s);
    }
  }

  lemma UnqueuedSame(x: Session)
    requires !x.core.readyQueued
    ensures x.(core := UnqueuedCore(x.core)) == x
  {
  }

  lemma UnqueueParts(st: State, s: nat, at: ControlAt)
    requires s < |st.sessions| && s == st.control.session && !st.control.wake
    ensures var x := st.sessions[s]; var y := x.(core := UnqueuedCore(x.core)); var st' := At(Unqueue(st, s), at);
            && ControlFrame(st, st', s, y) && SameLists(st, st') && st'.sessions == st.sessions[s := y]
            && st'.control == st.control.(at := at) && st'.pending == st.pending
            && st'.ready == Dropped(st.ready, s, x.core.readyQueued)
            && st'.retired == st.retired && st'.notifiers == st.notifiers && st'.registry == st.registry && st'.stopping == st.stopping
  {
    hide Unqueue, Dropped, UnqueuedCore;
    UnqueueIs(st, s);
  }

  lemma UnqueuedLinks(x: Session)
    ensures var y := x.(core := UnqueuedCore(x.core));
            SameNotices(x, y) && SameLinks(x, y) && y.core.stopping == x.core.stopping && !y.core.readyQueued
  {
  }

  lemma UnqueueRoused(st: State, st': State)
    requires st'.pending == st.pending && (st'.ready != [] ==> st.ready != []) && st'.retired == st.retired && st'.notifiers == st.notifiers
    requires st'.control == st.control.(at := st'.control.at) && !Quieted(st.control.at)
    ensures Roused(st, st')
  {
  }

  // ----- queueing the session -----

  lemma StopAddIs(st: State, s: nat)
    requires s < |st.sessions| && s == st.control.session && !st.control.wake && st.sessions[s].core.inUse
    ensures var x := st.sessions[s]; var y := QueuedSession(x); var st' := At(QueueAdd(st, s), Stop(StopWake));
            && ControlFrame(st, st', s, y) && SameLists(st, st') && st'.sessions == st.sessions[s := y]
            && st'.control == st.control.(at := Stop(StopWake)) && st'.pending == st.pending
            && st'.ready == Enqueued(st.ready, s, x.core.readyQueued)
            && st'.retired == st.retired && st'.notifiers == st.notifiers && st'.registry == st.registry && st'.stopping == st.stopping
  {
    hide QueueAdd, Enqueued;
    QueueAddIs(st, s);
  }

  lemma StopAddRoused(st: State, st': State)
    requires st'.pending == st.pending && st'.retired == st.retired && st'.notifiers == st.notifiers
    requires st'.control.at == Stop(StopWake)
    ensures Roused(st, st')
  {
  }

  lemma StopAddStep(st: State, s: nat, x: Session)
    requires Working(st, s, x, Stop(StopAdd))
    ensures Inv(At(QueueAdd(st, s), Stop(StopWake)))
  {
    hide *;
    WorkingParts(st, s, x, Stop(StopAdd));
    StopMoves();
    SessionParts(x, DispatchOf(st, s), Stop(StopAdd));
    MayAdd(x.core, DutyOf(DispatchOf(st, s)), Stop(StopAdd), DueOf(x).inLock, BothDone(x));
    Queued(x.core, DutyOf(DispatchOf(st, s)), Stop(StopAdd), DueOf(x).inLock, BothDone(x));
    CancelAdded(x.core.(readyQueued := true), DutyOf(DispatchOf(st, s)), DueOf(x).inLock, BothDone(x));
    Calm(x.core, Stop(StopAdd), x.core.(readyQueued := true), Stop(StopWake), DueOf(x).marked);
    ControlMoves(x, x.core.(readyQueued := true), DispatchOf(st, s), Stop(StopAdd), Stop(StopWake));
    var y := QueuedSession(x);
    var st' := At(QueueAdd(st, s), Stop(StopWake));
    StopAddIs(st, s);
    QueuedLinks(x);
    QueuedSessionIs(x);
    ReadyAdded(st, s, y);
    FrameTables(st, st', s, y);
    StopAddRoused(st, st');
    ControlAlert(st, st', s, y);
    OperationMoves(st, st', s, y);
    ControlInv(st, st', s, y);
  }

  lemma QueuedSessionIs(x: Session)
    ensures QueuedSession(x) == x.(core := x.core.(readyQueued := true))
  {
  }

  lemma StopMoves()
    ensures MayMove(Stop(StopLock), Stop(StopAdd)) && MayMove(Stop(StopAdd), Stop(StopWake)) && MayMove(Stop(StopWake), Stop(StopShut))
    ensures !Quieted(Stop(StopLock)) && !Quieted(Stop(StopAdd))
  {
  }

  lemma StopWakeIs(st: State, s: nat)
    requires s < |st.sessions| && s == st.control.session && !st.control.wake
    ensures var x := st.sessions[s]; var st' := At(st.(pending := true), Stop(StopShut));
            && ControlFrame(st, st', s, x) && SameLists(st, st') && st'.sessions == st.sessions[s := x] && st'.ready == st.ready
            && st'.control == st.control.(at := Stop(StopShut)) && st'.pending
            && st'.retired == st.retired && st'.registry == st.registry && st'.stopping == st.stopping
  {
    UpdateSame(st.sessions, s);
  }

  lemma StopWakeStep(st: State, s: nat, x: Session)
    requires Working(st, s, x, Stop(StopWake))
    ensures Inv(At(st.(pending := true), Stop(StopShut)))
  {
    hide *;
    WorkingParts(st, s, x, Stop(StopWake));
    StopMoves();
    SessionParts(x, DispatchOf(st, s), Stop(StopWake));
    CancelWakes(x.core, DutyOf(DispatchOf(st, s)), DueOf(x).inLock, BothDone(x));
    Calm(x.core, Stop(StopWake), x.core, Stop(StopShut), DueOf(x).marked);
    ControlMoves(x, x.core, DispatchOf(st, s), Stop(StopWake), Stop(StopShut));
    assert x.(core := x.core) == x;
    var st' := At(st.(pending := true), Stop(StopShut));
    StopWakeIs(st, s);
    PutSame(st, s);
    ReadyKept(st, s, x);
    FrameTables(st, st', s, x);
    PendingAlert(st');
    OperationMoves(st, st', s, x);
    ControlInv(st, st', s, x);
  }

  lemma StopLockStep(st: State, s: nat, x: Session)
    requires Working(st, s, x, Stop(StopLock))
    ensures x.core.inUse && !x.core.connecting && Inv(At(PutCore(st, s, StopMark(x.core, -125)), Stop(StopAdd)))
  {
    hide *;
    WorkingParts(st, s, x, Stop(StopLock));
    StopMoves();
    SessionParts(x, DispatchOf(st, s), Stop(StopLock));
    CancelStops(x.core, DutyOf(DispatchOf(st, s)), DueOf(x).inLock, BothDone(x));
    StoppedParts(x.core);
    StopMarkParts(x.core, -125);
    CoreControl(st, s, x, Stop(StopLock), StopMark(x.core, -125), Stop(StopAdd));
  }

  // ----- the operation lets go of its session -----

  lemma CancelDone(o: Control, active: seq<nat>, stops: seq<bool>)
    requires CancelInv(o, active, stops) && o.at == Stop(StopShut)
    ensures CancelInv(Control(AfterWake(o.operation), false, 0, Free), active, stops)
    ensures !AfterWake(o.operation).CancelHalt? || o.operation.CancelHalt?
  {
  }

  lemma LetGoFrame(st: State, s: nat, operation: Operation, wake: bool)
    requires s < |st.sessions| && s == st.control.session
    ensures var st' := st.(control := Control(operation, wake, 0, Free));
            ControlFrame(st, st', s, st.sessions[s]) && SameLists(st, st')
  {
    UpdateSame(st.sessions, s);
  }

  lemma LetGoRoused(st: State, st': State)
    requires st' == st.(control := st'.control) && !st.control.wake && !Quieted(st.control.at)
    ensures Roused(st, st')
  {
  }

  lemma NoCancel(active: seq<nat>, stops: seq<bool>)
    ensures CancelInv(Control(NoOperation, false, 0, Free), active, stops) && !Quieted(Joining)
  {
  }

  lemma LetGoPlaces()
    ensures !Quieted(Stop(StopShut)) && !Quieted(Joining)
  {
  }

  /** The operation's last step on a session changes nothing but its place. */
  lemma LetGoStep(st: State, s: nat, x: Session, at: ControlAt, operation: Operation)
    requires Working(st, s, x, at)
    requires (at == Stop(StopShut) && operation == AfterWake(st.control.operation)) || (at == Joining && operation == NoOperation)
    ensures Inv(st.(control := Control(operation, false, 0, Free)))
  {
    hide *;
    WorkingParts(st, s, x, at);
    LetGoPlaces();
    var d, due, st' := DispatchOf(st, s), DueOf(x), st.(control := Control(operation, false, 0, Free));
    SessionParts(x, d, at);
    OperationParts(st);
    if at == Joining {
      JoinExpired(x.core, DutyOf(d), due.inLock, BothDone(x));
      NoCancel(st.registry.active, StopMarks(st.sessions));
    } else {
      CancelOver(x.core, DutyOf(d), due.inLock, BothDone(x));
      CancelDone(st.control, st.registry.active, StopMarks(st.sessions));
    }
    Calm(x.core, at, x.core, Free, due.marked);
    ControlMoves(x, x.core, d, at, Free);
    assert x.(core := x.core) == x;
    HaltFar(st.control, st'.control, st.dispatcher.round, st.stopping, st.registry.active, st.retired, st.registry.active, st.retired);
    OperationOf(st');
    PutSame(st, s);
    LetGoFrame(st, s, operation, false);
    TablesKept(st, st');
    LetGoRoused(st, st');
    ControlAlert(st, st', s, x);
    ControlInv(st, st', s, x);
  }

  // ----- start: queue and let go -----

  function StartedState(st: State, s: nat): State
    requires s < |st.sessions|
  {
    st.(sessions := st.sessions[s := QueuedSession(st.sessions[s])],
        ready := Enqueued(st.ready, s, st.sessions[s].core.readyQueued),
        control := Control(st.control.operation, true, 0, Free))
  }

  lemma StartedStateParts(st: State, s: nat)
    requires s < |st.sessions| && s == st.control.session
    ensures var st' := StartedState(st, s); var y := QueuedSession(st.sessions[s]);
            && ControlFrame(st, st', s, y) && SameLists(st, st') && st'.sessions == st.sessions[s := y]
            && st'.control == Control(st.control.operation, true, 0, Free) && st'.pending == st.pending
            && st'.ready == Enqueued(st.ready, s, st.sessions[s].core.readyQueued)
            && st'.retired == st.retired && st'.notifiers == st.notifiers && st'.registry == st.registry && st'.stopping == st.stopping
            && st'.dispatcher == st.dispatcher
  {
    hide Enqueued, QueuedSession;
  }

  lemma StartIs(st: State, s: nat)
    requires s < |st.sessions| && s == st.control.session && st.sessions[s].core.inUse
    ensures LetGo(QueueAdd(st, s)) == StartedState(st, s)
  {
    hide QueueAdd, Enqueued;
    QueueAddIs(st, s);
  }

  lemma WakeRoused(st: State, st': State)
    requires st'.pending == st.pending && st'.notifiers == st.notifiers && st'.control.wake
    ensures Roused(st, st')
  {
  }

  lemma StartCancel(o: Control, active: seq<nat>, stops: seq<bool>, stops': seq<bool>)
    requires CancelInv(o, active, stops) && o.at == StartAdd
    ensures CancelInv(Control(o.operation, true, 0, Free), active, stops')
  {
  }

  lemma StartAddStep(st: State, s: nat, x: Session)
    requires Working(st, s, x, StartAdd)
    ensures Inv(LetGo(QueueAdd(st, s)))
  {
    hide *;
    WorkingParts(st, s, x, StartAdd);
    SessionParts(x, DispatchOf(st, s), StartAdd);
    MayAdd(x.core, DutyOf(DispatchOf(st, s)), StartAdd, DueOf(x).inLock, BothDone(x));
    Queued(x.core, DutyOf(DispatchOf(st, s)), StartAdd, DueOf(x).inLock, BothDone(x));
    StartAdded(x.core.(readyQueued := true), DutyOf(DispatchOf(st, s)), DueOf(x).inLock, BothDone(x));
    Calm(x.core, StartAdd, x.core.(readyQueued := true), Free, DueOf(x).marked);
    ControlMoves(x, x.core.(readyQueued := true), DispatchOf(st, s), StartAdd, Free);
    StartIs(st, s);
    var y := QueuedSession(x);
    var st' := StartedState(st, s);
    StartedStateParts(st, s);
    QueuedLinks(x);
    QueuedSessionIs(x);
    ReadyAdded(st, s, y);
    FrameTables(st, st', s, y);
    WakeRoused(st, st');
    ControlAlert(st, st', s, y);
    OperationParts(st);
    StartCancel(st.control, st.registry.active, StopMarks(st.sessions), StopMarks(st'.sessions));
    HaltFar(st.control, st'.control, st.dispatcher.round, st.stopping, st.registry.active, st.retired, st.registry.active, st.retired);
    OperationOf(st');
    ControlInv(st, st', s, y);
  }

  // ----- giving the slot back -----

  lemma UnbindName(r: Registry, name: Name, names: seq<Name>, s: nat, t: nat)
    requires s in r.home && 1 <= r.home[s] <= |r.slots| && Lookup(r, r.home[s]) == Some(s)
    ensures NameOk(r, name, t) ==> NameOk(Unbind(r, s), name, t)
    ensures NameCurrent(r, names, t) ==> NameCurrent(Unbind(r, s), names, t)
  {
    UnbindSlots(r, s);
    hide Unbind, GenerationAfter;
  }

  lemma UnbindNames(r: Registry, names: seq<Name>, s: nat)
    requires NamesInv(r, names) && Bound(r) && s in r.active && s in r.home && 1 <= r.home[s] <= |r.slots|
    requires Lookup(r, r.home[s]) == Some(s)
    ensures NamesInv(Unbind(r, s), names)
  {
    UnbindBound(r, s);
    hide Unbind, NoDup, NameOk, NameCurrent, Bound;
    forall t | 0 <= t < |names| ensures NameOk(Unbind(r, s), names[t], t) { UnbindName(r, names[t], names, s, t); }
    forall t | t in Unbind(r, s).active ensures NameCurrent(Unbind(r, s), names, t) {
      UnbindName(r, Name(0, 0, 0), names, s, t);
    }
  }

  lemma PartitionedBound(r: Registry)
    requires Partitioned(r)
    ensures Bound(r)
  {
    hide FreeListed, Bound, Counted;
  }

  lemma UnbindRegistry(r: Registry, bound: seq<bool>, names: seq<Name>, s: nat)
    requires RegistryInv(r, bound, names) && s < |bound| && bound[s]
    ensures s in r.active && s in r.home && 1 <= r.home[s] <= |r.slots|
    ensures RegistryInv(Unbind(r, s), bound[s := false], names) && Unbind(r, s).active == Remove(r.active, s)
  {
    hide Mirrors, Partitioned, NamesInv, Remove;
    MirrorMember(r.active, bound, s);
    UnbindPartitions(r, s);
    MarkRemove(r.active, bound, s);
    assert Bound(r) by { PartitionedBound(r); }
    UnbindNames(r, names, s);
  }

  function UnboundSession(x: Session): Session {
    x.(core := x.core.(bound := false))
  }

  function UnboundState(st: State, s: nat, at: ControlAt): State
    requires s < |st.sessions| && s in st.registry.home && 1 <= st.registry.home[s] <= |st.registry.slots|
  {
    At(st.(sessions := st.sessions[s := UnboundSession(st.sessions[s])], registry := Unbind(st.registry, s)), at)
  }

  lemma UnboundParts(st: State, s: nat, at: ControlAt)
    requires s < |st.sessions| && s in st.registry.home && 1 <= st.registry.home[s] <= |st.registry.slots|
    requires s == st.control.session && !st.control.wake
    ensures var st' := UnboundState(st, s, at); var y := UnboundSession(st.sessions[s]);
            && At(UnbindSession(st, s), at) == st'
            && ControlFrame(st, st', s, y) && st'.sessions == st.sessions[s := y] && Unfreed(st') == Unfreed(st)
            && st'.control == st.control.(at := at) && st'.pending == st.pending && st'.ready == st.ready
            && st'.retired == st.retired && st'.notifiers == st.notifiers && st'.stopping == st.stopping
            && st'.waiters == st.waiters && st'.bufferBytes == st.bufferBytes && st'.registry == Unbind(st.registry, s)
            && st'.dispatcher == st.dispatcher
  {
    hide Unbind;
  }

  lemma UnboundLinks(x: Session)
    ensures var y := UnboundSession(x);
            && SameNotices(x, y) && y.core.stopping == x.core.stopping && y.core.readyQueued == x.core.readyQueued
            && y.waitQueued == x.waitQueued && y.core.retired == x.core.retired && y.core.freed == x.core.freed
            && !y.core.bound && y.name == x.name && Holding(y) == Holding(x)
  {
  }

  lemma UnboundTables(st: State, st': State, s: nat, y: Session)
    requires TablesInv(st) && s < |st.sessions| && st.sessions[s].core.bound && y == UnboundSession(st.sessions[s])
    requires s in st.registry.home && 1 <= st.registry.home[s] <= |st.registry.slots|
    requires st'.sessions == st.sessions[s := y] && Unfreed(st') == Unfreed(st) && st'.ready == st.ready
    requires st'.waiters == st.waiters && st'.bufferBytes == st.bufferBytes && st'.registry == Unbind(st.registry, s)
    ensures TablesInv(st')
  {
    hide *;
    TablesParts(st);
    UnboundLinks(st.sessions[s]);
    MarksAt(st.sessions, s);
    MarksUpdate(st.sessions, s, y);
    MarksKept(st.sessions, s, y);
    HeldCountUpdate(st.sessions, s, y);
    UnbindRegistry(st.registry, BoundMarks(st.sessions), Names(st.sessions), s);
    TablesOf(st');
  }

  lemma UnboundCancel(o: Control, at: ControlAt, active: seq<nat>, stops: seq<bool>)
    requires CancelInv(o, active, stops) && NoDup(active)
    requires (o.at == FailUnbind && at == FailClear) || (o.at == ReapUnbind && at == ReapRetire)
    ensures CancelInv(o.(at := at), Remove(active, o.session), stops)
  {
    if o.operation.CancelReap? {
      assert active == [o.session] + o.operation.todo;
      assert Remove(active, o.session) == o.operation.todo;
      assert forall t :: t in o.operation.todo ==> t in active;
    }
  }

  lemma ActiveNoDup(r: Registry, bound: seq<bool>, names: seq<Name>)
    requires RegistryInv(r, bound, names)
    ensures NoDup(r.active)
  {
    hide Partitioned, NamesInv, NoDup;
  }

  lemma UnbindControl(st: State, s: nat, x: Session, at: ControlAt, at': ControlAt)
    requires Working(st, s, x, at) && SessionInv(UnboundSession(x), DispatchOf(st, s), at') && x.core.bound
    requires (at == FailUnbind && at' == FailClear) || (at == ReapUnbind && at' == ReapRetire)
    ensures Inv(At(UnbindSession(st, s), at'))
  {
    assert !Quieted(at) by { hide Working; }
    hide *;
    WorkingParts(st, s, x, at);
    TablesParts(st);
    MarksAt(st.sessions, s);
    UnbindRegistry(st.registry, BoundMarks(st.sessions), Names(st.sessions), s);
    ActiveNoDup(st.registry, BoundMarks(st.sessions), Names(st.sessions));
    UnboundParts(st, s, at');
    var y := UnboundSession(x);
    var st' := UnboundState(st, s, at');
    UnboundLinks(x);
    UnboundTables(st, st', s, y);
    PlainRoused(st, st');
    ControlAlert(st, st', s, y);
    UnboundOperation(st, st', s, y);
    ControlInv(st, st', s, y);
  }

  lemma UnboundOperation(st: State, st': State, s: nat, y: Session)
    requires OperationInv(st) && s < |st.sessions| && st'.sessions == st.sessions[s := y] && NoDup(st.registry.active)
    requires y.core.stopping == st.sessions[s].core.stopping && s == st.control.session
    requires (st.control.at == FailUnbind && st'.control.at == FailClear) || (st.control.at == ReapUnbind && st'.control.at == ReapRetire)
    requires st'.control == st.control.(at := st'.control.at) && st'.registry.active == Remove(st.registry.active, s)
    requires st'.dispatcher == st.dispatcher && st'.stopping == st.stopping && st'.retired == st.retired
    ensures OperationInv(st')
  {
    hide CancelInv, HaltInv, Remove, NoDup;
    OperationParts(st);
    MarksKept(st.sessions, s, y);
    UnboundCancel(st.control, st'.control.at, st.registry.active, StopMarks(st.sessions));
    HaltFar(st.control, st'.control, st.dispatcher.round, st.stopping, st.registry.active, st.retired,
            st'.registry.active, st.retired);
    OperationOf(st');
  }

  // ----- retiring -----

  function RetiredSession(x: Session): Session {
    x.(core := x.core.(retired := true))
  }

  function RetiredState(st: State, s: nat): State
    requires s < |st.sessions|
  {
    st.(sessions := st.sessions[s := RetiredSession(st.sessions[s])], retired := st.retired + [s],
        control := Control(st.control.operation, true, 0, Free))
  }

  lemma RetiredParts(st: State, s: nat)
    requires s < |st.sessions| && s == st.control.session
    ensures var st' := RetiredState(st, s); var y := RetiredSession(st.sessions[s]);
            && LetGo(Retire(st, s)) == st'
            && ControlFrame(st, st', s, y) && st'.sessions == st.sessions[s := y] && Unfreed(st') == st.retired + [s] + Spliced(st)
            && st'.control == Control(st.control.operation, true, 0, Free) && st'.pending == st.pending && st'.ready == st.ready
            && st'.retired == st.retired + [s] && st'.notifiers == st.notifiers && st'.stopping == st.stopping
            && st'.waiters == st.waiters && st'.bufferBytes == st.bufferBytes && st'.registry == st.registry
            && st'.dispatcher == st.dispatcher
  {
  }

  lemma RetiredLinks(x: Session)
    ensures var y := RetiredSession(x);
            && SameNotices(x, y) && y.core.stopping == x.core.stopping && y.core.readyQueued == x.core.readyQueued
            && y.waitQueued == x.waitQueued && y.core.retired && y.core.freed == x.core.freed
            && y.core.bound == x.core.bound && y.name == x.name && Holding(y) == Holding(x)
  {
  }

  lemma UnfreedIs(st: State)
    ensures Unfreed(st) == st.retired + Spliced(st)
  {
  }

  lemma RetiredTables(st: State, st': State, s: nat, y: Session)
    requires TablesInv(st) && s < |st.sessions| && !st.sessions[s].core.retired && !st.sessions[s].core.freed
    requires y == RetiredSession(st.sessions[s])
    requires st'.sessions == st.sessions[s := y] && Unfreed(st') == st.retired + [s] + Spliced(st) && st'.ready == st.ready
    requires st'.waiters == st.waiters && st'.bufferBytes == st.bufferBytes && st'.registry == st.registry
    ensures TablesInv(st')
  {
    hide *;
    TablesParts(st);
    UnfreedIs(st);
    RetiredLinks(st.sessions[s]);
    MarksAt(st.sessions, s);
    MarksUpdate(st.sessions, s, y);
    MarksKept(st.sessions, s, y);
    HeldCountUpdate(st.sessions, s, y);
    MarkInsert(st.retired, Spliced(st), RetiredMarks(st.sessions), s);
    TablesOf(st');
  }

  lemma RetiredCancel(o: Control, active: seq<nat>, stops: seq<bool>)
    requires CancelInv(o, active, stops) && (o.at == FailRetire || o.at == ReapRetire)
    ensures CancelInv(Control(o.operation, true, 0, Free), active, stops)
  {
  }

  lemma RetireStep(st: State, s: nat, x: Session, at: ControlAt)
    requires Working(st, s, x, at) && (at == FailRetire || at == ReapRetire)
    ensures Inv(LetGo(Retire(st, s)))
  {
    hide *;
    WorkingParts(st, s, x, at);
    SessionParts(x, DispatchOf(st, s), at);
    Retired(x.core, DutyOf(DispatchOf(st, s)), at, DueOf(x).inLock, BothDone(x));
    Calm(x.core, at, x.core.(retired := true), Free, DueOf(x).marked);
    ControlMoves(x, x.core.(retired := true), DispatchOf(st, s), at, Free);
    RetiredIs(x);
    RetiredParts(st, s);
    var y := RetiredSession(x);
    var st' := RetiredState(st, s);
    RetiredLinks(x);
    RetiredTables(st, st', s, y);
    WakeRoused(st, st');
    ControlAlert(st, st', s, y);
    OperationParts(st);
    MarksKept(st.sessions, s, y);
    RetiredCancel(st.control, st.registry.active, StopMarks(st.sessions));
    HaltFar(st.control, st'.control, st.dispatcher.round, st.stopping, st.registry.active, st.retired, st.registry.active, st'.retired);
    OperationOf(st');
    ControlInv(st, st', s, y);
  }

  lemma RetiredIs(x: Session)
    ensures RetiredSession(x) == x.(core := x.core.(retired := true))
  {
  }
}

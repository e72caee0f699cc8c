/** Every step of the world keeps the invariant. */
module BridgeWorld {
  import opened Lanes
  import opened BridgeState
  import opened BridgeSteps
  import opened BridgeInvariant
  import opened BridgeNotices
  import opened BridgeFrames
  import opened BridgeHandling
  import opened BridgeFinishing

  /** Nothing the dispatcher waits for is lost. */
  predicate Heard(st: State, x: Session, y: Session, pending: bool, notifiers: nat) {
    && (st.pending ==> pending) && (st.notifiers > 0 ==> notifiers > 0 || pending)
    && (y.events != multiset{} ==> x.events != multiset{} || notifiers > 0 || pending)
  }

  ghost predicate AddedKept(x: Session, y: Session, pending: bool) {
    HasStage(x, Added) ==> HasStage(y, Added) || pending
  }

  lemma WorldAlert(st: State, st': State, s: nat, y: Session)
    requires Alert(st) && s < |st.sessions| && st'.sessions == st.sessions[s := y]
    requires Heard(st, st.sessions[s], y, st'.pending, st'.notifiers) && AddedKept(st.sessions[s], y, st'.pending)
    requires st'.ready == st.ready && st'.retired == st.retired && st'.control == st.control
    requires st'.dispatcher.round == st.dispatcher.round
    ensures Alert(st')
  {
    hide ControlWakes, Looking, WillPoll;
    if !st'.pending {
      if HasAdded(st.sessions) {
        var t :| 0 <= t < |st.sessions| && HasStage(st.sessions[t], Added);
        assert HasStage(st'.sessions[t], Added);
      }
      if HasEvents(st') && !HasEvents(st) {
        var t :| 0 <= t < |st'.sessions| && st'.sessions[t].events != multiset{};
        assert t == s;
      }
    }
  }

  predicate WorldLinks(x: Session, y: Session) {
    SameLinks(x, y) && y.core.readyQueued == x.core.readyQueued && y.core.stopping == x.core.stopping
  }

  lemma WorldLinksParts(x: Session, y: Session)
    requires WorldLinks(x, y)
    ensures SameLinks(x, y) && y.core.readyQueued == x.core.readyQueued && y.core.stopping == x.core.stopping
  {
  }

  function WorldState(st: State, s: nat, y: Session, pending: bool, notifiers: nat): State
    requires s < |st.sessions|
  {
    Put(st, s, y).(pending := pending, notifiers := notifiers)
  }

  lemma WorldParts(st: State, s: nat, y: Session, pending: bool, notifiers: nat)
    requires s < |st.sessions|
    ensures var st' := WorldState(st, s, y, pending, notifiers);
            && st'.sessions == st.sessions[s := y] && st'.pending == pending && st'.notifiers == notifiers
            && st'.ready == st.ready && st'.retired == st.retired && st'.control == st.control && st'.dispatcher == st.dispatcher
            && st'.registry == st.registry && st'.stopping == st.stopping && SameLists(st, st')
            && st'.waiters == st.waiters && st'.bufferBytes == st.bufferBytes
  {
  }

  lemma SameScarcity(st: State, st': State)
    requires ScarceInv(st) && st'.waiters == st.waiters && st'.bufferBytes == st.bufferBytes && st'.dispatcher == st.dispatcher
    ensures ScarceInv(st')
  {
  }

  /** A step of the world on one session that moves no list. */
  lemma WorldInv(st: State, s: nat, y: Session, pending: bool, notifiers: nat)
    requires Inv(st) && s < |st.sessions| && WorldLinks(st.sessions[s], y)
    requires SessionInv(y, DispatchOf(st, s), ControlOf(st, s))
    requires Heard(st, st.sessions[s], y, pending, notifiers) && AddedKept(st.sessions[s], y, pending)
    ensures Inv(WorldState(st, s, y, pending, notifiers))
  {
    hide *;
    var st' := WorldState(st, s, y, pending, notifiers);
    InvParts(st);
    WorldParts(st, s, y, pending, notifiers);
    WorldLinksParts(st.sessions[s], y);
    Unmoved(st, st', s);
    FrameSessions(st, st', s, y);
    ReadyKept(st, s, y);
    FrameTables(st, st', s, y);
    SameScarcity(st, st');
    SameSeats(st, st');
    WorldAlert(st, st', s, y);
    FrameOperation(st, st', s, y);
    InvOf(st');
  }

  // ----- sockets and their announcements -----

  lemma CallNotices(st: State, x: Session, x': Session, readable: bool, writable: bool)
    requires PublicChange(x, x', readable, writable)
    ensures var y := Call(x', readable, writable);
            WorldLinks(x, y) && AddedKept(x, y, st.pending) && Heard(st, x, y, st.pending, st.notifiers)
  {
    var y := Call(x', readable, writable);
    assert forall a :: a in x.callbacks ==> a in y.callbacks;
  }

  lemma PlainPut(st: State, s: nat, y: Session)
    requires s < |st.sessions|
    ensures WorldState(st, s, y, st.pending, st.notifiers) == Put(st, s, y)
  {
  }

  lemma PostNotices(st: State, x: Session, x': Session, e: HostEvent)
    requires HostChange(x, x', e)
    ensures var y := Posted(x', e);
            WorldLinks(x, y) && AddedKept(x, y, st.pending) && Heard(st, x, y, st.pending, st.notifiers + 1)
  {
  }

  lemma PostIs(st: State, s: nat, x': Session, e: HostEvent)
    requires s < |st.sessions|
    ensures WorldState(st, s, Posted(x', e), st.pending, st.notifiers + 1) == PostTo(st, s, x', e)
  {
  }

  // ----- callbacks -----

  lemma EnterNotices(st: State, x: Session, a: Callback)
    requires a in x.callbacks && a.stage == Coming
    ensures var y := if x.core.callbacksInstalled then Move(x, a, Entered) else Leave(x, a);
            WorldLinks(x, y) && AddedKept(x, y, st.pending) && Heard(st, x, y, st.pending, st.notifiers)
  {
    var y := if x.core.callbacksInstalled then Move(x, a, Entered) else Leave(x, a);
    assert forall b :: b in x.callbacks && b != a ==> b in y.callbacks;
  }

  lemma MarkNotices(st: State, x: Session, a: Callback)
    requires a in x.callbacks && a.stage == Entered
    ensures var y := MarkedSession(x, a);
            WorldLinks(x, y) && AddedKept(x, y, st.pending) && Heard(st, x, y, st.pending, st.notifiers)
  {
    var y := MarkedSession(x, a);
    MarkedLinks(x, a);
    hide MarkedSession, SameLinks;
  }

  lemma MarkedLinks(x: Session, a: Callback)
    requires a in x.callbacks
    ensures var y := MarkedSession(x, a);
            && SameLinks(x, y) && y.core == x.core && y.events == x.events
            && (forall b :: b in x.callbacks && b != a ==> b in y.callbacks)
  {
  }

  lemma WakeNotices(st: State, x: Session, a: Callback)
    ensures var y := Leave(x, a); WorldLinks(x, y) && AddedKept(x, y, true) && Heard(st, x, y, true, st.notifiers)
  {
  }

  lemma WakeIs(st: State, s: nat, y: Session)
    requires s < |st.sessions|
    ensures WorldState(st, s, y, true, st.notifiers) == Put(st, s, y).(pending := true)
  {
  }

  lemma CallbackHandled(st: State, e: Event)
    requires CanHappen(st, e) && (e.Enter? || e.Mark? || e.Wake?)
    ensures var x := st.sessions[e.s];
            && e.c in x.callbacks && e.c.stage == (if e.Enter? then Coming else if e.Mark? then Entered else Added)
            && (e.Enter? ==> Happen(st, e) == Put(st, e.s, if x.core.callbacksInstalled then Move(x, e.c, Entered) else Leave(x, e.c)))
            && (e.Mark? ==> Happen(st, e) == Put(st, e.s, MarkedSession(x, e.c)))
            && (e.Wake? ==> Happen(st, e) == Put(st, e.s, Leave(x, e.c)).(pending := true))
  {
    hide Move, Leave;
  }

  lemma CallbackStep(st: State, e: Event)
    requires Inv(st) && CanHappen(st, e) && (e.Enter? || e.Mark? || e.Wake?) && e.s < |st.sessions|
    ensures Inv(Happen(st, e))
  {
    hide *;
    var s, a := e.s, e.c;
    var x := st.sessions[s];
    CallbackHandled(st, e);
    SessionAt(st, s);
    if e.Wake? {
      WakeSession(x, a, DispatchOf(st, s), ControlOf(st, s));
      WakeNotices(st, x, a);
      WorldInv(st, s, Leave(x, a), true, st.notifiers);
      WakeIs(st, s, Leave(x, a));
    } else if e.Mark? {
      MarkSession(x, a, DispatchOf(st, s), ControlOf(st, s));
      MarkNotices(st, x, a);
      WorldInv(st, s, MarkedSession(x, a), st.pending, st.notifiers);
      PlainPut(st, s, MarkedSession(x, a));
    } else {
      var y := if x.core.callbacksInstalled then Move(x, a, Entered) else Leave(x, a);
      EnterSession(x, a, DispatchOf(st, s), ControlOf(st, s));
      EnterNotices(st, x, a);
      WorldInv(st, s, y, st.pending, st.notifiers);
      PlainPut(st, s, y);
    }
  }

  // ----- a callback queues its session -----

  function AddedState(st: State, s: nat, a: Callback): State
    requires s < |st.sessions|
  {
    st.(sessions := st.sessions[s := AddedSession(st.sessions[s], a)],
        ready := Enqueued(st.ready, s, st.sessions[s].core.readyQueued))
  }

  lemma AddedLinks(x: Session, a: Callback)
    requires a in x.callbacks
    ensures var y := AddedSession(x, a);
            && SameLinks(x, y) && y.core.readyQueued && y.core.stopping == x.core.stopping && y.events == x.events
            && HasStage(y, Added)
  {
    var y := AddedSession(x, a);
    assert a.(stage := Added) in y.callbacks;
  }

  lemma AddedParts(st: State, s: nat, a: Callback)
    requires s < |st.sessions|
    ensures var st' := AddedState(st, s, a);
            && st'.sessions == st.sessions[s := AddedSession(st.sessions[s], a)]
            && st'.ready == Enqueued(st.ready, s, st.sessions[s].core.readyQueued)
            && st'.pending == st.pending && st'.notifiers == st.notifiers
            && st'.retired == st.retired && st'.control == st.control && st'.dispatcher == st.dispatcher
            && st'.registry == st.registry && st'.stopping == st.stopping && SameLists(st, st')
            && st'.waiters == st.waiters && st'.bufferBytes == st.bufferBytes
  {
    hide Enqueued, AddedSession;
  }

  lemma AddedAlert(st: State, s: nat, a: Callback)
    requires Alert(st) && s < |st.sessions| && a in st.sessions[s].callbacks
    ensures Alert(AddedState(st, s, a))
  {
    hide ControlWakes, Looking, WillPoll, AddedSession, HasStage, SameLinks, Enqueued;
    var st' := AddedState(st, s, a);
    AddedLinks(st.sessions[s], a);
    assert HasAdded(st'.sessions) by { assert HasStage(st'.sessions[s], Added); }
    if HasEvents(st') {
      var t :| 0 <= t < |st'.sessions| && st'.sessions[t].events != multiset{};
      assert st.sessions[t].events != multiset{};
    }
  }

  lemma AddStep(st: State, s: nat, a: Callback)
    requires Inv(st) && s < |st.sessions| && a in st.sessions[s].callbacks && a.stage == Marked
    ensures Inv(QueueAdd(Put(st, s, Move(st.sessions[s], a, Added)), s))
  {
    hide *;
    var x := st.sessions[s];
    var y := AddedSession(x, a);
    var st' := AddedState(st, s, a);
    InvParts(st);
    SessionAt(st, s);
    AddSession(x, a, DispatchOf(st, s), ControlOf(st, s));
    AddIs(st, s, a);
    AddedParts(st, s, a);
    AddedLinks(x, a);
    Unmoved(st, st', s);
    FrameSessions(st, st', s, y);
    ReadyAdded(st, s, y);
    FrameTables(st, st', s, y);
    SameScarcity(st, st');
    SameSeats(st, st');
    AddedAlert(st, s, a);
    FrameOperation(st, st', s, y);
    InvOf(st');
  }

  lemma AddIs(st: State, s: nat, a: Callback)
    requires s < |st.sessions| && st.sessions[s].core.inUse
    ensures QueueAdd(Put(st, s, Move(st.sessions[s], a, Added)), s) == AddedState(st, s, a)
  {
    var x := st.sessions[s];
    var moved := Put(st, s, Move(x, a, Added));
    assert moved.sessions[s] == Move(x, a, Added) && Move(x, a, Added).core == x.core;
    hide QueueAdd, Enqueued;
    QueueAddIs(moved, s);
    UpdateTwice(st.sessions, s, Move(x, a, Added), AddedSession(x, a));
  }

  lemma NotifyStep(st: State)
    requires Inv(st) && st.notifiers > 0
    ensures Inv(st.(notifiers := st.notifiers - 1, pending := true))
  {
    hide Inv, SessionsInv, TablesInv, ScarceInv, PositionInv, Alert, OperationInv;
    var st' := st.(notifiers := st.notifiers - 1, pending := true);
    InvParts(st);
    NotifySame(st, st');
    PendingAlert(st');
    InvOf(st');
  }

  lemma NotifySame(st: State, st': State)
    requires SessionsInv(st) && TablesInv(st) && ScarceInv(st) && PositionInv(st) && OperationInv(st)
    requires st' == st.(notifiers := st'.notifiers, pending := st'.pending)
    ensures SessionsInv(st') && TablesInv(st') && ScarceInv(st') && PositionInv(st') && OperationInv(st')
  {
    hide SessionInv, Mirrors, RegistryInv, BudgetInv, CancelInv, HaltInv;
    assert forall t :: DispatchOf(st', t) == DispatchOf(st, t) && ControlOf(st', t) == ControlOf(st, t);
    forall t: nat | t < |st'.sessions| ensures SessionOk(st', t) {
      assert SessionOk(st, t);
    }
  }

  // ----- all cases -----

  lemma InputCase(x: Session, other: bool)
    ensures PublicChange(x, x.(toBackend := x.toBackend.(input := true)), true, other)
  {
  }

  lemma RoomCase(x: Session, other: bool)
    ensures PublicChange(x, x.(toPublic := x.toPublic.(room := true)), other, true)
  {
  }

  lemma CloseCase(x: Session)
    ensures PublicChange(x, x.(publicClosed := true), true, true)
  {
  }

  lemma HostCases(x: Session, other: bool)
    ensures HostChange(x, x.(toPublic := x.toPublic.(input := true)), HostEvent(!other, false, other, false))
    ensures HostChange(x, x.(toBackend := x.toBackend.(room := true)), HostEvent(false, !other, other, false))
  {
  }

  lemma NoChange(x: Session, readable: bool, writable: bool, e: HostEvent)
    ensures PublicChange(x, x, readable, writable) && HostChange(x, x, e)
  {
  }

  /** What a socket does, and what it announces. */
  function SocketChange(x: Session, e: Event): Session {
    match e
    case Input(_, way, _) => if way == ToBackend then x.(toBackend := x.toBackend.(input := true)) else x.(toPublic := x.toPublic.(input := true))
    case Room(_, way, _) => if way == ToBackend then x.(toBackend := x.toBackend.(room := true)) else x.(toPublic := x.toPublic.(room := true))
    case Close(_) => x.(publicClosed := true)
    case _ => x
  }

  predicate ByHost(e: Event) {
    (e.Input? && e.way == ToPublic) || (e.Room? && e.way == ToBackend) || e.Post?
  }

  function HostNotice(e: Event): HostEvent {
    match e
    case Input(_, _, other) => HostEvent(!other, false, other, false)
    case Room(_, _, other) => HostEvent(false, !other, other, false)
    case Post(_, posted) => posted
    case _ => HostEvent(false, false, false, false)
  }

  lemma SocketHandled(st: State, e: Event)
    requires CanHappen(st, e) && (e.Input? || e.Room? || e.Close? || e.Knock? || e.Post?)
    ensures var x := st.sessions[e.s]; var x' := SocketChange(x, e);
            && (ByHost(e) ==> HostChange(x, x', HostNotice(e)) && Happen(st, e) == PostTo(st, e.s, x', HostNotice(e)))
            && (!ByHost(e) ==>
                  var readable, writable := if e.Room? then e.other else if e.Knock? then e.readable else true,
                                            if e.Input? then e.other else if e.Knock? then e.writable else true;
                  PublicChange(x, x', readable, writable) && Happen(st, e) == Put(st, e.s, Call(x', readable, writable)))
  {
    var x := st.sessions[e.s];
    match e
    case Input(_, _, other) => InputCase(x, other); HostCases(x, other);
    case Room(_, _, other) => RoomCase(x, other); HostCases(x, other);
    case Close(_) => CloseCase(x);
    case Knock(_, readable, writable) => NoChange(x, readable, writable, HostEvent(false, false, false, false));
    case Post(_, posted) => NoChange(x, false, false, posted);
    hide PublicChange, HostChange, Call, PostTo, Put;
  }

  lemma SocketStep(st: State, e: Event)
    requires Inv(st) && CanHappen(st, e) && (e.Input? || e.Room? || e.Close? || e.Knock? || e.Post?) && e.s < |st.sessions|
    ensures Inv(Happen(st, e))
  {
    hide *;
    var s := e.s;
    var x := st.sessions[s];
    var x', d, c := SocketChange(x, e), DispatchOf(st, s), ControlOf(st, s);
    SocketHandled(st, e);
    SessionAt(st, s);
    if ByHost(e) {
      var notice := HostNotice(e);
      PostSession(x, x', notice, d, c);
      PostNotices(st, x, x', notice);
      WorldInv(st, s, Posted(x', notice), st.pending, st.notifiers + 1);
      PostIs(st, s, x', notice);
    } else {
      var readable, writable := if e.Room? then e.other else if e.Knock? then e.readable else true,
                                if e.Input? then e.other else if e.Knock? then e.writable else true;
      CallSession(x, x', readable, writable, d, c);
      CallNotices(st, x, x', readable, writable);
      WorldInv(st, s, Call(x', readable, writable), st.pending, st.notifiers);
      PlainPut(st, s, Call(x', readable, writable));
    }
  }

  lemma HappenPlaces(st: State, e: Event)
    requires CanHappen(st, e)
    ensures e.Notify? || e.s < |st.sessions|
    ensures e.Notify? ==> st.notifiers > 0 && Happen(st, e) == st.(notifiers := st.notifiers - 1, pending := true)
    ensures e.Add? ==> e.c in st.sessions[e.s].callbacks && e.c.stage == Marked && Happen(st, e) == QueueAdd(Put(st, e.s, Move(st.sessions[e.s], e.c, Added)), e.s)
  {
    hide Move, QueueAdd;
  }

  lemma HappenKeeps(st: State, e: Event)
    requires Inv(st) && CanHappen(st, e)
    ensures Inv(Happen(st, e))
  {
    hide *;
    HappenPlaces(st, e);
    if e.Notify? {
      NotifyStep(st);
    } else if e.Add? {
      AddStep(st, e.s, e.c);
    } else if e.Enter? || e.Mark? || e.Wake? {
      CallbackStep(st, e);
    } else {
      SocketStep(st, e);
    }
  }
}

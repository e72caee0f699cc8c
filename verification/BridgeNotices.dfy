/** The invariant of one session under the world's steps: what each step does to
    the notifications under way, and what follows. */
module BridgeNotices {
  import opened BridgeState
  import opened BridgeSteps
  import opened BridgeInvariant
  import opened BridgeWorldProofs

  // ----- what is due after a step -----

  predicate CallsFor(due: Due, readable: bool, writable: bool) {
    && (readable ==> due.readCall) && (writable ==> due.writeCall) && (readable && writable ==> due.closeCall)
  }

  lemma CallDue(x: Session, readable: bool, writable: bool)
    ensures var due, due' := DueOf(x), DueOf(Call(x, readable, writable));
            && Announces(due, due') && CallsFor(due', readable, writable)
            && due'.marked == due.marked && due'.inLock == due.inLock
  {
    var c := Callback(Coming, readable, writable);
    var y := Call(x, readable, writable);
    assert c in y.callbacks && Early(c);
    assert forall a :: a in x.callbacks ==> a in y.callbacks;
    assert forall a :: a in y.callbacks && a != c ==> a in x.callbacks;
  }

  predicate EventsFor(due: Due, e: HostEvent) {
    (e.readable || e.hangup ==> due.readEvent) && (e.writable || e.hangup ==> due.writeEvent)
  }

  lemma PostDue(x: Session, e: HostEvent)
    ensures var due, due' := DueOf(x), DueOf(x.(events := x.events + multiset{e}));
            && Announces(due, due') && EventsFor(due', e)
            && due'.marked == due.marked && due'.inLock == due.inLock
  {
    var y := x.(events := x.events + multiset{e});
    assert e in y.events;
    assert forall a :: a in x.events ==> a in y.events;
  }

  lemma PopDue(x: Session, e: HostEvent)
    requires e in x.events
    ensures Popped(DueOf(x), DueOf(x.(events := x.events - multiset{e})), e.readable || e.hangup, e.writable || e.hangup)
  {
    var y := x.(events := x.events - multiset{e});
    assert forall a :: a in x.events && a != e ==> a in y.events;
    assert forall a :: a in y.events ==> a in x.events;
  }

  lemma MoveMembers(x: Session, c: Callback, stage: Stage)
    requires c in x.callbacks
    ensures c.(stage := stage) in Move(x, c, stage).callbacks
    ensures forall a :: a in x.callbacks && a != c ==> a in Move(x, c, stage).callbacks
    ensures forall a :: a in Move(x, c, stage).callbacks && a != c.(stage := stage) ==> a in x.callbacks
  {
  }

  lemma EnterDue(x: Session, c: Callback)
    requires c in x.callbacks && c.stage == Coming
    ensures var due, due' := DueOf(x), DueOf(Move(x, c, Entered));
            Announces(due, due') && due'.marked == due.marked
  {
    hide Move;
    MoveMembers(x, c, Entered);
    MoveEvents(x, c, Entered);
    assert Early(c.(stage := Entered));
  }

  lemma MoveEvents(x: Session, c: Callback, stage: Stage)
    ensures Move(x, c, stage).events == x.events
  {
  }

  lemma MarkDue(x: Session, c: Callback)
    requires c in x.callbacks && c.stage == Entered
    ensures var due, due' := DueOf(x), DueOf(Move(x, c, Marked));
            MarkedDue(due, due', c.readable, c.writable) && due'.inLock && due.inLock
  {
    hide Move;
    MoveMembers(x, c, Marked);
    MoveEvents(x, c, Marked);
    assert c.(stage := Marked) in Move(x, c, Marked).callbacks;
  }

  lemma AddDue(x: Session, c: Callback)
    requires c in x.callbacks && c.stage == Marked
    ensures var due, due' := DueOf(x), DueOf(Move(x, c, Added));
            Announces(due, due') && due'.inLock && due.inLock
  {
    hide Move;
    MoveMembers(x, c, Added);
    MoveEvents(x, c, Added);
    assert c.(stage := Added) in Move(x, c, Added).callbacks;
  }

  lemma LeaveDue(x: Session, c: Callback)
    requires c in x.callbacks
    ensures var due, due' := DueOf(x), DueOf(Leave(x, c));
            && (due'.inLock ==> due.inLock)
            && (c.stage == Added ==> Announces(due, due') && due'.marked == due.marked)
  {
    var y := Leave(x, c);
    assert forall a :: a in y.callbacks ==> a in x.callbacks;
    assert forall a :: a in x.callbacks && a != c ==> a in y.callbacks;
  }

  // ----- the session after a step -----

  lemma SameDue(x: Session, y: Session)
    requires y.callbacks == x.callbacks && y.events == x.events
    ensures DueOf(y) == DueOf(x)
  {
  }

  lemma SessionOf(x: Session, y: Session, d: DispatchAt, c: ControlAt)
    requires Local(x, d, c, DueOf(y)) && y == x.(callbacks := y.callbacks, events := y.events)
    ensures SessionInv(y, d, c)
  {
    hide Local, DueOf;
    LocalIgnores(x, y.callbacks, y.events, d, c, DueOf(y));
  }

  /** A change of the public socket that a callback with these flags announces. */
  predicate PublicChange(x: Session, x': Session, readable: bool, writable: bool) {
    && x' == x.(toBackend := x.toBackend.(input := x'.toBackend.input), toPublic := x.toPublic.(room := x'.toPublic.room),
                publicClosed := x'.publicClosed)
    && (x'.toBackend.input ==> x.toBackend.input || readable)
    && (x'.toPublic.room ==> x.toPublic.room || writable)
    && (x'.publicClosed ==> x.publicClosed || (readable && writable))
  }

  lemma PublicChanges(x: Session, x': Session, readable: bool, writable: bool, due: Due)
    requires PublicChange(x, x', readable, writable) && CallsFor(due, readable, writable)
    ensures SocketChange(x, x', due) && x'.callbacks == x.callbacks && x'.events == x.events
  {
  }

  lemma CallParts(x: Session, readable: bool, writable: bool)
    ensures var y := Call(x, readable, writable); y == x.(callbacks := y.callbacks, events := y.events)
  {
  }

  lemma CallSession(x: Session, x': Session, readable: bool, writable: bool, d: DispatchAt, c: ControlAt)
    requires SessionInv(x, d, c) && PublicChange(x, x', readable, writable)
    ensures SessionInv(Call(x', readable, writable), d, c)
  {
    hide Local, DueOf, Call, PublicChange, SocketChange, Announces, CallsFor;
    var y := Call(x', readable, writable);
    CallDue(x', readable, writable);
    PublicChanges(x, x', readable, writable, DueOf(y));
    SameDue(x, x');
    SocketLocal(x, x', d, c, DueOf(x), DueOf(y));
    CallParts(x', readable, writable);
    SessionOf(x', y, d, c);
  }

  /** A change of the host socket that the event announces. */
  predicate HostChange(x: Session, x': Session, e: HostEvent) {
    && x' == x.(toBackend := x.toBackend.(room := x'.toBackend.room), toPublic := x.toPublic.(input := x'.toPublic.input))
    && (x'.toPublic.input ==> x.toPublic.input || e.readable || e.hangup)
    && (x'.toBackend.room ==> x.toBackend.room || e.writable || e.hangup)
  }

  lemma HostChanges(x: Session, x': Session, e: HostEvent, due: Due)
    requires HostChange(x, x', e) && EventsFor(due, e)
    ensures SocketChange(x, x', due) && x'.callbacks == x.callbacks && x'.events == x.events
  {
  }

  function Posted(x: Session, e: HostEvent): Session {
    x.(events := x.events + multiset{e})
  }

  lemma PostedParts(x: Session, e: HostEvent)
    ensures var y := Posted(x, e); y == x.(callbacks := y.callbacks, events := y.events)
  {
  }

  lemma PostSession(x: Session, x': Session, e: HostEvent, d: DispatchAt, c: ControlAt)
    requires SessionInv(x, d, c) && HostChange(x, x', e)
    ensures SessionInv(Posted(x', e), d, c)
  {
    hide Local, DueOf, HostChange, SocketChange, Announces, EventsFor;
    var y := Posted(x', e);
    PostDue(x', e);
    HostChanges(x, x', e, DueOf(y));
    SameDue(x, x');
    SocketLocal(x, x', d, c, DueOf(x), DueOf(y));
    hide Posted;
    PostedParts(x', e);
    SessionOf(x', y, d, c);
  }

  lemma StillSocket(x: Session, due: Due)
    ensures SocketChange(x, x, due)
  {
  }

  /** The session only gained notifications, or callbacks inside the lock. */
  lemma NewsSession(x: Session, y: Session, d: DispatchAt, c: ControlAt)
    requires SessionInv(x, d, c) && y == x.(callbacks := y.callbacks, events := y.events)
    requires Announces(DueOf(x), DueOf(y)) && DueOf(y).marked == DueOf(x).marked
    requires DueOf(y).inLock ==> DueOf(x).inLock || x.core.callbacksInstalled
    ensures SessionInv(y, d, c)
  {
    hide Local, DueOf, SocketChange, Announces;
    StillSocket(x, DueOf(y));
    SocketLocal(x, x, d, c, DueOf(x), DueOf(y));
    SessionOf(x, y, d, c);
  }

  /** The session does not run. */
  lemma UnmovedSession(x: Session, y: Session, d: DispatchAt, c: ControlAt)
    requires SessionInv(x, d, c) && y == x.(callbacks := y.callbacks, events := y.events) && !x.core.running
    requires DueOf(y).inLock ==> DueOf(x).inLock || x.core.callbacksInstalled
    ensures SessionInv(y, d, c)
  {
    hide Local, DueOf;
    LocalUnmoved(x, d, c, DueOf(x), DueOf(y));
    SessionOf(x, y, d, c);
  }

  lemma MoveParts(x: Session, a: Callback, stage: Stage)
    ensures var y := Move(x, a, stage); y == x.(callbacks := y.callbacks, events := y.events)
    ensures var y := Leave(x, a); y == x.(callbacks := y.callbacks, events := y.events)
  {
  }

  lemma RunningInstalled(x: Session, d: DispatchAt, c: ControlAt)
    requires SessionInv(x, d, c)
    ensures x.core.running ==> x.core.inUse && x.core.callbacksInstalled && x.core.acceptEvents && x.core.bound
  {
    hide Flow, Marks, Completion, References, Stops, DueOf, DutyOf;
  }

  lemma EnterSession(x: Session, a: Callback, d: DispatchAt, c: ControlAt)
    requires SessionInv(x, d, c) && a in x.callbacks && a.stage == Coming
    ensures SessionInv(if x.core.callbacksInstalled then Move(x, a, Entered) else Leave(x, a), d, c)
  {
    hide SessionInv, DueOf, Move, Leave, Announces;
    MoveParts(x, a, Entered);
    RunningInstalled(x, d, c);
    if x.core.callbacksInstalled {
      EnterDue(x, a);
      NewsSession(x, Move(x, a, Entered), d, c);
    } else {
      LeaveDue(x, a);
      UnmovedSession(x, Leave(x, a), d, c);
    }
  }

  function MarkedSession(x: Session, a: Callback): Session {
    if !x.core.inUse then Leave(x, a)
    else Move(x, a, Marked).(
      toBackend := if a.readable then x.toBackend.(readable := true) else x.toBackend,
      toPublic := if a.writable then x.toPublic.(writable := true) else x.toPublic)
  }

  lemma MarkedSessionParts(x: Session, a: Callback)
    requires x.core.inUse
    ensures var x', y := PublicMarked(x, a.readable, a.writable), MarkedSession(x, a);
            && y == x'.(callbacks := y.callbacks, events := y.events)
            && y.callbacks == Move(x, a, Marked).callbacks && y.events == Move(x, a, Marked).events
  {
  }

  lemma MarkSession(x: Session, a: Callback, d: DispatchAt, c: ControlAt)
    requires SessionInv(x, d, c) && a in x.callbacks && a.stage == Entered
    ensures SessionInv(MarkedSession(x, a), d, c)
  {
    hide Local, DueOf, Move, Leave, MarkedDue, PublicMarked;
    if x.core.inUse {
      MarkDue(x, a);
      MarkLocal(x, a.readable, a.writable, d, c, DueOf(x), DueOf(Move(x, a, Marked)));
      MarkedSessionParts(x, a);
      hide MarkedSession;
      SameDue(Move(x, a, Marked), MarkedSession(x, a));
      SessionOf(PublicMarked(x, a.readable, a.writable), MarkedSession(x, a), d, c);
    } else {
      RunningInstalled(x, d, c);
      MoveParts(x, a, Marked);
      LeaveDue(x, a);
      UnmovedSession(x, Leave(x, a), d, c);
    }
  }

  function AddedSession(x: Session, a: Callback): Session {
    Move(x, a, Added).(core := x.core.(readyQueued := true))
  }

  lemma AddedSessionParts(x: Session, a: Callback)
    ensures var x', y := x.(core := x.core.(readyQueued := true)), AddedSession(x, a);
            && y == x'.(callbacks := y.callbacks, events := y.events)
            && y.callbacks == Move(x, a, Added).callbacks && y.events == Move(x, a, Added).events
  {
  }

  lemma AddSession(x: Session, a: Callback, d: DispatchAt, c: ControlAt)
    requires SessionInv(x, d, c) && a in x.callbacks && a.stage == Marked
    ensures x.core.inUse && SessionInv(AddedSession(x, a), d, c)
  {
    hide Local, DueOf, Move, Announces;
    AddDue(x, a);
    AddLocal(x, d, c, DueOf(x), DueOf(Move(x, a, Added)));
    AddedSessionParts(x, a);
    hide AddedSession;
    SameDue(Move(x, a, Added), AddedSession(x, a));
    SessionOf(x.(core := x.core.(readyQueued := true)), AddedSession(x, a), d, c);
  }

  lemma WakeSession(x: Session, a: Callback, d: DispatchAt, c: ControlAt)
    requires SessionInv(x, d, c) && a in x.callbacks && a.stage == Added
    ensures SessionInv(Leave(x, a), d, c)
  {
    hide SessionInv, DueOf, Leave, Announces, Move;
    MoveParts(x, a, Added);
    LeaveDue(x, a);
    NewsSession(x, Leave(x, a), d, c);
  }

  function Polled(x: Session, e: HostEvent): Session {
    x.(events := x.events - multiset{e})
  }

  /** An event for a session that does not take it. */
  lemma DropSession(x: Session, e: HostEvent, d: DispatchAt, c: ControlAt)
    requires SessionInv(x, d, c) && e in x.events && !x.core.running
    ensures SessionInv(Polled(x, e), d, c)
  {
    hide SessionInv, DueOf;
    PopDue(x, e);
    UnmovedSession(x, Polled(x, e), d, c);
  }

  lemma DeliverSession(x: Session, e: HostEvent, error: int, c: ControlAt)
    requires SessionInv(x, Nothing, c) && e in x.events && x.core.inUse && x.core.acceptEvents
    ensures SessionInv(Delivery(Polled(x, e), e), DeliveryAt(x, e, error), c)
  {
    hide Local, DueOf;
    PopDue(x, e);
    var due' := DueOf(Polled(x, e));
    if x.core.connecting {
      DeliveryConnecting(x, e, error, c, DueOf(x), due');
    } else {
      DeliveryRunning(x, e, error, c, DueOf(x), due');
    }
    var y := Delivery(Polled(x, e), e);
    SameDue(Polled(x, e), y);
    SessionOf(Delivery(x, e), y, DeliveryAt(x, e, error), c);
  }

  /** An event addressed by an old session with the same token. */
  lemma MisdeliverSession(x: Session, e: HostEvent, error: int, c: ControlAt)
    requires SessionInv(x, Nothing, c) && x.core.inUse && x.core.acceptEvents
    ensures SessionInv(Delivery(x, e), DeliveryAt(x, e, error), c)
  {
    hide Local, DueOf;
    if x.core.connecting {
      DeliveryConnecting(x, e, error, c, DueOf(x), DueOf(x));
    } else {
      DeliveryRunning(x, e, error, c, DueOf(x), DueOf(x));
    }
    SameDue(x, Delivery(x, e));
  }
}

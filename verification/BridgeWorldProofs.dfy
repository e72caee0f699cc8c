/** The invariant of one session under notifications: sockets, callbacks, host
    events, buffer wake-ups. */
module BridgeWorldProofs {
  import opened Lanes
  import opened BridgeState
  import opened BridgeSteps
  import opened BridgeInvariant
  import opened BridgeLaneProofs
  import opened BridgeOwnership
  import opened BridgeSessionProofs
  import opened BridgePumpProofs
  import opened BridgeFinishProofs

  // ----- weakening -----

  /** Nothing under way was lost. */
  predicate Announces(due: Due, due': Due) {
    && (due.readCall ==> due'.readCall) && (due.writeCall ==> due'.writeCall) && (due.closeCall ==> due'.closeCall)
    && (due.readEvent ==> due'.readEvent) && (due.writeEvent ==> due'.writeEvent)
  }

  /** The session did not become quieter. */
  predicate NoQuieter(k: Core, c: ControlAt, marked: bool, k': Core, c': ControlAt, marked': bool) {
    && k'.running == k.running
    && (Quiet(k', c', marked') ==> Quiet(k, c, marked))
    && (Unlisted(k') ==> Unlisted(k))
  }

  lemma LaneWeakens(l: Lane, way: Way, d: DispatchAt, k: Core, k': Core, c: ControlAt, c': ControlAt, due: Due, due': Due)
    requires LaneInv(l, way, d, k, c, due) && NoQuieter(k, c, due.marked, k', c', due'.marked) && Announces(due, due')
    ensures LaneInv(l, way, d, k', c', due')
  {
    hide LaneOk, Quiet, Unlisted;
    Weaken(l, way, d, k.running, Quiet(k, c, due.marked), Unlisted(k), ReadDue(way, due), WriteDue(way, due),
           Quiet(k', c', due'.marked), Unlisted(k'), ReadDue(way, due'), WriteDue(way, due'));
  }

  lemma ClosingWeakens(over: bool, d: DispatchAt, k: Core, k': Core, c: ControlAt, c': ControlAt, due: Due, due': Due)
    requires Closing(over, d, k, c, due) && NoQuieter(k, c, due.marked, k', c', due'.marked) && Announces(due, due')
    ensures Closing(over, d, k', c', due')
  {
    hide Quiet, Unlisted, Attends;
  }

  lemma FlowWeakens(x: Session, k: Core, d: DispatchAt, c: ControlAt, c': ControlAt, due: Due, due': Due)
    requires Flow(x, d, c, due) && NoQuieter(x.core, c, due.marked, k, c', due'.marked) && Announces(due, due')
    ensures Flow(x.(core := k), d, c', due')
  {
    hide *;
    FlowParts(x, d, c, due);
    LaneWeakens(x.toBackend, ToBackend, d, x.core, k, c, c', due, due');
    LaneWeakens(x.toPublic, ToPublic, d, x.core, k, c, c', due, due');
    ClosingWeakens(Over(x), d, x.core, k, c, c', due, due');
    SameOver(x, k);
    FlowOf(x.(core := k), d, c', due');
  }

  lemma SameOver(x: Session, k: Core)
    ensures Over(x.(core := k)) == Over(x)
  {
  }

  lemma LocalWeakens(x: Session, k: Core, d: DispatchAt, c: ControlAt, c': ControlAt, due: Due, due': Due)
    requires Local(x, d, c, due) && NoQuieter(x.core, c, due.marked, k, c', due'.marked) && Announces(due, due')
    requires k.connecting ==> x.core.connecting
    requires Ownership(k, DutyOf(d), c', due'.inLock, BothDone(x))
    ensures Local(x.(core := k), d, c', due')
  {
    hide *;
    LocalParts(x, d, c, due);
    SameMarks(x, k);
    FlowWeakens(x, k, d, c, c', due, due');
    LocalOf(x.(core := k), d, c', due');
  }

  lemma QueuedNoQuieter(k: Core, c: ControlAt, marked: bool, c': ControlAt, marked': bool)
    ensures NoQuieter(k, c, marked, k.(readyQueued := true), c', marked')
  {
    hide Quiet, Unlisted;
    QueuedIsNotQuiet(k.(readyQueued := true), c', marked');
  }

  /** The invariant looks at the notifications only through what is due. */
  lemma LocalIgnores(x: Session, callbacks: multiset<Callback>, events: multiset<HostEvent>, d: DispatchAt, c: ControlAt, due: Due)
    requires Local(x, d, c, due)
    ensures Local(x.(callbacks := callbacks, events := events), d, c, due)
  {
    hide *;
    var y := x.(callbacks := callbacks, events := events);
    LocalParts(x, d, c, due);
    FlowParts(x, d, c, due);
    MarksIgnore(x, callbacks, events);
    FlowOf(y, d, c, due);
    LocalOf(y, d, c, due);
  }

  lemma MarksIgnore(x: Session, callbacks: multiset<Callback>, events: multiset<HostEvent>)
    requires Marks(x)
    ensures var y := x.(callbacks := callbacks, events := events);
            Marks(y) && BothDone(y) == BothDone(x) && Over(y) == Over(x)
  {
    hide Unused;
  }

  /** A session that does not run does not depend on what is under way. */
  lemma LocalUnmoved(x: Session, d: DispatchAt, c: ControlAt, due: Due, due': Due)
    requires Local(x, d, c, due) && !x.core.running && (due'.inLock ==> due.inLock || x.core.callbacksInstalled)
    ensures Local(x, d, c, due')
  {
    hide *;
    LocalParts(x, d, c, due);
    SettledParts(x, d, c, due);
    SettledIgnores(x.toBackend, ToBackend, d, due, due');
    SettledIgnores(x.toPublic, ToPublic, d, due, due');
    SettledFlow(x, d, c, due');
    LockChanges(x.core, DutyOf(d), c, due.inLock, BothDone(x), due'.inLock);
    LocalOf(x, d, c, due');
  }

  lemma SettledIgnores(l: Lane, way: Way, d: DispatchAt, due: Due, due': Due)
    requires Settled(l, way, d, due)
    ensures Settled(l, way, d, due')
  {
    hide Stream, Shape;
  }

  // ----- sockets -----

  predicate SocketsOnly(l: Lane, l': Lane) {
    l' == l.(input := l'.input, room := l'.room)
  }

  lemma SocketLane(l: Lane, l': Lane, way: Way, d: DispatchAt, k: Core, c: ControlAt, due: Due, due': Due)
    requires LaneInv(l, way, d, k, c, due) && Announces(due, due') && due'.marked == due.marked
    requires SocketsOnly(l, l') && (l'.input ==> l.input || ReadDue(way, due')) && (l'.room ==> l.room || WriteDue(way, due'))
    ensures LaneInv(l', way, d, k, c, due')
  {
    hide LaneOk, Quiet, Unlisted;
    Sockets(l, way, d, k.running, Quiet(k, c, due.marked), Unlisted(k), ReadDue(way, due), WriteDue(way, due),
            l'.input, l'.room, ReadDue(way, due'), WriteDue(way, due'));
  }

  lemma SocketClosing(x: Session, x': Session, d: DispatchAt, c: ControlAt, due: Due, due': Due)
    requires Closing(Over(x), d, x.core, c, due) && Announces(due, due') && due'.marked == due.marked
    requires SocketChange(x, x', due')
    ensures Closing(Over(x'), d, x'.core, c, due')
  {
    hide Quiet, Attends, ReadDue, WriteDue;
  }

  /** The sockets of x changed and the change is announced in due. */
  predicate SocketChange(x: Session, x': Session, due: Due) {
    && x' == x.(toBackend := x'.toBackend, toPublic := x'.toPublic, publicClosed := x'.publicClosed)
    && SocketsOnly(x.toBackend, x'.toBackend) && SocketsOnly(x.toPublic, x'.toPublic)
    && (x'.toBackend.input ==> x.toBackend.input || ReadDue(ToBackend, due))
    && (x'.toBackend.room ==> x.toBackend.room || WriteDue(ToBackend, due))
    && (x'.toPublic.input ==> x.toPublic.input || ReadDue(ToPublic, due))
    && (x'.toPublic.room ==> x.toPublic.room || WriteDue(ToPublic, due))
    && (x'.publicClosed ==> x.publicClosed || due.closeCall)
  }

  lemma SocketParts(x: Session, x': Session, due: Due)
    requires SocketChange(x, x', due)
    ensures x'.core == x.core && BothDone(x') == BothDone(x) && Marks(x') == Marks(x)
    ensures SocketsOnly(x.toBackend, x'.toBackend) && SocketsOnly(x.toPublic, x'.toPublic)
    ensures (x'.toBackend.input ==> x.toBackend.input || ReadDue(ToBackend, due))
    ensures (x'.toBackend.room ==> x.toBackend.room || WriteDue(ToBackend, due))
    ensures (x'.toPublic.input ==> x.toPublic.input || ReadDue(ToPublic, due))
    ensures (x'.toPublic.room ==> x.toPublic.room || WriteDue(ToPublic, due))
  {
    hide ReadDue, WriteDue;
  }

  lemma SocketLocal(x: Session, x': Session, d: DispatchAt, c: ControlAt, due: Due, due': Due)
    requires Local(x, d, c, due) && Announces(due, due') && due'.marked == due.marked
    requires due'.inLock ==> due.inLock || x.core.callbacksInstalled
    requires SocketChange(x, x', due')
    ensures Local(x', d, c, due')
  {
    hide *;
    LocalParts(x, d, c, due);
    FlowParts(x, d, c, due);
    SocketParts(x, x', due');
    SocketLane(x.toBackend, x'.toBackend, ToBackend, d, x.core, c, due, due');
    SocketLane(x.toPublic, x'.toPublic, ToPublic, d, x.core, c, due, due');
    SocketClosing(x, x', d, c, due, due');
    FlowOf(x', d, c, due');
    LockChanges(x.core, DutyOf(d), c, due.inLock, BothDone(x), due'.inLock);
    LocalOf(x', d, c, due');
  }

  // ----- callbacks -----

  /** mark_public_ready: the flags a callback sets. */
  function PublicMarked(x: Session, readable: bool, writable: bool): Session {
    x.(toBackend := if readable then x.toBackend.(readable := true) else x.toBackend,
       toPublic := if writable then x.toPublic.(writable := true) else x.toPublic)
  }

  predicate MarkedDue(due: Due, due': Due, readable: bool, writable: bool) {
    && (due.readCall ==> due'.readCall || readable) && (due.writeCall ==> due'.writeCall || writable)
    && due'.marked && due'.readEvent == due.readEvent && due'.writeEvent == due.writeEvent
  }

  function SetFlags(l: Lane, readable: bool, writable: bool): Lane {
    l.(readable := l.readable || readable, writable := l.writable || writable)
  }

  /** What was due is still due or has set its flag. */
  predicate Flagged(way: Way, due: Due, due': Due, readable: bool, writable: bool) {
    (ReadDue(way, due) ==> ReadDue(way, due') || readable) && (WriteDue(way, due) ==> WriteDue(way, due') || writable)
  }

  lemma FlagLane(l: Lane, readable: bool, writable: bool, way: Way, d: DispatchAt, k: Core, c: ControlAt, due: Due, due': Due)
    requires LaneInv(l, way, d, k, c, due) && Flagged(way, due, due', readable, writable)
    requires Quiet(k, c, due'.marked) ==> WillVisit(d, way) && !OnLane(d, way)
    ensures LaneInv(SetFlags(l, readable, writable), way, d, k, c, due')
  {
    hide LaneOk, Quiet, Unlisted, ReadDue, WriteDue, WillVisit, OnLane;
    Flags(l, way, d, k.running, Quiet(k, c, due.marked), Unlisted(k), ReadDue(way, due), WriteDue(way, due),
          l.readable || readable, l.writable || writable, Quiet(k, c, due'.marked), ReadDue(way, due'), WriteDue(way, due'));
  }

  lemma MarkedFlags(due: Due, due': Due, readable: bool, writable: bool, d: DispatchAt, k: Core, c: ControlAt)
    requires MarkedDue(due, due', readable, writable)
    ensures Flagged(ToBackend, due, due', readable, false) && Flagged(ToPublic, due, due', false, writable)
    ensures !Quiet(k, c, due'.marked) && forall over :: Closing(over, d, k, c, due')
  {
  }

  lemma SetFlagsMarks(x: Session, r: bool, w: bool, r': bool, w': bool)
    requires Marks(x)
    ensures var y := x.(toBackend := SetFlags(x.toBackend, r, w), toPublic := SetFlags(x.toPublic, r', w'));
            BothDone(y) == BothDone(x) && Marks(y)
  {
  }

  lemma MarkedParts(x: Session, readable: bool, writable: bool)
    ensures PublicMarked(x, readable, writable)
         == x.(toBackend := SetFlags(x.toBackend, readable, false), toPublic := SetFlags(x.toPublic, false, writable))
  {
  }

  lemma MarkLocal(x: Session, readable: bool, writable: bool, d: DispatchAt, c: ControlAt, due: Due, due': Due)
    requires Local(x, d, c, due) && MarkedDue(due, due', readable, writable) && due'.inLock == due.inLock
    ensures Local(PublicMarked(x, readable, writable), d, c, due')
  {
    hide *;
    var y := PublicMarked(x, readable, writable);
    LocalParts(x, d, c, due);
    FlowParts(x, d, c, due);
    MarkedParts(x, readable, writable);
    SetFlagsMarks(x, readable, false, false, writable);
    MarkedFlags(due, due', readable, writable, d, x.core, c);
    FlagLane(x.toBackend, readable, false, ToBackend, d, x.core, c, due, due');
    FlagLane(x.toPublic, false, writable, ToPublic, d, x.core, c, due, due');
    FlowOf(y, d, c, due');
    LocalOf(y, d, c, due');
  }

  /** A callback inside the lock queues the session. */
  lemma AddLocal(x: Session, d: DispatchAt, c: ControlAt, due: Due, due': Due)
    requires Local(x, d, c, due) && Announces(due, due') && due.inLock && due'.inLock
    ensures x.core.inUse && Local(x.(core := x.core.(readyQueued := true)), d, c, due')
  {
    hide *;
    var k := x.core.(readyQueued := true);
    LocalParts(x, d, c, due);
    MayQueue(x.core, DutyOf(d), c, due.inLock, BothDone(x));
    Queued(x.core, DutyOf(d), c, due.inLock, BothDone(x));
    QueuedNoQuieter(x.core, c, due.marked, c, due'.marked);
    LocalWeakens(x, k, d, c, c, due, due');
  }

  // ----- buffer waiters -----

  function WokenQueued(x: Session): Session {
    var y := Woken(x);
    y.(core := y.core.(readyQueued := true))
  }

  lemma WokenLaneInv(l: Lane, way: Way, d: DispatchAt, k: Core, c: ControlAt, due: Due)
    requires LaneInv(l, way, d, k, c, due)
    ensures LaneInv(l.(waiting := false), way, d, k.(readyQueued := true), c, due)
    ensures l.waiting ==> k.running
  {
    hide LaneOk, ReadDue, WriteDue;
    WokenLane(l, way, d, k.running, Quiet(k, c, due.marked), Unlisted(k), ReadDue(way, due), WriteDue(way, due));
  }

  lemma WokenParts(x: Session, d: DispatchAt, c: ControlAt, due: Due)
    requires Marks(x) && x.waitQueued
    ensures x.toBackend.waiting || x.toPublic.waiting
    ensures var y := WokenQueued(x);
            && y.core == x.core.(readyQueued := true) && BothDone(y) == BothDone(x) && Marks(y)
            && y.toBackend == x.toBackend.(waiting := false) && y.toPublic == x.toPublic.(waiting := false)
            && Closing(Over(y), d, y.core, c, due)
  {
  }

  lemma WokenLocal(x: Session, d: DispatchAt, c: ControlAt, due: Due)
    requires Local(x, d, c, due) && x.waitQueued
    ensures x.core.inUse && Local(WokenQueued(x), d, c, due)
  {
    hide *;
    LocalParts(x, d, c, due);
    FlowParts(x, d, c, due);
    WokenParts(x, d, c, due);
    WokenLaneInv(x.toBackend, ToBackend, d, x.core, c, due);
    WokenLaneInv(x.toPublic, ToPublic, d, x.core, c, due);
    MayQueue(x.core, DutyOf(d), c, due.inLock, BothDone(x));
    Queued(x.core, DutyOf(d), c, due.inLock, BothDone(x));
    FlowOf(WokenQueued(x), d, c, due);
    LocalOf(WokenQueued(x), d, c, due);
  }

  // ----- host events -----

  /** One event fewer is under way; it carried the given flags. */
  predicate Popped(due: Due, due': Due, readable: bool, writable: bool) {
    && due' == due.(readEvent := due'.readEvent, writeEvent := due'.writeEvent)
    && (due.readEvent ==> due'.readEvent || readable) && (due.writeEvent ==> due'.writeEvent || writable)
  }

  predicate EventPlace(d: DispatchAt) {
    d.EventAdd? || d.EventStop?
  }

  lemma EventPlaces(d: DispatchAt, way: Way, k: Core, c: ControlAt, marked: bool)
    requires EventPlace(d)
    ensures WillVisit(d, way) && !OnLane(d, way) && Attends(d)
    ensures PassOk(Nothing, d, way, Quiet(k, c, marked), Unlisted(k), Quiet(TakeReference(k), c, marked), Unlisted(TakeReference(k)))
  {
  }

  lemma DeliverLane(l: Lane, readable: bool, writable: bool, way: Way, d: DispatchAt, k: Core, c: ControlAt, due: Due, due': Due)
    requires LaneInv(l, way, Nothing, k, c, due) && EventPlace(d) && Flagged(way, due, due', readable, writable)
    ensures LaneInv(SetFlags(l, readable, writable), way, d, TakeReference(k), c, due')
  {
    hide *;
    EventPlaces(d, way, k, c, due.marked);
    SameRunning(k);
    LanePasses(l, way, Nothing, d, k, TakeReference(k), c, c, due);
    FlagLane(l, readable, writable, way, d, TakeReference(k), c, due, due');
  }

  lemma SameRunning(k: Core)
    ensures TakeReference(k).running == k.running
  {
  }

  lemma DeliveryFlags(due: Due, due': Due, readable: bool, writable: bool)
    requires Popped(due, due', readable, writable)
    ensures due'.marked == due.marked && due'.inLock == due.inLock
    ensures Flagged(ToBackend, due, due', false, writable) && Flagged(ToPublic, due, due', readable, false)
  {
  }

  lemma DeliveryParts(x: Session, e: HostEvent)
    requires !x.core.connecting
    ensures Delivery(x, e)
         == x.(core := TakeReference(x.core), toBackend := SetFlags(x.toBackend, false, e.writable || e.hangup),
               toPublic := SetFlags(x.toPublic, e.readable || e.hangup, false))
  {
  }

  lemma DeliveryMarks(x: Session, e: HostEvent)
    requires Marks(x) && !x.core.connecting
    ensures Marks(Delivery(x, e)) && BothDone(Delivery(x, e)) == BothDone(x)
  {
    hide Unused;
  }

  lemma DeliveryOwned(x: Session, e: HostEvent, error: int, c: ControlAt, inLock: bool, bothDone: bool)
    requires Ownership(x.core, DutyOf(Nothing), c, inLock, bothDone) && x.core.inUse && x.core.acceptEvents
    ensures Ownership(TakeReference(x.core), DutyOf(DeliveryAt(x, e, error)), c, inLock, bothDone)
    ensures x.core.connecting ==> DeliveryAt(x, e, error) == EventConnect && !x.core.running
    ensures !x.core.connecting ==> EventPlace(DeliveryAt(x, e, error))
  {
    assert x.core.connecting ==> !x.core.running by { hide Completion, References, Stops; }
    hide Ownership;
    Delivered(x.core, c, inLock, bothDone, DutyOf(DeliveryAt(x, e, error)));
  }

  lemma DeliveryRunning(x: Session, e: HostEvent, error: int, c: ControlAt, due: Due, due': Due)
    requires Local(x, Nothing, c, due) && x.core.inUse && x.core.acceptEvents && !x.core.connecting
    requires Popped(due, due', e.readable || e.hangup, e.writable || e.hangup)
    ensures Local(Delivery(x, e), DeliveryAt(x, e, error), c, due')
  {
    hide *;
    var y, d := Delivery(x, e), DeliveryAt(x, e, error);
    LocalParts(x, Nothing, c, due);
    FlowParts(x, Nothing, c, due);
    DeliveryParts(x, e);
    DeliveryMarks(x, e);
    DeliveryFlags(due, due', e.readable || e.hangup, e.writable || e.hangup);
    DeliveryOwned(x, e, error, c, due.inLock, BothDone(x));
    EventPlaces(d, ToPublic, x.core, c, due.marked);
    DeliverLane(x.toBackend, false, e.writable || e.hangup, ToBackend, d, x.core, c, due, due');
    DeliverLane(x.toPublic, e.readable || e.hangup, false, ToPublic, d, x.core, c, due, due');
    Attended(Over(y), d, y.core, c, due');
    FlowOf(y, d, c, due');
    LocalOf(y, d, c, due');
  }

  lemma DeliveryConnecting(x: Session, e: HostEvent, error: int, c: ControlAt, due: Due, due': Due)
    requires Local(x, Nothing, c, due) && x.core.inUse && x.core.acceptEvents && x.core.connecting
    requires due'.inLock == due.inLock
    ensures Local(Delivery(x, e), DeliveryAt(x, e, error), c, due')
  {
    hide *;
    LocalParts(x, Nothing, c, due);
    DeliveryOwned(x, e, error, c, due.inLock, BothDone(x));
    var y := x.(core := TakeReference(x.core));
    HeldOnly(x, e);
    SameMarks(x, TakeReference(x.core));
    ConnectAside();
    FlowStill(x, y, Nothing, EventConnect, c, c, due);
    LocalOf(y, EventConnect, c, due);
    LocalUnmoved(y, EventConnect, c, due, due');
  }

  lemma HeldOnly(x: Session, e: HostEvent)
    requires x.core.connecting
    ensures Delivery(x, e) == x.(core := TakeReference(x.core))
    ensures TakeReference(x.core).connecting == x.core.connecting && TakeReference(x.core).running == x.core.running
  {
  }

  lemma ConnectAside()
    ensures Aside(Nothing) && Aside(EventConnect) && !HalfReleased(Nothing)
  {
  }
}

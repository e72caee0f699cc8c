/** The invariant of one session under the control thread's steps. */
module BridgeControlProofs {
  import opened Lanes
  import opened BridgeState
  import opened BridgeSteps
  import opened BridgeInvariant
  import opened BridgeWorldProofs
  import opened BridgeNotices

  lemma SessionParts(x: Session, d: DispatchAt, c: ControlAt)
    requires SessionInv(x, d, c)
    ensures Local(x, d, c, DueOf(x)) && Ownership(x.core, DutyOf(d), c, DueOf(x).inLock, BothDone(x))
  {
    hide Ownership, Flow, Marks, DutyOf, DueOf, BothDone;
  }

  lemma SessionIs(x: Session, d: DispatchAt, c: ControlAt)
    requires Local(x, d, c, DueOf(x))
    ensures SessionInv(x, d, c)
  {
    hide Local, DueOf;
  }

  /** The life-cycle fields change; the dispatcher stays where it is. */
  lemma ControlMoves(x: Session, k: Core, d: DispatchAt, c: ControlAt, c': ControlAt)
    requires SessionInv(x, d, c) && NoQuieter(x.core, c, DueOf(x).marked, k, c', DueOf(x).marked)
    requires k.connecting ==> x.core.connecting
    requires Ownership(k, DutyOf(d), c', DueOf(x).inLock, BothDone(x))
    ensures SessionInv(x.(core := k), d, c')
  {
    hide *;
    SessionParts(x, d, c);
    SelfAnnounces(DueOf(x));
    LocalWeakens(x, k, d, c, c', DueOf(x), DueOf(x));
    SameDue(x, x.(core := k));
    SessionIs(x.(core := k), d, c');
  }

  lemma SelfAnnounces(due: Due)
    ensures Announces(due, due)
  {
  }

  lemma Calm(k: Core, c: ControlAt, k': Core, c': ControlAt, marked: bool)
    requires k'.running == k.running
    requires k.running ==> (k.stopping ==> k'.stopping) && (k.readyQueued ==> k'.readyQueued)
    requires c.StartAdd? || (c.Stop? && c.at.StopAdd?) ==> k'.readyQueued
    ensures NoQuieter(k, c, marked, k', c', marked)
  {
    assert Quiet(k', c', marked) ==> Quiet(k, c, marked);
  }

  /** A session that is starting or being reaped does not run. */
  lemma AtRest(k: Core, y: Duty, c: ControlAt, inLock: bool, bothDone: bool)
    requires Ownership(k, y, c, inLock, bothDone) && (Setup(c) || Reaping(c))
    ensures !k.running && !y.DoPump?
  {
    hide References, Stops;
  }

  // ----- start -----

  lemma MayAdd(k: Core, y: Duty, c: ControlAt, inLock: bool, bothDone: bool)
    requires Ownership(k, y, c, inLock, bothDone) && (c == StartAdd || c == Stop(StopAdd))
    ensures k.inUse && !Unqueued(c)
  {
    hide Completion, References, Stops;
  }

  // ----- disabling events and failing to start -----

  // ----- join, reap, cancel -----

  lemma StoppedParts(k: Core)
    ensures var k' := StopMark(k, -125);
            k'.running == k.running && k'.connecting == k.connecting && k'.readyQueued == k.readyQueued && k'.stopping
  {
  }

  // ----- the session starts to run -----

  function StartedSession(x: Session): Session {
    x.(core := x.core.(connecting := false, running := true),
       toBackend := x.toBackend.(readable := true, writable := true),
       toPublic := x.toPublic.(readable := true, writable := true))
  }

  lemma StartedLane(l: Lane, way: Way, d: DispatchAt, idle: bool, r: bool, w: bool)
    requires Unused(l) && !OnLane(d, way)
    ensures LaneOk(l.(readable := true, writable := true), way, d, true, false, idle, r, w)
  {
  }

  lemma StartedLaneInv(l: Lane, way: Way, d: DispatchAt, k: Core, due: Due)
    requires Unused(l) && !OnLane(d, way) && k.running
    ensures LaneInv(l.(readable := true, writable := true), way, d, k, StartAdd, due)
  {
    hide LaneOk, Unused, OnLane, Unlisted, ReadDue, WriteDue;
    assert !Quiet(k, StartAdd, due.marked);
    StartedLane(l, way, d, Unlisted(k), ReadDue(way, due), WriteDue(way, due));
  }

  lemma StartedClosing(over: bool, d: DispatchAt, k: Core, due: Due)
    ensures Closing(over, d, k, StartAdd, due)
  {
    hide Attends;
  }

  lemma StartedParts(x: Session)
    requires Marks(x) && x.core.connecting
    ensures Unused(x.toBackend) && Unused(x.toPublic)
    ensures var y := StartedSession(x);
            && y.core == x.core.(connecting := false, running := true) && BothDone(y) == BothDone(x) && Marks(y)
            && y.toBackend == x.toBackend.(readable := true, writable := true)
            && y.toPublic == x.toPublic.(readable := true, writable := true)
            && y.callbacks == x.callbacks && y.events == x.events
  {
  }

  lemma OffLanes(d: DispatchAt)
    requires !DutyOf(d).DoPump?
    ensures !OnLane(d, ToBackend) && !OnLane(d, ToPublic)
  {
  }

  lemma SettingUp(k: Core, y: Duty, inLock: bool, bothDone: bool)
    requires Ownership(k, y, Running, inLock, bothDone)
    ensures k.connecting && !y.DoPump?
  {
    hide Completion, References, Stops;
  }

}

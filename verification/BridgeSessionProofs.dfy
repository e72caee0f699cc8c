/** The invariant of one session, step by step: the dispatcher's side. */
module BridgeSessionProofs {
  import opened Lanes
  import opened BridgeState
  import opened BridgeInvariant
  import opened BridgeLaneProofs
  import opened BridgeOwnership

  // ----- steps that touch neither lane -----

  predicate SameLanes(x: Session, x': Session) {
    x'.toBackend == x.toBackend && x'.toPublic == x.toPublic && x'.publicClosed == x.publicClosed
  }

  predicate PassesBoth(d: DispatchAt, d': DispatchAt) {
    Passes(d, d', ToBackend) && Passes(d, d', ToPublic)
  }

  /** Every visit to come still comes. */
  predicate CarriesBoth(d: DispatchAt, d': DispatchAt) {
    Carries(d, d', ToBackend) && Carries(d, d', ToPublic) && (Attends(d) ==> Attends(d'))
  }

  /** Both lanes are going to be visited. */
  predicate VisitsBoth(d: DispatchAt) {
    WillVisit(d, ToBackend) && WillVisit(d, ToPublic) && WillPump(d, ToBackend) && WillPump(d, ToPublic)
  }

  ghost predicate PassBothOk(d: DispatchAt, d': DispatchAt, quiet: bool, idle: bool, quiet': bool, idle': bool) {
    PassOk(d, d', ToBackend, quiet, idle, quiet', idle') && PassOk(d, d', ToPublic, quiet, idle, quiet', idle')
  }

  lemma CarriesOk(d: DispatchAt, d': DispatchAt, way: Way, quiet: bool, idle: bool, quiet': bool, idle': bool)
    requires Carries(d, d', way) && (quiet' ==> quiet) && (idle' ==> idle)
    ensures PassOk(d, d', way, quiet, idle, quiet', idle')
  {
    hide Passes, WillVisit, WillPump;
  }

  lemma QueuedOk(d: DispatchAt, d': DispatchAt, way: Way, quiet: bool, idle: bool)
    requires Passes(d, d', way)
    ensures PassOk(d, d', way, quiet, idle, false, false)
  {
    hide Passes, WillVisit, WillPump, Carries;
  }

  lemma VisitsOk(d: DispatchAt, d': DispatchAt, way: Way, quiet: bool, idle: bool, quiet': bool, idle': bool)
    requires Passes(d, d', way) && WillVisit(d', way) && WillPump(d', way)
    ensures PassOk(d, d', way, quiet, idle, quiet', idle')
  {
    hide Passes, WillVisit, WillPump, Carries;
  }

  lemma QueuedIsNotQuiet(k: Core, c: ControlAt, marked: bool)
    requires k.readyQueued
    ensures Quiet(k, c, marked) == false && Unlisted(k) == false
  {
  }

  /** The dispatcher passes both lanes by. */
  lemma FlowPasses(x: Session, x': Session, d: DispatchAt, d': DispatchAt, c: ControlAt, c': ControlAt, due: Due)
    requires Flow(x, d, c, due) && SameLanes(x, x') && x'.core.running == x.core.running
    requires PassBothOk(d, d', Quiet(x.core, c, due.marked), Unlisted(x.core), Quiet(x'.core, c', due.marked), Unlisted(x'.core))
    requires Closing(Over(x'), d', x'.core, c', due)
    ensures Flow(x', d', c', due)
  {
    hide LaneInv, PassOk, Quiet, Unlisted, Closing;
    LanePasses(x.toBackend, ToBackend, d, d', x.core, x'.core, c, c', due);
    LanePasses(x.toPublic, ToPublic, d, d', x.core, x'.core, c, c', due);
  }

  lemma ClosingCarries(x: Session, x': Session, d: DispatchAt, d': DispatchAt, c: ControlAt, c': ControlAt, due: Due)
    requires Closing(Over(x), d, x.core, c, due) && SameLanes(x, x') && (Attends(d) ==> Attends(d'))
    requires Quiet(x'.core, c', due.marked) ==> Quiet(x.core, c, due.marked)
    ensures Closing(Over(x'), d', x'.core, c', due)
  {
    hide Quiet, Attends;
  }

  lemma ClosingAttended(over: bool, d: DispatchAt, k: Core, c: ControlAt, due: Due)
    requires WillVisit(d, ToPublic)
    ensures Closing(over, d, k, c, due)
  {
    hide WillVisit, OnLane, Quiet;
  }

  lemma FlowCarries(x: Session, x': Session, d: DispatchAt, d': DispatchAt, c: ControlAt, c': ControlAt, due: Due)
    requires Flow(x, d, c, due) && SameLanes(x, x') && CarriesBoth(d, d') && x'.core.running == x.core.running
    requires Quiet(x'.core, c', due.marked) ==> Quiet(x.core, c, due.marked)
    requires Unlisted(x'.core) ==> Unlisted(x.core)
    ensures Flow(x', d', c', due)
  {
    hide LaneInv, PassOk, Quiet, Unlisted, Closing, SameLanes, Carries, Attends, Over;
    var q, i, q', i' := Quiet(x.core, c, due.marked), Unlisted(x.core), Quiet(x'.core, c', due.marked), Unlisted(x'.core);
    CarriesOk(d, d', ToBackend, q, i, q', i');
    CarriesOk(d, d', ToPublic, q, i, q', i');
    ClosingCarries(x, x', d, d', c, c', due);
    FlowPasses(x, x', d, d', c, c', due);
  }

  lemma FlowQueued(x: Session, x': Session, d: DispatchAt, d': DispatchAt, c: ControlAt, c': ControlAt, due: Due)
    requires Flow(x, d, c, due) && SameLanes(x, x') && PassesBoth(d, d') && x'.core.running == x.core.running
    requires x'.core.readyQueued
    ensures Flow(x', d', c', due)
  {
    hide Flow, PassOk, Passes, Quiet, Unlisted, SameLanes, Over, Attends;
    QueuedIsNotQuiet(x'.core, c', due.marked);
    QueuedOk(d, d', ToBackend, Quiet(x.core, c, due.marked), Unlisted(x.core));
    QueuedOk(d, d', ToPublic, Quiet(x.core, c, due.marked), Unlisted(x.core));
    FlowPasses(x, x', d, d', c, c', due);
  }

  lemma FlowVisits(x: Session, x': Session, d: DispatchAt, d': DispatchAt, c: ControlAt, due: Due)
    requires Flow(x, d, c, due) && SameLanes(x, x') && PassesBoth(d, d') && x'.core.running == x.core.running
    requires VisitsBoth(d')
    ensures Flow(x', d', c, due)
  {
    hide Flow, PassOk, Passes, WillVisit, WillPump, Quiet, Unlisted, SameLanes, Over, Closing;
    ClosingAttended(Over(x'), d', x'.core, c, due);
    var q, i, q', i' := Quiet(x.core, c, due.marked), Unlisted(x.core), Quiet(x'.core, c, due.marked), Unlisted(x'.core);
    VisitsOk(d, d', ToBackend, q, i, q', i');
    VisitsOk(d, d', ToPublic, q, i, q', i');
    FlowPasses(x, x', d, d', c, c, due);
  }

  predicate Aside(d: DispatchAt) {
    && Elsewhere(d, ToBackend) && Elsewhere(d, ToPublic) && InBudget(d, ToBackend) && InBudget(d, ToPublic)
  }

  lemma FlowStill(x: Session, x': Session, d: DispatchAt, d': DispatchAt, c: ControlAt, c': ControlAt, due: Due)
    requires Flow(x, d, c, due) && SameLanes(x, x') && !x.core.running && !x'.core.running
    requires Aside(d) && Aside(d') && !HalfReleased(d)
    ensures Flow(x', d', c', due)
  {
    hide LaneInv, Elsewhere, InBudget, HalfReleased;
    LaneStill(x.toBackend, ToBackend, d, d', x.core, x'.core, c, c', due);
    LaneStill(x.toPublic, ToPublic, d, d', x.core, x'.core, c, c', due);
  }

  // ----- the whole session -----

  lemma LocalParts(x: Session, d: DispatchAt, c: ControlAt, due: Due)
    requires Local(x, d, c, due)
    ensures Ownership(x.core, DutyOf(d), c, due.inLock, BothDone(x)) && Flow(x, d, c, due) && Marks(x)
  {
    hide Ownership, Flow, Marks, DutyOf, BothDone;
  }

  lemma LocalOf(x: Session, d: DispatchAt, c: ControlAt, due: Due)
    requires Ownership(x.core, DutyOf(d), c, due.inLock, BothDone(x)) && Flow(x, d, c, due) && Marks(x)
    ensures Local(x, d, c, due)
  {
    hide Ownership, Flow, Marks, DutyOf, BothDone;
  }

  lemma SameMarks(x: Session, k: Core)
    requires Marks(x) && (k.connecting ==> x.core.connecting)
    ensures Marks(x.(core := k)) && BothDone(x.(core := k)) == BothDone(x) && SameLanes(x, x.(core := k))
  {
    hide Unused;
  }

  lemma LocalCarries(x: Session, k: Core, d: DispatchAt, d': DispatchAt, c: ControlAt, c': ControlAt, due: Due)
    requires Flow(x, d, c, due) && Marks(x) && CarriesBoth(d, d')
    requires k.running == x.core.running && (k.connecting ==> x.core.connecting)
    requires Quiet(k, c', due.marked) ==> Quiet(x.core, c, due.marked)
    requires Unlisted(k) ==> Unlisted(x.core)
    requires Ownership(k, DutyOf(d'), c', due.inLock, BothDone(x))
    ensures Local(x.(core := k), d', c', due)
  {
    hide Ownership, Flow, CarriesBoth, Marks, BothDone, Quiet, Unlisted, SameLanes, DutyOf;
    SameMarks(x, k);
    FlowCarries(x, x.(core := k), d, d', c, c', due);
  }

  lemma LocalVisits(x: Session, k: Core, d: DispatchAt, d': DispatchAt, c: ControlAt, due: Due)
    requires Flow(x, d, c, due) && Marks(x) && PassesBoth(d, d') && VisitsBoth(d')
    requires k.running == x.core.running && (k.connecting ==> x.core.connecting)
    requires Ownership(k, DutyOf(d'), c, due.inLock, BothDone(x))
    ensures Local(x.(core := k), d', c, due)
  {
    hide Ownership, Flow, PassesBoth, VisitsBoth, Marks, BothDone, SameLanes, DutyOf;
    SameMarks(x, k);
    FlowVisits(x, x.(core := k), d, d', c, due);
  }

  // ----- event delivery -----

  lemma EventPasses()
    ensures CarriesBoth(EventConnect, EventPut) && PassesBoth(EventAdd, EventPut)
    ensures CarriesBoth(EventPut, EventIdle) && CarriesBoth(EventIdle, Nothing)
  {
  }

  lemma EventStopPasses(at: StopAt, status: int)
    ensures CarriesBoth(EventStop(StopLock, status), EventStop(StopAdd, status))
    ensures PassesBoth(EventStop(StopAdd, status), EventStop(StopShut, status))
    ensures CarriesBoth(EventStop(at, status), EventAdd)
  {
  }

  // ----- between the queue and the pump -----

  lemma FailPasses(at: StopAt, at': StopAt, status: int)
    ensures PassesBoth(Failing(at, status), Failing(at', status)) && VisitsBoth(Failing(at', status))
    ensures PassesBoth(Failing(at, status), Finishing) && VisitsBoth(Finishing)
  {
  }

  lemma PumpPasses()
    ensures PassesBoth(Nothing, Taken) && VisitsBoth(Taken)
    ensures PassesBoth(Taken, Finishing) && VisitsBoth(Finishing) && PassesBoth(CheckDone, Finishing)
    ensures PassesBoth(Taken, Top(ToBackend, 0)) && VisitsBoth(Top(ToBackend, 0))
    ensures Aside(Nothing) && Aside(Taken) && Aside(Finishing) && Aside(Signalling)
    ensures !HalfReleased(Nothing) && !HalfReleased(Taken) && !HalfReleased(Finishing) && !HalfReleased(Signalling)
  {
  }

  lemma TakenFromReadyLocal(x: Session, c: ControlAt, due: Due)
    requires Local(x, Nothing, c, due) && x.core.readyQueued
    ensures Local(x.(core := x.core.(readyQueued := false)), Taken, c, due)
  {
    hide Ownership, Flow, Marks, BothDone, PassesBoth, VisitsBoth, Aside, HalfReleased;
    PumpPasses();
    TakenFromReady(x.core, c, due.inLock, BothDone(x));
    LocalVisits(x, x.core.(readyQueued := false), Nothing, Taken, c, due);
  }

  lemma FailRuns(k: Core, at: StopAt, status: int, c: ControlAt, inLock: bool, bothDone: bool)
    requires Ownership(k, DoFail(at, status), c, inLock, bothDone)
    ensures k.inUse && !Unqueued(c)
  {
  }

  lemma FlowLeaves(x: Session, c: ControlAt, due: Due)
    requires Flow(x, CheckDone, c, due) && !Over(x)
    ensures Flow(x, Nothing, c, due)
  {
    hide LaneInv, PassOk, Quiet, Unlisted, Over;
    var q, i := Quiet(x.core, c, due.marked), Unlisted(x.core);
    CarriesOk(CheckDone, Nothing, ToBackend, q, i, q, i);
    CarriesOk(CheckDone, Nothing, ToPublic, q, i, q, i);
    FlowPasses(x, x, CheckDone, Nothing, c, c, due);
  }

  lemma LeavePasses(way: Way, ops: nat)
    ensures PassesBoth(Leaving(way, ops), AfterLane(way)) && (ops != 32 ==> CarriesBoth(Leaving(way, ops), AfterLane(way)))
  {
  }

  function AfterLane(way: Way): DispatchAt {
    if way == ToBackend then Top(ToPublic, 0) else CheckDone
  }

  lemma PumpRuns(k: Core, c: ControlAt, inLock: bool, bothDone: bool)
    requires Ownership(k, DoPump, c, inLock, bothDone)
    ensures k.running && !k.connecting && k.inUse
  {
    hide Completion, References, Stops;
  }
}

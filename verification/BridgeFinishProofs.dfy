/** The invariant of one session, step by step: waiting for a buffer, failing,
    finishing, and event delivery. */
module BridgeFinishProofs {
  import opened Lanes
  import opened BridgeState
  import opened BridgeSteps
  import opened BridgeInvariant
  import opened BridgeLaneProofs
  import opened BridgeOwnership
  import opened BridgeSessionProofs
  import opened BridgePumpProofs

  lemma FlowParts(x: Session, d: DispatchAt, c: ControlAt, due: Due)
    requires Flow(x, d, c, due)
    ensures LaneInv(x.toBackend, ToBackend, d, x.core, c, due) && LaneInv(x.toPublic, ToPublic, d, x.core, c, due)
    ensures Closing(Over(x), d, x.core, c, due)
  {
    hide LaneInv, Closing, Over;
  }

  lemma FlowOf(x: Session, d: DispatchAt, c: ControlAt, due: Due)
    requires LaneInv(x.toBackend, ToBackend, d, x.core, c, due) && LaneInv(x.toPublic, ToPublic, d, x.core, c, due)
    requires Closing(Over(x), d, x.core, c, due)
    ensures Flow(x, d, c, due)
  {
    hide LaneInv, Closing, Over;
  }

  /** A lane that owes no progress. */
  ghost predicate Settled(l: Lane, way: Way, d: DispatchAt, due: Due) {
    LaneOk(l, way, d, false, false, false, ReadDue(way, due), WriteDue(way, due))
  }

  lemma SettledLane(l: Lane, way: Way, d: DispatchAt, k: Core, c: ControlAt, due: Due)
    requires !k.running
    ensures LaneInv(l, way, d, k, c, due) == Settled(l, way, d, due)
    ensures forall over :: Closing(over, d, k, c, due)
  {
    hide LaneOk, ReadDue, WriteDue, Attends;
  }

  lemma SettledFlow(x: Session, d: DispatchAt, c: ControlAt, due: Due)
    requires !x.core.running
    requires Settled(x.toBackend, ToBackend, d, due) && Settled(x.toPublic, ToPublic, d, due)
    ensures Flow(x, d, c, due)
  {
    hide *;
    SettledLane(x.toBackend, ToBackend, d, x.core, c, due);
    SettledLane(x.toPublic, ToPublic, d, x.core, c, due);
    FlowOf(x, d, c, due);
  }

  lemma SettledParts(x: Session, d: DispatchAt, c: ControlAt, due: Due)
    requires Flow(x, d, c, due) && !x.core.running
    ensures Settled(x.toBackend, ToBackend, d, due) && Settled(x.toPublic, ToPublic, d, due)
  {
    hide *;
    FlowParts(x, d, c, due);
    SettledLane(x.toBackend, ToBackend, d, x.core, c, due);
    SettledLane(x.toPublic, ToPublic, d, x.core, c, due);
  }

  // ----- waiting for a buffer, failing -----

  lemma NoBufferLane(l: Lane, way: Way, ops: nat, k: Core, c: ControlAt, due: Due)
    requires Pumping(l, way, NoBuffer(way, ops), k, c, due)
    ensures Pumping(AwaitBuffer(l), way, Leaving(way, ops), k, c, due) && AwaitBuffer(l).done == l.done
  {
    hide LaneOk, Quiet, Unlisted, ReadDue, WriteDue;
    NoBufferWaits(l, way, ops, Quiet(k, c, due.marked), Unlisted(k), ReadDue(way, due), WriteDue(way, due));
  }

  function Waiting(x: Session, way: Way): Session {
    SetLane(x, way, AwaitBuffer(GetLane(x, way))).(waitQueued := true)
  }

  lemma WaitingMarks(x: Session, way: Way)
    requires Marks(x) && !x.core.connecting
    ensures Marks(Waiting(x, way)) && BothDone(Waiting(x, way)) == BothDone(x) && Waiting(x, way).core == x.core
  {
  }

  lemma FlowIgnoresMark(x: Session, mark: bool, d: DispatchAt, c: ControlAt, due: Due)
    ensures Flow(x.(waitQueued := mark), d, c, due) == Flow(x, d, c, due)
  {
    hide LaneInv, Closing;
  }

  lemma WaitingIs(x: Session, way: Way)
    ensures Waiting(x, way) == SetLane(x, way, AwaitBuffer(GetLane(x, way))).(waitQueued := true)
  {
    hide SetLane, GetLane, AwaitBuffer;
  }

  lemma SetSame(x: Session, way: Way)
    ensures SetLane(x, way, GetLane(x, way)) == x && Steady(GetLane(x, way), GetLane(x, way))
  {
  }

  lemma PumpFailsLane(l: Lane, way: Way, d: DispatchAt, status: int, k: Core, c: ControlAt, due: Due)
    requires Pumping(l, way, d, k, c, due) && !d.Sent? && !d.Received?
    ensures Pumping(l, way, Failing(StopLock, status), k, c, due)
  {
    hide LaneOk, Quiet, Unlisted, ReadDue, WriteDue;
    PumpFails(l, way, d, StopLock, status, Quiet(k, c, due.marked), Unlisted(k), ReadDue(way, due), WriteDue(way, due));
  }

  lemma AllocationFailsLane(l: Lane, way: Way, ops: nat, status: int, k: Core, c: ControlAt, due: Due)
    requires Pumping(l, way, Top(way, ops), k, c, due) && !l.waiting && !l.held
    ensures Pumping(TakeReadable(l), way, Failing(StopLock, status), k, c, due) && Steady(l, TakeReadable(l))
  {
    hide LaneOk, Quiet, Unlisted, ReadDue, WriteDue;
    AllocationFails(l, way, ops, StopLock, status, Quiet(k, c, due.marked), Unlisted(k), ReadDue(way, due), WriteDue(way, due));
  }

  // ----- finishing -----

  /** FinishMark, with the buffers of the given ways dropped. */
  function Ended(x: Session, dropFirst: bool, dropSecond: bool): Session {
    var y := FinishMark(x);
    y.(toBackend := if dropFirst then Release(y.toBackend) else y.toBackend,
       toPublic := if dropSecond then Release(y.toPublic) else y.toPublic)
  }

  function EndedLane(l: Lane, drop: bool): Lane {
    if drop then Release(l.(waiting := false)) else l.(waiting := false)
  }

  lemma EndedLaneSettles(l: Lane, way: Way, drop: bool, d: DispatchAt, k: Core, c: ControlAt, due: Due)
    requires LaneInv(l, way, Finishing, k, c, due) && k.running && Parting(d) && (l.held && !drop ==> MayHold(way, d))
    ensures Settled(EndedLane(l, drop), way, d, due)
  {
    hide LaneOk, Quiet, Unlisted, ReadDue, WriteDue, Parting, MayHold;
    if drop {
      FinishDrops(l, way, d, Quiet(k, c, due.marked), Unlisted(k), ReadDue(way, due), WriteDue(way, due));
    } else {
      FinishKeeps(l, way, d, Quiet(k, c, due.marked), Unlisted(k), ReadDue(way, due), WriteDue(way, due));
    }
  }

  function FinishedCore(k: Core): Core {
    k.(running := false, stopping := true, finishedNotified := true)
  }

  lemma EndedParts(x: Session, dropFirst: bool, dropSecond: bool)
    ensures var y := Ended(x, dropFirst, dropSecond);
            && y.core == FinishedCore(x.core) && BothDone(y) == BothDone(x)
            && y.toBackend == EndedLane(x.toBackend, dropFirst) && y.toPublic == EndedLane(x.toPublic, dropSecond)
            && (!x.core.connecting ==> Marks(y))
  {
  }

  lemma FinishOwned(k: Core, d: DispatchAt, c: ControlAt, inLock: bool, bothDone: bool)
    requires Ownership(k, DoFinish, c, inLock, bothDone) && k.inUse && !k.finishedNotified && Parting(d)
    ensures k.running && !k.connecting && !FinishedCore(k).running
    ensures Ownership(FinishedCore(k), DutyOf(d), c, inLock, bothDone)
  {
    assert k.running && !k.connecting by { hide Completion, References, Stops; }
    hide Ownership;
    Finished(k, c, inLock, bothDone);
  }

  lemma FinishDuty()
    ensures DutyOf(Finishing) == DoFinish
  {
  }

  lemma MayHoldSecond(d: DispatchAt)
    ensures MayHold(ToPublic, d) == (d == Releasing(false))
  {
  }

  lemma AwayDuty()
    ensures DutyOf(Nothing) == Away
  {
  }

  lemma PartingOwned(k: Core, d: DispatchAt, d': DispatchAt, c: ControlAt, inLock: bool, bothDone: bool)
    requires Ownership(k, DutyOf(d), c, inLock, bothDone) && d.Releasing? && Parting(d')
    ensures !k.running && !k.connecting && Ownership(k, DutyOf(d'), c, inLock, bothDone)
  {
    assert !k.running && !k.connecting by { hide References, Stops; }
    hide Ownership;
    Released(k, c, inLock, bothDone);
  }

  function DropSecond(x: Session): Session {
    x.(toPublic := Release(x.toPublic))
  }

  lemma PartsLane(l: Lane, way: Way, d: DispatchAt, d': DispatchAt, due: Due)
    requires Settled(l, way, d, due) && Parting(d) && Parting(d')
    ensures (MayHold(way, d) && l.held) || (Settled(l, way, d', due) && !l.held)
    ensures Settled(Release(l), way, d', due)
  {
    hide LaneOk, ReadDue, WriteDue, Parting, MayHold;
    PartingDrops(l, way, d, d', ReadDue(way, due), WriteDue(way, due));
    if !(MayHold(way, d) && l.held) {
      PartingKeeps(l, way, d, d', ReadDue(way, due), WriteDue(way, due));
    }
  }

  /** The first buffer is gone, the second is dropped if it is held. */
  lemma ReleaseLocal(x: Session, second: bool, d: DispatchAt, c: ControlAt, due: Due)
    requires Local(x, Releasing(second), c, due) && Parting(d)
    ensures (x.toPublic.held && !second) || Local(x, d, c, due)
    ensures Local(DropSecond(x), d, c, due)
  {
    hide *;
    LocalParts(x, Releasing(second), c, due);
    ReleasingParts(second);
    PartingOwned(x.core, Releasing(second), d, c, due.inLock, BothDone(x));
    SettledParts(x, Releasing(second), c, due);
    PartsLane(x.toBackend, ToBackend, Releasing(second), d, due);
    PartsLane(x.toPublic, ToPublic, Releasing(second), d, due);
    DropSecondParts(x);
    SettledFlow(DropSecond(x), d, c, due);
    LocalOf(DropSecond(x), d, c, due);
    if !(x.toPublic.held && !second) {
      SettledFlow(x, d, c, due);
      LocalOf(x, d, c, due);
    }
  }

  lemma ReleasingParts(second: bool)
    ensures Parting(Releasing(second)) && Releasing(second).Releasing?
    ensures !MayHold(ToBackend, Releasing(second)) && (MayHold(ToPublic, Releasing(second)) ==> !second)
  {
  }

  lemma DropSecondParts(x: Session)
    requires Marks(x) && !x.core.connecting
    ensures var y := DropSecond(x);
            && y.core == x.core && BothDone(y) == BothDone(x) && Marks(y)
            && y.toBackend == x.toBackend && y.toPublic == Release(x.toPublic)
  {
  }

  lemma SignalOwned(k: Core, c: ControlAt, inLock: bool, bothDone: bool)
    requires Ownership(k, DutyOf(Signalling), c, inLock, bothDone)
    ensures !k.running
    ensures Ownership(k.(finished := k.finished + 1, signals := k.signals + 1), DutyOf(Nothing), c, inLock, bothDone)
  {
    assert !k.running by { hide References, Stops; }
    hide Ownership;
    Signalled(k, c, inLock, bothDone);
  }

  lemma NothingCarries()
    ensures CarriesBoth(Nothing, Nothing)
  {
  }

  lemma FreeQuiet(k: Core, c: ControlAt, marked: bool)
    ensures Quiet(k.(freed := true), c, marked) == Quiet(k, c, marked) && Unlisted(k.(freed := true)) == Unlisted(k)
  {
  }
}

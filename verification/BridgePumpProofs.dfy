/** The invariant of one session, step by step: the pump loop at work on one of
    the two lanes. */
module BridgePumpProofs {
  import opened Bytes
  import opened Lanes
  import opened BridgeState
  import opened BridgeInvariant
  import opened BridgeLaneProofs
  import opened BridgeOwnership
  import opened BridgeSessionProofs

  function Other(way: Way): Way {
    if way == ToBackend then ToPublic else ToBackend
  }

  /** The lane invariant of a running session. */
  ghost predicate Pumping(l: Lane, way: Way, d: DispatchAt, k: Core, c: ControlAt, due: Due) {
    LaneOk(l, way, d, true, Quiet(k, c, due.marked), Unlisted(k), ReadDue(way, due), WriteDue(way, due))
  }

  // ----- one lane moves, the other waits -----

  lemma OtherWaits(way: Way, d: DispatchAt, d': DispatchAt, quiet: bool, idle: bool)
    requires OnLane(d, way) && OnLane(d', way)
    ensures PassOk(d, d', Other(way), quiet, idle, quiet, idle)
  {
    if way == ToBackend {
      VisitsOk(d, d', ToPublic, quiet, idle, quiet, idle);
    } else {
      CarriesOk(d, d', ToBackend, quiet, idle, quiet, idle);
    }
  }

  lemma OtherFails(way: Way, d: DispatchAt, at: StopAt, status: int, quiet: bool, idle: bool)
    requires OnLane(d, way)
    ensures PassOk(d, Failing(at, status), Other(way), quiet, idle, quiet, idle)
  {
    VisitsOk(d, Failing(at, status), Other(way), quiet, idle, quiet, idle);
  }

  lemma OnLaneAttends(way: Way, d: DispatchAt)
    requires OnLane(d, way)
    ensures Attends(d)
  {
  }

  lemma Attended(over: bool, d: DispatchAt, k: Core, c: ControlAt, due: Due)
    requires Attends(d)
    ensures Closing(over, d, k, c, due)
  {
    hide Attends, Quiet;
  }

  lemma JoinLanes(x: Session, way: Way, l: Lane, d: DispatchAt, c: ControlAt, due: Due)
    requires LaneInv(l, way, d, x.core, c, due) && LaneInv(GetLane(x, Other(way)), Other(way), d, x.core, c, due)
    requires forall over :: Closing(over, d, x.core, c, due)
    ensures Flow(SetLane(x, way, l), d, c, due)
  {
    hide LaneInv, Closing, Over;
  }

  lemma FlowPumps(x: Session, way: Way, l: Lane, d: DispatchAt, d': DispatchAt, c: ControlAt, due: Due)
    requires Flow(x, d, c, due) && x.core.running && Attends(d')
    requires PassOk(d, d', Other(way), Quiet(x.core, c, due.marked), Unlisted(x.core), Quiet(x.core, c, due.marked), Unlisted(x.core))
    requires Pumping(l, way, d', x.core, c, due)
    ensures Flow(SetLane(x, way, l), d', c, due)
  {
    hide PassOk, LaneOk, Quiet, Unlisted, Over, Attends, Closing, ReadDue, WriteDue;
    assert LaneInv(l, way, d', x.core, c, due);
    LanePasses(GetLane(x, Other(way)), Other(way), d, d', x.core, x.core, c, c, due);
    forall over ensures Closing(over, d', x.core, c, due) { Attended(over, d', x.core, c, due); }
    JoinLanes(x, way, l, d', c, due);
  }

  /** The lane keeps its waiting mark and does not go back from done. */
  predicate Steady(l: Lane, l': Lane) {
    l'.waiting == l.waiting && (l.done ==> l'.done)
  }

  lemma SetLaneMarks(x: Session, way: Way, l: Lane)
    requires Marks(x) && !x.core.connecting && Steady(GetLane(x, way), l)
    ensures Marks(SetLane(x, way, l)) && (BothDone(x) ==> BothDone(SetLane(x, way, l)))
    ensures SetLane(x, way, l).core == x.core
  {
  }

  lemma PumpDuty(way: Way, d: DispatchAt)
    requires OnLane(d, way)
    ensures DutyOf(d) == DoPump
  {
  }

  /** In the pump the session runs; its lane satisfies the lane invariant. */
  lemma PumpedLane(x: Session, way: Way, d: DispatchAt, c: ControlAt, due: Due)
    requires Local(x, d, c, due) && OnLane(d, way)
    ensures x.core.running && !x.core.connecting && x.core.inUse && Pumping(GetLane(x, way), way, d, x.core, c, due)
  {
    hide Ownership, LaneOk, Closing, Marks, DutyOf, Quiet, Unlisted, ReadDue, WriteDue;
    PumpDuty(way, d);
    PumpRuns(x.core, c, due.inLock, BothDone(x));
  }

  lemma PumpFlow(x: Session, way: Way, l: Lane, d: DispatchAt, d': DispatchAt, c: ControlAt, due: Due)
    requires Flow(x, d, c, due) && OnLane(d, way) && OnLane(d', way) && x.core.running
    requires Pumping(l, way, d', x.core, c, due)
    ensures Flow(SetLane(x, way, l), d', c, due)
  {
    hide Flow, Pumping, OnLane, Quiet, Unlisted, PassOk, Attends, Other, SetLane, GetLane;
    OtherWaits(way, d, d', Quiet(x.core, c, due.marked), Unlisted(x.core));
    OnLaneAttends(way, d');
    FlowPumps(x, way, l, d, d', c, due);
  }

  lemma PumpOwned(k: Core, way: Way, d: DispatchAt, d': DispatchAt, c: ControlAt, inLock: bool, bothDone: bool, bothDone': bool)
    requires Ownership(k, DutyOf(d), c, inLock, bothDone) && OnLane(d, way) && OnLane(d', way) && (bothDone ==> bothDone')
    ensures Ownership(k, DutyOf(d'), c, inLock, bothDone')
  {
    hide Ownership, OnLane, DutyOf;
    PumpDuty(way, d);
    PumpDuty(way, d');
    LaneDone(k, c, inLock, bothDone, bothDone');
  }

  lemma PumpLocal(x: Session, way: Way, l: Lane, d: DispatchAt, d': DispatchAt, c: ControlAt, due: Due)
    requires Local(x, d, c, due) && OnLane(d, way) && OnLane(d', way)
    requires Steady(GetLane(x, way), l) && Pumping(l, way, d', x.core, c, due)
    ensures Local(SetLane(x, way, l), d', c, due)
  {
    hide *;
    LocalParts(x, d, c, due);
    PumpedLane(x, way, d, c, due);
    PumpFlow(x, way, l, d, d', c, due);
    SetLaneMarks(x, way, l);
    PumpOwned(x.core, way, d, d', c, due.inLock, BothDone(x), BothDone(SetLane(x, way, l)));
    LocalOf(SetLane(x, way, l), d', c, due);
  }

  lemma FailFlow(x: Session, way: Way, l: Lane, d: DispatchAt, status: int, c: ControlAt, due: Due)
    requires Flow(x, d, c, due) && OnLane(d, way) && x.core.running
    requires Pumping(l, way, Failing(StopLock, status), x.core, c, due)
    ensures Flow(SetLane(x, way, l), Failing(StopLock, status), c, due)
  {
    hide Flow, Pumping, OnLane, Quiet, Unlisted, PassOk, WillVisit, Other, SetLane, GetLane;
    OtherFails(way, d, StopLock, status, Quiet(x.core, c, due.marked), Unlisted(x.core));
    FailingVisits(StopLock, status, ToPublic);
    FlowPumps(x, way, l, d, Failing(StopLock, status), c, due);
  }

  lemma FailOwned(k: Core, way: Way, d: DispatchAt, status: int, c: ControlAt, inLock: bool, bothDone: bool, bothDone': bool)
    requires Ownership(k, DutyOf(d), c, inLock, bothDone) && OnLane(d, way) && (bothDone ==> bothDone') && status != 0
    ensures Ownership(k, DutyOf(Failing(StopLock, status)), c, inLock, bothDone')
  {
    hide Ownership, OnLane;
    PumpDuty(way, d);
    LaneDone(k, c, inLock, bothDone, bothDone');
    PumpFailed(k, status, c, inLock, bothDone');
  }

  // ----- the pump's actions -----

  lemma TopSendsLane(l: Lane, way: Way, ops: nat, k: Core, c: ControlAt, due: Due)
    requires Pumping(l, way, Top(way, ops), k, c, due)
    requires ops < 32 && !l.done && Pending(l) && l.writable
    ensures Pumping(TakeWritable(l), way, Sending(way, ops), k, c, due) && Steady(l, TakeWritable(l))
  {
    hide LaneOk, Quiet, Unlisted, ReadDue, WriteDue, Pending;
    TopSends(l, way, ops, Quiet(k, c, due.marked), Unlisted(k), ReadDue(way, due), WriteDue(way, due));
  }

  lemma TopLeavesLane(l: Lane, way: Way, ops: nat, k: Core, c: ControlAt, due: Due)
    requires Pumping(l, way, Top(way, ops), k, c, due)
    requires ops >= 32 || Blocked(l)
    ensures Pumping(l, way, Leaving(way, ops), k, c, due) && Steady(l, l)
  {
    hide LaneOk, Quiet, Unlisted, ReadDue, WriteDue, Pending;
    TopLeaves(l, way, ops, Quiet(k, c, due.marked), Unlisted(k), ReadDue(way, due), WriteDue(way, due));
  }

  lemma TopTakesLane(l: Lane, way: Way, ops: nat, k: Core, c: ControlAt, due: Due)
    requires Pumping(l, way, Top(way, ops), k, c, due)
    requires ops < 32 && !l.done && !Pending(l) && !l.waiting && l.readable
    ensures Pumping(Acquire(TakeReadable(l)), way, Receiving(way, ops), k, c, due) && Steady(l, Acquire(TakeReadable(l)))
  {
    hide LaneOk, Quiet, Unlisted, ReadDue, WriteDue, Pending;
    TopTakes(l, way, ops, Quiet(k, c, due.marked), Unlisted(k), ReadDue(way, due), WriteDue(way, due));
  }

  lemma TopStarvesLane(l: Lane, way: Way, ops: nat, k: Core, c: ControlAt, due: Due)
    requires Pumping(l, way, Top(way, ops), k, c, due)
    requires ops < 32 && !l.done && !Pending(l) && !l.waiting && l.readable && !l.held
    ensures Pumping(TakeReadable(l), way, NoBuffer(way, ops), k, c, due) && Steady(l, TakeReadable(l))
  {
    hide LaneOk, Quiet, Unlisted, ReadDue, WriteDue, Pending;
    TopStarves(l, way, ops, Quiet(k, c, due.marked), Unlisted(k), ReadDue(way, due), WriteDue(way, due));
  }

  lemma SendMovesLane(l: Lane, way: Way, ops: nat, n: nat, room: bool, k: Core, c: ControlAt, due: Due)
    requires Pumping(l, way, Sending(way, ops), k, c, due)
    requires 0 < n <= l.length - l.offset
    ensures l.length <= |l.buffer|
    ensures Pumping(Send(l, n, room), way, Sent(way, ops + 1, n), k, c, due) && Steady(l, Send(l, n, room))
  {
    hide LaneOk, Quiet, Unlisted, ReadDue, WriteDue, Pending;
    SendMoves(l, way, ops, n, room, Quiet(k, c, due.marked), Unlisted(k), ReadDue(way, due), WriteDue(way, due));
  }

  lemma SendBlockedLane(l: Lane, way: Way, ops: nat, k: Core, c: ControlAt, due: Due)
    requires Pumping(l, way, Sending(way, ops), k, c, due)
    requires !l.room
    ensures Pumping(l, way, Leaving(way, ops + 1), k, c, due) && Steady(l, l)
  {
    hide LaneOk, Quiet, Unlisted, ReadDue, WriteDue, Pending;
    SendBlocked(l, way, ops, Quiet(k, c, due.marked), Unlisted(k), ReadDue(way, due), WriteDue(way, due));
  }

  lemma SentReturnsLane(l: Lane, way: Way, ops: nat, n: nat, k: Core, c: ControlAt, due: Due)
    requires Pumping(l, way, Sent(way, ops, n), k, c, due)
    ensures Pumping(AfterSend(l, n), way, Top(way, ops), k, c, due) && Steady(l, AfterSend(l, n))
  {
    hide LaneOk, Quiet, Unlisted, ReadDue, WriteDue, Pending;
    SentReturns(l, way, ops, n, Quiet(k, c, due.marked), Unlisted(k), ReadDue(way, due), WriteDue(way, due));
  }

  lemma ReceiveFillsLane(l: Lane, way: Way, ops: nat, data: seq<Byte>, input: bool, k: Core, c: ControlAt, due: Due)
    requires Pumping(l, way, Receiving(way, ops), k, c, due)
    requires 0 < |data| <= BUFFER_LIMIT
    ensures |l.buffer| == BUFFER_LIMIT
    ensures Pumping(Receive(l, data, input), way, Received(way, ops + 1, data), k, c, due) && Steady(l, Receive(l, data, input))
  {
    hide LaneOk, Quiet, Unlisted, ReadDue, WriteDue, Pending;
    ReceiveFills(l, way, ops, data, input, Quiet(k, c, due.marked), Unlisted(k), ReadDue(way, due), WriteDue(way, due));
  }

  lemma ReceivedReturnsLane(l: Lane, way: Way, ops: nat, data: seq<Byte>, k: Core, c: ControlAt, due: Due)
    requires Pumping(l, way, Received(way, ops, data), k, c, due)
    ensures Pumping(AfterReceive(l, |data|), way, Top(way, ops), k, c, due) && Steady(l, AfterReceive(l, |data|))
  {
    hide LaneOk, Quiet, Unlisted, ReadDue, WriteDue, Pending;
    ReceivedReturns(l, way, ops, data, Quiet(k, c, due.marked), Unlisted(k), ReadDue(way, due), WriteDue(way, due));
  }

  lemma ReceiveEndsLane(l: Lane, way: Way, ops: nat, k: Core, c: ControlAt, due: Due)
    requires Pumping(l, way, Receiving(way, ops), k, c, due)
    ensures l.held
    ensures Pumping(Release(EndOfStream(l)), way, Draining(way, ops + 1, true), k, c, due) && Steady(l, Release(EndOfStream(l)))
  {
    hide LaneOk, Quiet, Unlisted, ReadDue, WriteDue, Pending;
    ReceiveEnds(l, way, ops, Quiet(k, c, due.marked), Unlisted(k), ReadDue(way, due), WriteDue(way, due));
  }

  lemma ReceiveBlockedLane(l: Lane, way: Way, ops: nat, k: Core, c: ControlAt, due: Due)
    requires Pumping(l, way, Receiving(way, ops), k, c, due)
    requires !l.input
    ensures l.held
    ensures Pumping(Release(l), way, Draining(way, ops + 1, false), k, c, due) && Steady(l, Release(l))
  {
    hide LaneOk, Quiet, Unlisted, ReadDue, WriteDue, Pending;
    ReceiveEnds(l, way, ops, Quiet(k, c, due.marked), Unlisted(k), ReadDue(way, due), WriteDue(way, due));
  }

  function AfterDrain(way: Way, ops: nat, eof: bool): DispatchAt {
    if eof then HalfClosing(way, ops) else Leaving(way, ops)
  }

  lemma DrainPlaces(way: Way, ops: nat, eof: bool)
    ensures OnLane(AfterDrain(way, ops, eof), way) && !AfterDrain(way, ops, eof).NoBuffer? && !AfterDrain(way, ops, eof).Draining?
  {
  }

  lemma DrainEndsLane(l: Lane, way: Way, ops: nat, eof: bool, k: Core, c: ControlAt, due: Due)
    requires Pumping(l, way, Draining(way, ops, eof), k, c, due)
    ensures Pumping(l, way, AfterDrain(way, ops, eof), k, c, due) && Steady(l, l)
  {
    hide LaneOk, Quiet, Unlisted, ReadDue, WriteDue, Pending;
    DrainEnds(l, way, ops, eof, Quiet(k, c, due.marked), Unlisted(k), ReadDue(way, due), WriteDue(way, due));
  }

  lemma HalfCloseEndsLane(l: Lane, way: Way, ops: nat, k: Core, c: ControlAt, due: Due)
    requires Pumping(l, way, HalfClosing(way, ops), k, c, due)
    ensures Pumping(HalfClosed(l), way, Leaving(way, ops), k, c, due) && Steady(l, HalfClosed(l))
  {
    hide LaneOk, Quiet, Unlisted, ReadDue, WriteDue, Pending;
    HalfCloseEnds(l, way, ops, Quiet(k, c, due.marked), Unlisted(k), ReadDue(way, due), WriteDue(way, due));
  }

}

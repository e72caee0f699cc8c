/** The dispatcher lets go of every session it takes up. */
module BridgeProgress {
  import opened Lists
  import opened Bytes
  import opened Lanes
  import opened BridgeState
  import opened BridgeSteps
  import opened BridgeInvariant
  import opened BridgeBystanders
  import opened BridgeOwnership
  import opened BridgeDispatching
  import opened BridgePumpProofs
  import opened BridgeControlProofs
  import opened BridgeHandling
  import opened BridgeFinishing
  import opened BridgeAllocating

  function StopRank(at: StopAt): nat {
    match at
    case StopLock => 2
    case StopAdd => 1
    case StopWake => 0
    case StopShut => 0
  }

  /** What the budget leaves of a lane's turn. */
  function Turn(ops: nat): nat {
    if ops <= 32 then 10 * (32 - ops) else 0
  }

  /** How far the dispatcher is from letting go of its session. */
  function Rank(at: DispatchAt): nat {
    match at
    case Nothing => 0
    case EventIdle => 1
    case EventPut => 2
    case EventConnect => 3
    case EventAdd => 3
    case EventStop(stop, _) => 4 + StopRank(stop)
    case Signalling => 1
    case Releasing(second) => if second then 2 else 3
    case Finishing => 4
    case Failing(stop, _) => 5 + StopRank(stop)
    case CheckDone => 5
    case Leaving(way, _) => LaneRank(way, 8)
    case HalfClosing(way, _) => LaneRank(way, 9)
    case Draining(way, _, _) => LaneRank(way, 10)
    case NoBuffer(way, ops) => LaneRank(way, 19 + Turn(ops))
    case Sending(way, ops) => LaneRank(way, 19 + Turn(ops))
    case Receiving(way, ops) => LaneRank(way, 19 + Turn(ops))
    case Top(way, ops) => LaneRank(way, 20 + Turn(ops))
    case Sent(way, ops, _) => LaneRank(way, 21 + Turn(ops))
    case Received(way, ops, _) => LaneRank(way, 21 + Turn(ops))
    case Taken => 800
  }

  function LaneRank(way: Way, n: nat): nat {
    if way == ToBackend then n + 400 else n
  }

  /** The dispatcher is closer to letting go, or one buffer waiter fewer is left
      to wake. */
  predicate Closer(st: State, st': State) {
    || Rank(st'.dispatcher.at) < Rank(st.dispatcher.at)
    || (st'.dispatcher == st.dispatcher && |st'.waiters| < |st.waiters|)
  }

  lemma InTurn(x: Session, way: Way, d: DispatchAt, c: ControlAt)
    requires SessionInv(x, d, c) && OnLane(d, way)
    ensures InLane(GetLane(x, way), d)
  {
    hide *;
    SessionParts(x, d, c);
    PumpedLane(x, way, d, c, DueOf(x));
    PumpingShape(GetLane(x, way), way, d, x.core, c, DueOf(x));
  }

  lemma PumpingShape(l: Lane, way: Way, d: DispatchAt, k: Core, c: ControlAt, due: Due)
    requires Pumping(l, way, d, k, c, due) && OnLane(d, way)
    ensures InLane(l, d)
  {
    hide Stream, Moves, Quiet, Unlisted, ReadDue, WriteDue, OnLane, InLane;
  }

  lemma TopMoves(st: State, way: Way, ops: nat, r: Reply)
    requires st.dispatcher.session < |st.sessions|
    ensures var at := HandleTop(st, way, ops, r).dispatcher.at;
            at == Leaving(way, ops) || at == Sending(way, ops) || at == Receiving(way, ops) || at == NoBuffer(way, ops)
            || (at.Failing? && at.at == StopLock)
  {
    hide Pending, GetLane, SetLane, TakeReadable, TakeWritable, Acquire;
  }

  lemma TopCloser(st: State, way: Way, ops: nat, r: Reply)
    requires st.dispatcher.session < |st.sessions| && st.dispatcher.at == Top(way, ops)
    ensures Closer(st, HandleTop(st, way, ops, r))
  {
    TopMoves(st, way, ops, r);
    hide HandleTop, Turn;
  }

  lemma SendCloser(st: State, way: Way, ops: nat, r: Reply)
    requires CanHandle(st, r) && st.dispatcher.at == Sending(way, ops) && ops < 32
    ensures Closer(st, HandleSend(st, way, ops, r))
  {
    hide GetLane, SetLane, Send;
  }

  lemma ReceiveCloser(st: State, way: Way, ops: nat, r: Reply)
    requires CanHandle(st, r) && st.dispatcher.at == Receiving(way, ops) && ops < 32
    ensures Closer(st, HandleReceive(st, way, ops, r))
  {
    hide GetLane, SetLane, Receive, EndOfStream, DropBuffer;
  }

  lemma StopCloser(st: State, at: StopAt, status: int)
    requires st.dispatcher.session < |st.sessions|
    ensures st.dispatcher.at == EventStop(at, status) ==> Closer(st, HandleStop(st, at, status, true))
    ensures st.dispatcher.at == Failing(at, status) ==> Closer(st, HandleStop(st, at, status, false))
  {
    hide QueueAdd, StopMark;
  }

  lemma WakeCloser(st: State)
    requires st.waiters != [] && st.waiters[0] < |st.sessions|
    ensures Closer(st, WakeWaiter(st))
  {
    hide Rank, Woken;
  }

  lemma FinishCloser(st: State)
    requires st.dispatcher.session < |st.sessions|
    ensures st.dispatcher.at == Finishing ==> Closer(st, FinishSession(st))
    ensures st.dispatcher.at == Releasing(false) ==> Closer(st, ReleaseSecond(st))
  {
    hide DropBuffer, FinishMark, Remove;
  }

  lemma PutReferences(x: Session, c: ControlAt)
    requires SessionInv(x, EventPut, c)
    ensures x.core.eventRefs == 1
  {
    hide *;
    SessionParts(x, EventPut, c);
    EventDuties(StopLock, 0);
    PutDone(x.core, c, DueOf(x).inLock, BothDone(x));
  }

  lemma FirstWaiterExists(st: State)
    requires Inv(st) && st.waiters != []
    ensures st.waiters[0] < |st.sessions|
  {
    hide *;
    InvParts(st);
    FirstWaiter(st);
  }

  /** Every step of the dispatcher with a session in hand brings it closer to
      letting the session go, whatever the sockets answer: no pump, drain or
      stop goes on for ever. */
  lemma HandleCloser(st: State, r: Reply)
    requires Inv(st) && CanHandle(st, r)
    ensures Closer(st, Handle(st, r))
  {
    var s := st.dispatcher.session;
    var x := st.sessions[s];
    var at := st.dispatcher.at;
    hide Inv, Closer;
    SessionAt(st, s);
    PlaceAt(st, at, s);
    if st.waiters != [] {
      FirstWaiterExists(st);
    }
    if at == EventPut {
      PutReferences(x, ControlOf(st, s));
    }
    if OnLane(at, ToBackend) {
      InTurn(x, ToBackend, at, ControlOf(st, s));
    } else if OnLane(at, ToPublic) {
      InTurn(x, ToPublic, at, ControlOf(st, s));
    }
    hide SessionInv, DispatchOf, ControlOf, Handle;
    if OnLane(at, ToBackend) || OnLane(at, ToPublic) {
      LaneCloser(st, r);
    } else {
      OtherCloser(st, r);
    }
  }

  /** On a lane, the dispatcher has counted its operations. */
  ghost predicate OpsCounted(st: State)
    requires st.dispatcher.session < |st.sessions|
  {
    var at := st.dispatcher.at;
    OnLane(at, ToBackend) || OnLane(at, ToPublic) ==> InLane(GetLane(st.sessions[st.dispatcher.session], at.way), at)
  }

  lemma LaneCloser(st: State, r: Reply)
    requires CanHandle(st, r) && OpsCounted(st) && (st.waiters != [] ==> st.waiters[0] < |st.sessions|)
    requires OnLane(st.dispatcher.at, ToBackend) || OnLane(st.dispatcher.at, ToPublic)
    ensures Closer(st, Handle(st, r))
  {
    hide GetLane, SetLane, HandleTop, HandleSend, HandleReceive, WakeWaiter, WaitForBuffer, QueueAdd, AfterSend, AfterReceive, HalfClosed,
         Pending, Rank;
    match st.dispatcher.at
    case Top(way, ops) => TopCloser(st, way, ops, r);
    case Sending(way, ops) => SendCloser(st, way, ops, r);
    case Sent(way, ops, n) => TransferRanks(way, ops, n, []);
    case Receiving(way, ops) => ReceiveCloser(st, way, ops, r);
    case Received(way, ops, data) => TransferRanks(way, ops, 0, data);
    case Draining(way, ops, eof) =>
      LeaveRanks(way, ops, eof, 0);
      if st.waiters != [] {
        WakeCloser(st);
      }
    case NoBuffer(way, ops) => LeaveRanks(way, ops, false, 0);
    case HalfClosing(way, ops) => LeaveRanks(way, ops, false, if r.Fault? then r.code else 0);
    case Leaving(way, ops) => LeaveRanks(way, ops, false, 0);
  }

  lemma TransferRanks(way: Way, ops: nat, n: nat, data: seq<Byte>)
    ensures Rank(Top(way, ops)) < Rank(Sent(way, ops, n)) && Rank(Top(way, ops)) < Rank(Received(way, ops, data))
  {
  }

  lemma LeaveRanks(way: Way, ops: nat, eof: bool, status: int)
    ensures Rank(Leaving(way, ops)) < Rank(HalfClosing(way, ops)) < Rank(Draining(way, ops, eof))
    ensures Rank(Leaving(way, ops)) < Rank(NoBuffer(way, ops)) && Rank(Failing(StopLock, status)) < Rank(HalfClosing(way, ops))
    ensures way == ToBackend ==> Rank(Top(ToPublic, 0)) < Rank(Leaving(way, ops))
    ensures way == ToPublic ==> Rank(CheckDone) < Rank(Leaving(way, ops))
  {
  }

  lemma OtherCloser(st: State, r: Reply)
    requires CanHandle(st, r) && (st.waiters != [] ==> st.waiters[0] < |st.sessions|)
    requires !OnLane(st.dispatcher.at, ToBackend) && !OnLane(st.dispatcher.at, ToPublic)
    requires st.dispatcher.at == EventPut ==> st.sessions[st.dispatcher.session].core.eventRefs == 1
    ensures Closer(st, Handle(st, r))
  {
    hide GetLane, SetLane, HandleStop, WakeWaiter, QueueAdd, FinishSession, ReleaseSecond;
    match st.dispatcher.at
    case EventStop(stop, status) => StopCloser(st, stop, status);
    case Failing(stop, status) => StopCloser(st, stop, status);
    case Finishing => FinishCloser(st);
    case Releasing(second) =>
      if st.waiters != [] {
        WakeCloser(st);
      } else {
        FinishCloser(st);
      }
    case _ =>
  }

  // ----- over a run -----

  /** What the dispatcher still has to do before it lets its session go. */
  function Left(st: State): nat {
    2 * Rank(st.dispatcher.at) + |st.waiters|
  }

  lemma RemoveShrinks(list: seq<nat>, s: nat)
    ensures |Remove(list, s)| <= |list|
  {
  }

  lemma SameWaiters(st: State, s: nat, way: Way)
    requires s < |st.sessions|
    ensures SelfQueue(st, s).waiters == st.waiters && DropBuffer(st, s, way).waiters == st.waiters
    ensures |WaitForBuffer(st, s, way).waiters| <= |st.waiters| + 1
  {
    hide SetLane, GetLane, Release, AwaitBuffer;
  }

  lemma TopWaiters(st: State, way: Way, ops: nat, r: Reply)
    requires st.dispatcher.session < |st.sessions|
    ensures HandleTop(st, way, ops, r).waiters == st.waiters
  {
    hide SetLane, GetLane, TakeReadable, TakeWritable, Acquire, Pending;
  }

  lemma SendWaiters(st: State, way: Way, ops: nat, r: Reply)
    requires CanHandle(st, r) && st.dispatcher.at == Sending(way, ops)
    ensures HandleSend(st, way, ops, r).waiters == st.waiters
  {
    hide SetLane, Send;
  }

  lemma ReceiveWaiters(st: State, way: Way, ops: nat, r: Reply)
    requires CanHandle(st, r) && st.dispatcher.at == Receiving(way, ops)
    ensures HandleReceive(st, way, ops, r).waiters == st.waiters
  {
    hide SetLane, EndOfStream, Receive, DropBuffer;
    var s := st.dispatcher.session;
    SameWaiters(st, s, way);
    SameWaiters(Put(st, s, SetLane(st.sessions[s], way, EndOfStream(GetLane(st.sessions[s], way)))), s, way);
  }

  lemma StopWaiters(st: State, at: StopAt, status: int, event: bool)
    requires st.dispatcher.session < |st.sessions|
    ensures HandleStop(st, at, status, event).waiters == st.waiters
  {
    hide SelfQueue, StopMark;
    SameWaiters(st, st.dispatcher.session, ToBackend);
  }

  lemma FinishWaiters(st: State)
    requires st.dispatcher.session < |st.sessions|
    ensures |FinishSession(st).waiters| <= |st.waiters| && ReleaseSecond(st).waiters == st.waiters
  {
    var s := st.dispatcher.session;
    RemoveShrinks(st.waiters, s);
    SameWaiters(st, s, ToPublic);
    var x := st.sessions[s];
    var marked := Put(st, s, FinishMark(x)).(waiters := if x.waitQueued then Remove(st.waiters, s) else st.waiters);
    SameWaiters(marked, s, ToBackend);
    SameWaiters(marked, s, ToPublic);
    hide DropBuffer, FinishMark, Remove;
  }

  lemma WakeWaiters(st: State)
    requires st.waiters != [] && st.waiters[0] < |st.sessions|
    ensures |WakeWaiter(st).waiters| < |st.waiters|
  {
    hide Woken;
  }

  /** A step adds at most one waiter. */
  lemma OneWaiter(st: State, r: Reply)
    requires CanHandle(st, r)
    ensures |Handle(st, r).waiters| <= |st.waiters| + 1
  {
    hide SelfQueue, WaitForBuffer, WakeWaiter, HandleTop, HandleSend, HandleReceive, HandleStop, FinishSession, ReleaseSecond,
         AfterSend, AfterReceive, HalfClosed, SetLane, GetLane;
    var s := st.dispatcher.session;
    SameWaiters(st, s, ToBackend);
    SameWaiters(st, s, ToPublic);
    FinishWaiters(st);
    if st.waiters != [] && st.waiters[0] < |st.sessions| {
      WakeWaiters(st);
    }
    match st.dispatcher.at
    case EventStop(at, status) => StopWaiters(st, at, status, true);
    case Failing(at, status) => StopWaiters(st, at, status, false);
    case Top(way, ops) => TopWaiters(st, way, ops, r);
    case Sending(way, ops) => SendWaiters(st, way, ops, r);
    case Receiving(way, ops) => ReceiveWaiters(st, way, ops, r);
    case NoBuffer(way, _) => SameWaiters(st, s, way);
    case _ =>
  }

  lemma HandleLessLeft(st: State, r: Reply)
    requires Inv(st) && CanHandle(st, r)
    ensures Left(Handle(st, r)) < Left(st)
  {
    hide Inv, CanHandle, Handle;
    HandleCloser(st, r);
    OneWaiter(st, r);
  }

  /** How many of the actions from i up to j are the dispatcher's. */
  function Efforts(actions: seq<Action>, i: nat, j: nat): nat
    requires i <= j <= |actions|
  {
    if i == j then 0 else Efforts(actions, i, j - 1) + if actions[j - 1].ByDispatcher? then 1 else 0
  }

  lemma LastEffort(actions: seq<Action>, i: nat, j: nat)
    requires i < j <= |actions|
    ensures Efforts(actions, i, j) == Efforts(actions, i, j - 1) + if actions[j - 1].ByDispatcher? then 1 else 0
  {
  }

  lemma NoEffort(actions: seq<Action>, i: nat)
    requires i <= |actions|
    ensures Efforts(actions, i, i) == 0
  {
  }

  lemma OneAction(st: State, a: Action)
    requires Inv(st) && st.dispatcher.at != Nothing && Can(st, a)
    ensures Left(Do(st, a)) + (if a.ByDispatcher? then 1 else 0) <= Left(st)
  {
    assert PositionInv(st);
    if a.ByDispatcher? {
      assert !CanLoop(st, a.reply);
      hide Inv, Handle, CanHandle;
      HandleLessLeft(st, a.reply);
    } else {
      hide Inv, PositionInv, Do, Can;
      OthersAside(st, a);
      AsideLeft(st, Do(st, a));
    }
  }

  lemma AsideLeft(st: State, st': State)
    requires StandsAside(st, st')
    ensures Left(st') == Left(st)
  {
    hide SessionsAside, Rank;
  }

  /** However the threads interleave and whatever the sockets answer, while the
      dispatcher has a session in hand it takes at most as many steps as it had
      left: no pump, drain or stop goes on for ever. */
  lemma {:induction false} LetsGo(states: seq<State>, actions: seq<Action>, i: nat, j: nat)
    requires IsRun(states, actions) && i <= j < |states|
    requires forall k :: i <= k < j ==> states[k].dispatcher.at != Nothing
    ensures Efforts(actions, i, j) + Left(states[j]) <= Left(states[i])
  {
    hide *;
    RunLength(states, actions);
    if i < j {
      StepOfRun(states, actions, j - 1);
      LetsGo(states, actions, i, j - 1);
      RunInv(states, actions, j - 1);
      OneAction(states[j - 1], actions[j - 1]);
      LastEffort(actions, i, j);
    } else {
      NoEffort(actions, i);
    }
  }
}

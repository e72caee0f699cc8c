/** A run in which sessions wait for a buffer although the budget has one to
    spare: eight sessions hold all sixteen buffers, a ninth waits, and the
    first is cancelled. */
module BridgeScarcity {
  import opened Bytes
  import opened Lanes
  import opened SlotRegistry
  import opened Handles
  import opened BridgeState
  import opened BridgeSteps
  import opened BridgeInvariant
  import opened BridgePumping

  // ----- reaching a state -----

  ghost predicate Reachable(st: State) {
    exists states, actions :: IsRun(states, actions) && states[|actions|] == st
  }

  lemma ReachInitial()
    ensures Reachable(Initial)
  {
    var states, actions: seq<Action> := [Initial], [];
    assert IsRun(states, actions) && states[|actions|] == Initial;
  }

  lemma Reach(st: State, a: Action)
    requires Reachable(st) && Can(st, a)
    ensures Reachable(Do(st, a))
  {
    hide Can, Do;
    var states, actions :| IsRun(states, actions) && states[|actions|] == st;
    var states', actions' := states + [Do(st, a)], actions + [a];
    forall i | 0 <= i < |actions'| ensures IsStep(states'[i], actions'[i], states'[i + 1]) {
      if i < |actions| {
        assert actions'[i] == actions[i];
      }
    }
    assert IsRun(states', actions') && states'[|actions'|] == Do(st, a);
  }

  lemma ReachDispatch(st: State, r: Reply, st': State)
    requires Reachable(st) && ((CanHandle(st, r) && st' == Handle(st, r)) || (CanLoop(st, r) && st' == Loop(st, r)))
    ensures Reachable(st')
  {
    assert Can(st, ByDispatcher(r)) && Do(st, ByDispatcher(r)) == st' by {
      hide Handle, Loop;
    }
    hide *;
    Reach(st, ByDispatcher(r));
  }

  lemma ReachControl(st: State, c: Choice, st': State)
    requires Reachable(st)
    requires || (CanBegin(st, c) && st' == Begin(st, c)) || (CanContinue(st, c) && st' == Continue(st, c))
             || (CanControl(st, c) && st' == Operate(st, c))
    ensures Reachable(st')
  {
    assert Can(st, ByControl(c)) && Do(st, ByControl(c)) == st' by {
      hide Begin, Continue, Operate;
    }
    hide *;
    Reach(st, ByControl(c));
  }

  // ----- starting a session -----

  const Ready: Lane := Idle.(readable := true, writable := true)

  /** A session that runs and has not been pumped yet. */
  predicate Unpumped(x: Session) {
    && x.core.inUse && x.core.running && !x.core.stopping && !x.core.connecting && x.core.readyQueued
    && !x.core.finishedNotified && !x.waitQueued && x.toBackend == Ready && x.toPublic == Ready && !x.publicClosed
    && x.events == multiset{}
  }

  predicate Counting(s: seq<nat>, from: nat, to: nat) {
    from <= to && |s| == to - from && forall i :: 0 <= i < |s| ==> s[i] == from + i
  }

  /** No buffer is in use, nothing waits, and the dispatcher is between rounds. */
  predicate Untouched(st: State) {
    && st.waiters == [] && st.retired == [] && st.bufferBytes == 0 && !st.stopping && st.dispatcher.at == Nothing
    && Counting(st.ready, 0, |st.ready|)
  }

  predicate Slots(r: Registry, n: nat) {
    r.free == [] && |r.slots| == n && Counting(r.active, 0, n)
  }

  const Resting := Control(NoOperation, false, 0, Free)

  /** n sessions have been started, and the dispatcher has not moved. */
  predicate Begun(st: State, n: nat) {
    && |st.sessions| == n && (forall i :: 0 <= i < n ==> Unpumped(st.sessions[i])) && |st.ready| == n
    && Untouched(st) && Slots(st.registry, n) && st.control == Resting
    && st.dispatcher.round == (if n == 0 then Off else Asleep) && (n > 0 ==> st.pending)
  }

  /** The state with its newest session replaced, and the control thread there. */
  function Setup(st: State, x: Session, at: ControlAt): State
    requires st.sessions != []
  {
    var s := |st.sessions| - 1;
    st.(sessions := st.sessions[s := x], control := Control(Starting, false, s, at))
  }

  lemma SetAgain(s: seq<Session>, i: nat, x: Session, y: Session)
    requires i < |s|
    ensures s[i := x][i := y] == s[i := y] && s[i := x][i] == x
  {
  }

  function Opened(x: Session): Session {
    x.(core := x.core.(hostOpen := true))
  }

  function Listened(x: Session): Session {
    x.(core := x.core.(callbacksInstalled := true))
  }

  function Started(x: Session): Session {
    x.(core := x.core.(connecting := false, running := true),
       toBackend := x.toBackend.(readable := true, writable := true),
       toPublic := x.toPublic.(readable := true, writable := true))
  }

  lemma SetupOperates(st: State, x: Session, at: ControlAt)
    requires st.sessions != []
    ensures var st1 := Setup(st, x, at);
            && (at == Opening ==> CanControl(st1, Go) && Operate(st1, Go) == Setup(st, Opened(x), Registering))
            && (at == Registering ==> CanControl(st1, Go) && Operate(st1, Go) == Setup(st, x, Connecting))
            && (at == Connecting ==> CanControl(st1, Go) && Operate(st1, Go) == Setup(st, x, Installing))
  {
    SetAgain(st.sessions, |st.sessions| - 1, x, Opened(x));
  }

  lemma SetupEnds(st: State, x: Session, at: ControlAt)
    requires st.sessions != [] && x.callbacks == multiset{}
    ensures var st1 := Setup(st, x, at);
            && (at == Installing ==> CanControl(st1, Go) && Operate(st1, Go) == Setup(st, Listened(x), Modifying))
            && (at == Modifying ==> CanControl(st1, Go) && Operate(st1, Go) == Setup(st, x, Running))
            && (at == Running ==> CanControl(st1, Go) && Operate(st1, Go) == Setup(st, Started(x), StartAdd))
  {
    SetAgain(st.sessions, |st.sessions| - 1, x, Listened(x));
    SetAgain(st.sessions, |st.sessions| - 1, x, Started(x));
  }

  /** The setup calls, none of which fails. */
  lemma ReachStarted(st: State, x: Session)
    requires st.sessions != [] && x.callbacks == multiset{} && Reachable(Setup(st, x, Opening))
    ensures Reachable(Setup(st, Started(Listened(Opened(x))), StartAdd))
  {
    var x1 := Opened(x);
    var x2 := Listened(x1);
    assert x1.callbacks == multiset{} && x2.callbacks == multiset{};
    hide *;
    SetupOperates(st, x, Opening);
    ReachControl(Setup(st, x, Opening), Go, Operate(Setup(st, x, Opening), Go));
    SetupOperates(st, x1, Registering);
    ReachControl(Setup(st, x1, Registering), Go, Operate(Setup(st, x1, Registering), Go));
    SetupOperates(st, x1, Connecting);
    ReachControl(Setup(st, x1, Connecting), Go, Operate(Setup(st, x1, Connecting), Go));
    SetupEnds(st, x1, Installing);
    ReachControl(Setup(st, x1, Installing), Go, Operate(Setup(st, x1, Installing), Go));
    SetupEnds(st, x2, Modifying);
    ReachControl(Setup(st, x2, Modifying), Go, Operate(Setup(st, x2, Modifying), Go));
    SetupEnds(st, x2, Running);
    ReachControl(Setup(st, x2, Running), Go, Operate(Setup(st, x2, Running), Go));
  }

  function Fresh(n: nat): Session {
    NewSession(Name(n + 1, NextGeneration(0), 1))
  }

  /** One more session, about to be set up. */
  ghost predicate Allocated(st: State, n: nat) {
    && |st.sessions| == n + 1 && (forall i :: 0 <= i < n ==> Unpumped(st.sessions[i])) && |st.ready| == n
    && Untouched(st) && Slots(st.registry, n + 1) && st.dispatcher.round == Asleep
  }

  lemma Allocates(st: State, n: nat)
    requires Begun(st, n) && n < SESSION_LIMIT
    ensures CanBegin(st, BeginStart(Enough))
    ensures var st1 := Begin(st, BeginStart(Enough)); Allocated(st1, n) && st1 == Setup(st1, Fresh(n), Opening)
  {
    hide Unpumped;
  }

  /** Queueing the session and waking the dispatcher. */
  lemma Joins(st: State, n: nat)
    requires Allocated(st, n)
    ensures var st1 := Setup(st, Started(Listened(Opened(Fresh(n)))), StartAdd);
            && CanControl(st1, Go) && CanContinue(Operate(st1, Go), Go) && Begun(Continue(Operate(st1, Go), Go), n + 1)
  {
    var x := Started(Listened(Opened(Fresh(n))));
    assert Unpumped(x.(core := x.core.(readyQueued := true)));
    hide Unpumped;
  }

  lemma {:induction false} ReachBegun(n: nat) returns (st: State)
    requires n <= SESSION_LIMIT
    ensures Reachable(st) && Begun(st, n)
  {
    if n == 0 {
      ReachInitial();
      st := Initial;
    } else {
      st := ReachBegun(n - 1);
      st := OneMore(st, n - 1);
    }
  }

  lemma OneMore(st: State, n: nat) returns (st': State)
    requires Reachable(st) && Begun(st, n) && n < SESSION_LIMIT
    ensures Reachable(st') && Begun(st', n + 1)
  {
    hide *;
    Allocates(st, n);
    ReachControl(st, BeginStart(Enough), Begin(st, BeginStart(Enough)));
    var st1 := Begin(st, BeginStart(Enough));
    FreshIs(n);
    assert st1.sessions != [] by {
      AllocatedSome(st1, n);
    }
    ReachStarted(st1, Fresh(n));
    Joins(st1, n);
    var st2 := Setup(st1, Started(Listened(Opened(Fresh(n)))), StartAdd);
    ReachControl(st2, Go, Operate(st2, Go));
    ReachControl(Operate(st2, Go), Go, Continue(Operate(st2, Go), Go));
    st' := Continue(Operate(st2, Go), Go);
  }

  lemma FreshIs(n: nat)
    ensures Fresh(n).callbacks == multiset{}
  {
  }

  lemma AllocatedSome(st: State, n: nat)
    requires Allocated(st, n)
    ensures st.sessions != []
  {
  }

  // ----- the dispatcher's round -----

  /** A session whose lanes both hold a buffer. */
  predicate Filled(x: Session) {
    && x.core.inUse && x.core.running && !x.core.stopping && !x.core.connecting && !x.core.readyQueued
    && !x.core.finishedNotified && !x.waitQueued && x.toBackend.held && x.toPublic.held
  }

  /** The dispatcher has filled the buffers of the first n of nine sessions. */
  predicate Served(st: State, n: nat) {
    && n <= |st.sessions| == 9 && (forall i :: 0 <= i < n ==> Filled(st.sessions[i])) && (forall i :: n <= i < 9 ==> Unpumped(st.sessions[i]))
    && Counting(st.ready, n, 9) && st.waiters == [] && st.bufferBytes == 2 * BUFFER_LIMIT * n
    && st.control == Resting && Counting(st.registry.active, 0, 9)
    && st.dispatcher.at == Nothing && st.dispatcher.round == Serving(n)
  }

  lemma RoundBegins(st: State)
    requires Begun(st, 9)
    ensures var awake := ToRound(st, Awake).(pending := false);
            && CanLoop(st, Proceed) && Loop(st, Proceed) == awake
            && CanLoop(awake, Proceed) && Loop(awake, Proceed) == ToRound(awake, Retiring(false))
            && CanLoop(ToRound(awake, Retiring(false)), Proceed)
            && Loop(ToRound(awake, Retiring(false)), Proceed) == ToRound(awake, Freeing([], false))
            && CanLoop(ToRound(awake, Freeing([], false)), Proceed)
            && Loop(ToRound(awake, Freeing([], false)), Proceed) == ToRound(awake, Polling)
  {
    hide Unpumped, Counting;
  }

  lemma RoundServes(st: State)
    requires Begun(st, 9)
    ensures var polling := ToRound(ToRound(st, Awake).(pending := false), Polling);
            && CanLoop(polling, Proceed) && Loop(polling, Proceed) == ToRound(polling, Serving(0)) && Served(ToRound(polling, Serving(0)), 0)
  {
    var polling := ToRound(ToRound(st, Awake).(pending := false), Polling);
    assert !HasEvents(polling);
  }

  lemma ReachServing(st: State) returns (st': State)
    requires Reachable(st) && Begun(st, 9)
    ensures Reachable(st') && Served(st', 0)
  {
    hide *;
    RoundBegins(st);
    RoundServes(st);
    var awake := ToRound(st, Awake).(pending := false);
    ReachDispatch(st, Proceed, Loop(st, Proceed));
    ReachDispatch(awake, Proceed, Loop(awake, Proceed));
    ReachDispatch(ToRound(awake, Retiring(false)), Proceed, Loop(ToRound(awake, Retiring(false)), Proceed));
    ReachDispatch(ToRound(awake, Freeing([], false)), Proceed, Loop(ToRound(awake, Freeing([], false)), Proceed));
    ReachDispatch(ToRound(awake, Polling), Proceed, Loop(ToRound(awake, Polling), Proceed));
    st' := ToRound(ToRound(awake, Polling), Serving(0));
  }

  // ----- one session in hand -----

  /** The session in hand replaced, the dispatcher there, so many bytes in use. */
  function Hand(st: State, x: Session, at: DispatchAt, bytes: nat): State
    requires st.dispatcher.session < |st.sessions|
  {
    st.(sessions := st.sessions[st.dispatcher.session := x], dispatcher := st.dispatcher.(at := at), bufferBytes := bytes)
  }

  lemma HandPut(st: State, x: Session, at: DispatchAt, bytes: nat, x': Session, at': DispatchAt, bytes': nat)
    requires st.dispatcher.session < |st.sessions|
    ensures var st1, s := Hand(st, x, at, bytes), st.dispatcher.session;
            && st1.dispatcher.session == s && s < |st1.sessions| && st1.sessions[s] == x && st1.dispatcher.at == at && st1.bufferBytes == bytes
            && Dispatch(Put(st1, s, x'), at') == Hand(st, x', at', bytes)
            && Dispatch(Put(st1, s, x'), at').(bufferBytes := bytes') == Hand(st, x', at', bytes')
            && Dispatch(st1, at') == Hand(st, x, at', bytes)
  {
    SetAgain(st.sessions, st.dispatcher.session, x, x');
  }

  const ONE: seq<Byte> := [0]

  /** The lane through one turn that receives a byte and one that cannot send. */
  function Acquired(): Lane { Acquire(TakeReadable(Ready)) }

  function Loaded(): Lane
    ensures |ONE| <= |Acquired().buffer|
  {
    AfterReceive(Receive(Acquired(), ONE, false), |ONE|)
  }

  lemma LoadedIs()
    ensures !Blocked(Ready) && !Pending(Ready) && !Ready.held
    ensures 0 < |ONE| <= BUFFER_LIMIT && |ONE| <= |Acquired().buffer|
    ensures Pending(Loaded()) && !Blocked(Loaded()) && !TakeWritable(Loaded()).room && TakeWritable(Loaded()).held
  {
  }

  lemma SetTwice(x: Session, way: Way, a: Lane, b: Lane)
    ensures GetLane(SetLane(x, way, a), way) == a && SetLane(SetLane(x, way, a), way, b) == SetLane(x, way, b)
  {
  }

  lemma CanProceed(st: State, at: DispatchAt)
    requires st.dispatcher.session < |st.sessions| && st.dispatcher.at == at
    requires at != Nothing && !at.Sending? && !at.Receiving?
    ensures CanHandle(st, Proceed)
  {
  }

  lemma HandTop(st: State, x: Session, way: Way, ops: nat, bytes: nat)
    requires st.dispatcher.session < |st.sessions| && ops < 32 && !Blocked(GetLane(x, way))
    ensures var st1, l := Hand(st, x, Top(way, ops), bytes), GetLane(x, way);
            && CanHandle(st1, Proceed)
            && (Pending(l) ==> Handle(st1, Proceed) == Hand(st, SetLane(x, way, TakeWritable(l)), Sending(way, ops), bytes))
            && (!Pending(l) && !l.held && bytes + BUFFER_LIMIT > TOTAL_BUFFER_LIMIT ==>
                  Handle(st1, Proceed) == Hand(st, SetLane(x, way, TakeReadable(l)), NoBuffer(way, ops), bytes))
            && (!Pending(l) && !l.held && bytes + BUFFER_LIMIT <= TOTAL_BUFFER_LIMIT ==>
                  Handle(st1, Proceed) == Hand(st, SetLane(x, way, Acquire(TakeReadable(l))), Receiving(way, ops), bytes + BUFFER_LIMIT))
  {
    hide *;
    var st1, l := Hand(st, x, Top(way, ops), bytes), GetLane(x, way);
    HandPut(st, x, Top(way, ops), bytes, SetLane(x, way, TakeWritable(l)), Sending(way, ops), bytes);
    HandPut(st, x, Top(way, ops), bytes, SetLane(x, way, TakeReadable(l)), NoBuffer(way, ops), bytes);
    HandPut(st, x, Top(way, ops), bytes, SetLane(x, way, Acquire(TakeReadable(l))), Receiving(way, ops), bytes + BUFFER_LIMIT);
    CanProceed(st1, Top(way, ops));
    TopHandled(st1, Proceed, way, ops);
  }

  lemma HandReceive(st: State, x: Session, way: Way, ops: nat, bytes: nat)
    requires st.dispatcher.session < |st.sessions| && GetLane(x, way) == Acquired()
    ensures var st1 := Hand(st, x, Receiving(way, ops), bytes);
            && |ONE| <= |Acquired().buffer| && CanHandle(st1, Data(ONE, false))
            && Handle(st1, Data(ONE, false)) ==
                 Hand(st, SetLane(x, way, Receive(Acquired(), ONE, false)), Received(way, ops + 1, ONE), bytes)
  {
    var st1 := Hand(st, x, Receiving(way, ops), bytes);
    LoadedIs();
    HandPut(st, x, Receiving(way, ops), bytes, SetLane(x, way, Receive(Acquired(), ONE, false)), Received(way, ops + 1, ONE), bytes);
    assert CanHandle(st1, Data(ONE, false)) by {
      hide Hand, Acquired, ONE, GetLane, SetLane;
    }
    hide *;
    ReceiveHandled(st1, Data(ONE, false), way, ops);
  }

  lemma HandReceived(st: State, x: Session, way: Way, ops: nat, bytes: nat)
    requires st.dispatcher.session < |st.sessions|
    ensures var st1 := Hand(st, x, Received(way, ops, ONE), bytes);
            && CanHandle(st1, Proceed)
            && Handle(st1, Proceed) == Hand(st, SetLane(x, way, AfterReceive(GetLane(x, way), |ONE|)), Top(way, ops), bytes)
  {
    hide *;
    var st1 := Hand(st, x, Received(way, ops, ONE), bytes);
    HandPut(st, x, Received(way, ops, ONE), bytes, SetLane(x, way, AfterReceive(GetLane(x, way), |ONE|)), Top(way, ops), bytes);
    CanProceed(st1, Received(way, ops, ONE));
    TurnHandled(st1, Proceed);
  }

  lemma HandAgain(st: State, x: Session, way: Way, ops: nat, bytes: nat)
    requires st.dispatcher.session < |st.sessions| && !GetLane(x, way).room
    ensures var st1 := Hand(st, x, Sending(way, ops), bytes);
            CanHandle(st1, Again) && Handle(st1, Again) == Hand(st, x, Leaving(way, ops + 1), bytes)
  {
    var st1 := Hand(st, x, Sending(way, ops), bytes);
    HandPut(st, x, Sending(way, ops), bytes, x, Leaving(way, ops + 1), bytes);
    assert CanHandle(st1, Again) by {
      hide Hand, GetLane;
    }
    hide *;
    SendHandled(st1, Again, way, ops);
  }

  lemma FillLane(st: State, x: Session, way: Way, bytes: nat)
    requires st.dispatcher.session < |st.sessions| && GetLane(x, way) == Ready && bytes + BUFFER_LIMIT <= TOTAL_BUFFER_LIMIT
    requires Reachable(Hand(st, x, Top(way, 0), bytes))
    ensures Reachable(Hand(st, SetLane(x, way, TakeWritable(Loaded())), Leaving(way, 2), bytes + BUFFER_LIMIT))
  {
    LoadedIs();
    LoadedParts();
    hide *;
    var used := bytes + BUFFER_LIMIT;
    var received := Receive(Acquired(), ONE, false);
    var x1, x2, x3 := SetLane(x, way, Acquired()), SetLane(x, way, received), SetLane(x, way, Loaded());
    SetTwice(x, way, Acquired(), received);
    SetTwice(x, way, received, Loaded());
    SetTwice(x, way, Loaded(), TakeWritable(Loaded()));
    SetTwice(x, way, TakeWritable(Loaded()), Ready);
    HandTop(st, x, way, 0, bytes);
    ReachDispatch(Hand(st, x, Top(way, 0), bytes), Proceed, Handle(Hand(st, x, Top(way, 0), bytes), Proceed));
    HandReceive(st, x1, way, 0, used);
    ReachDispatch(Hand(st, x1, Receiving(way, 0), used), Data(ONE, false), Handle(Hand(st, x1, Receiving(way, 0), used), Data(ONE, false)));
    HandReceived(st, x2, way, 1, used);
    ReachDispatch(Hand(st, x2, Received(way, 1, ONE), used), Proceed, Handle(Hand(st, x2, Received(way, 1, ONE), used), Proceed));
    HandTop(st, x3, way, 1, used);
    ReachDispatch(Hand(st, x3, Top(way, 1), used), Proceed, Handle(Hand(st, x3, Top(way, 1), used), Proceed));
    var x4 := SetLane(x, way, TakeWritable(Loaded()));
    HandAgain(st, x4, way, 1, used);
    ReachDispatch(Hand(st, x4, Sending(way, 1), used), Again, Handle(Hand(st, x4, Sending(way, 1), used), Again));
  }

  lemma LoadedParts()
    ensures Acquired() == Acquire(TakeReadable(Ready)) && |ONE| <= |Acquired().buffer|
    ensures Loaded() == AfterReceive(Receive(Acquired(), ONE, false), |ONE|)
  {
  }

  /** Moves of the dispatcher that touch nothing else. */
  lemma HandMoves(st: State, x: Session, bytes: nat, way: Way, ops: nat)
    requires st.dispatcher.session < |st.sessions| && ops < 32
    ensures var st1 := Hand(st, x, Taken, bytes);
            && CanHandle(st1, Proceed)
            && (x.core.inUse && x.core.running && !x.core.stopping ==> Handle(st1, Proceed) == Hand(st, x, Top(ToBackend, 0), bytes))
            && (x.core.inUse && x.core.stopping ==> Handle(st1, Proceed) == Hand(st, x, Finishing, bytes))
    ensures var st1 := Hand(st, x, Leaving(way, ops), bytes);
            CanHandle(st1, Proceed) && Handle(st1, Proceed) == Hand(st, x, if way == ToBackend then Top(ToPublic, 0) else CheckDone, bytes)
    ensures var st1 := Hand(st, x, CheckDone, bytes);
            CanHandle(st1, Proceed) && (!x.publicClosed ==> Handle(st1, Proceed) == Hand(st, x, Nothing, bytes))
  {
  }

  /** The state with its first ready session taken. */
  function Took(st: State, n: nat): State
    requires st.ready != []
  {
    st.(ready := st.ready[1..], dispatcher := Dispatcher(Serving(n + 1), st.ready[0], Nothing))
  }

  function Unready(x: Session): Session {
    x.(core := x.core.(readyQueued := false))
  }

  lemma Takes(st: State, n: nat)
    requires st.dispatcher.at == Nothing && st.dispatcher.round == Serving(n) && n < DISPATCH_BUDGET
    requires st.ready != [] && st.ready[0] < |st.sessions|
    ensures CanLoop(st, Proceed) && Loop(st, Proceed) == Hand(Took(st, n), Unready(st.sessions[st.ready[0]]), Taken, st.bufferBytes)
  {
  }

  function Loading(x: Session, way: Way): Session {
    SetLane(x, way, TakeWritable(Loaded()))
  }

  lemma Unpumps(st: State, n: nat)
    requires Served(st, n) && n < 9
    ensures st.dispatcher.at == Nothing && st.dispatcher.round == Serving(n) && n < DISPATCH_BUDGET && n < |st.sessions|
    ensures st.ready != [] && st.ready[0] == n && (n == 8 ==> st.bufferBytes == TOTAL_BUFFER_LIMIT)
    ensures Took(st, n).dispatcher.session == n && Took(st, n).sessions == st.sessions
    ensures var x := Unready(st.sessions[n]);
            && x.core.inUse && x.core.running && !x.core.stopping && !x.publicClosed && !x.waitQueued
            && GetLane(x, ToBackend) == Ready && GetLane(x, ToPublic) == Ready
            && (forall l :: GetLane(SetLane(x, ToBackend, l), ToPublic) == Ready)
            && !Loading(Loading(x, ToBackend), ToPublic).publicClosed
  {
    assert Unpumped(st.sessions[n]);
  }

  lemma VisitServes(st: State, n: nat)
    requires Served(st, n) && n < 8
    ensures n < |st.sessions| && st.ready != [] && Took(st, n).dispatcher.session < |Took(st, n).sessions|
    ensures st.bufferBytes + BUFFER_LIMIT + BUFFER_LIMIT <= TOTAL_BUFFER_LIMIT
    ensures Served(Hand(Took(st, n), Loading(Loading(Unready(st.sessions[n]), ToBackend), ToPublic), Nothing,
                        st.bufferBytes + BUFFER_LIMIT + BUFFER_LIMIT), n + 1)
  {
    LoadedIs();
    assert Unpumped(st.sessions[n]);
    var y := Loading(Loading(Unready(st.sessions[n]), ToBackend), ToPublic);
    assert Filled(y);
    hide Filled, Unpumped, Loading;
  }

  /** A visit that fills both lanes of a session. */
  lemma Visit(st: State, n: nat) returns (st': State)
    requires Reachable(st) && Served(st, n) && n < 8
    ensures Reachable(st') && Served(st', n + 1)
  {
    hide *;
    var bytes := st.bufferBytes;
    Unpumps(st, n);
    Takes(st, n);
    ReachDispatch(st, Proceed, Loop(st, Proceed));
    VisitServes(st, n);
    var took, x := Took(st, n), Unready(st.sessions[n]);
    HandMoves(took, x, bytes, ToBackend, 2);
    ReachDispatch(Hand(took, x, Taken, bytes), Proceed, Handle(Hand(took, x, Taken, bytes), Proceed));
    FillBoth(took, x, bytes);
    var y := Loading(Loading(x, ToBackend), ToPublic);
    var used := bytes + BUFFER_LIMIT + BUFFER_LIMIT;
    HandMoves(took, y, used, ToPublic, 2);
    ReachDispatch(Hand(took, y, Leaving(ToPublic, 2), used), Proceed, Handle(Hand(took, y, Leaving(ToPublic, 2), used), Proceed));
    ReachDispatch(Hand(took, y, CheckDone, used), Proceed, Handle(Hand(took, y, CheckDone, used), Proceed));
    st' := Hand(took, y, Nothing, used);
  }

  lemma FillBoth(st: State, x: Session, bytes: nat)
    requires st.dispatcher.session < |st.sessions| && bytes + BUFFER_LIMIT + BUFFER_LIMIT <= TOTAL_BUFFER_LIMIT
    requires GetLane(x, ToBackend) == Ready && forall l :: GetLane(SetLane(x, ToBackend, l), ToPublic) == Ready
    requires Reachable(Hand(st, x, Top(ToBackend, 0), bytes))
    ensures Reachable(Hand(st, Loading(Loading(x, ToBackend), ToPublic), Leaving(ToPublic, 2), bytes + BUFFER_LIMIT + BUFFER_LIMIT))
  {
    var used := bytes + BUFFER_LIMIT;
    var x1 := Loading(x, ToBackend);
    assert used <= TOTAL_BUFFER_LIMIT;
    assert GetLane(x1, ToPublic) == Ready;
    assert x1 == SetLane(x, ToBackend, TakeWritable(Loaded())) && Loading(x1, ToPublic) == SetLane(x1, ToPublic, TakeWritable(Loaded()));
    hide *;
    FillLane(st, x, ToBackend, bytes);
    HandMoves(st, x1, used, ToBackend, 2);
    ReachDispatch(Hand(st, x1, Leaving(ToBackend, 2), used), Proceed, Handle(Hand(st, x1, Leaving(ToBackend, 2), used), Proceed));
    FillLane(st, x1, ToPublic, used);
  }

  lemma {:induction false} ReachServed(n: nat) returns (st: State)
    requires n <= 8
    ensures Reachable(st) && Served(st, n)
  {
    hide Reachable, Served, Begun;
    if n == 0 {
      st := ReachBegun(9);
      st := ReachServing(st);
    } else {
      st := ReachServed(n - 1);
      st := Visit(st, n - 1);
    }
  }

  // ----- the ninth session waits -----

  lemma HandWaits(st: State, x: Session, way: Way, bytes: nat)
    requires st.dispatcher.session < |st.sessions|
    ensures var st1, y := Hand(st, x, NoBuffer(way, 0), bytes), SetLane(x, way, AwaitBuffer(GetLane(x, way)));
            && CanHandle(st1, Proceed)
            && (!x.waitQueued ==>
                  Handle(st1, Proceed) ==
                  Hand(st.(waiters := st.waiters + [st.dispatcher.session]), y.(waitQueued := true), Leaving(way, 0), bytes))
            && (x.waitQueued ==> Handle(st1, Proceed) == Hand(st, y, Leaving(way, 0), bytes))
  {
    var y := SetLane(x, way, AwaitBuffer(GetLane(x, way)));
    SetAgain(st.sessions, st.dispatcher.session, x, y);
    SetAgain(st.sessions, st.dispatcher.session, x, y.(waitQueued := true));
  }

  /** Nine sessions, the first holding two buffers, the last waiting, and none
      left in the budget. */
  predicate Starved(st: State) {
    && |st.sessions| == 9 && Filled(st.sessions[0]) && st.ready == [] && st.waiters == [8] && st.bufferBytes == TOTAL_BUFFER_LIMIT
    && st.control == Resting && Counting(st.registry.active, 0, 9)
    && st.dispatcher.at == Nothing && st.dispatcher.round == Serving(9)
  }

  function Waits(x: Session, way: Way): Session {
    SetLane(x, way, AwaitBuffer(TakeReadable(Ready))).(waitQueued := true)
  }

  lemma WaitsIs(x: Session, way: Way)
    ensures SetLane(SetLane(x, way, TakeReadable(Ready)), way, AwaitBuffer(TakeReadable(Ready))).(waitQueued := true) == Waits(x, way)
    ensures Waits(x, way).waitQueued && Waits(x, way).publicClosed == x.publicClosed
    ensures way == ToBackend ==> GetLane(Waits(x, way), ToPublic) == GetLane(x, ToPublic)
    ensures x.waitQueued ==>
              SetLane(SetLane(x, way, TakeReadable(Ready)), way, AwaitBuffer(TakeReadable(Ready))) == Waits(x, way)
    ensures SetLane(x, way, TakeReadable(Ready)).waitQueued == x.waitQueued
  {
  }

  lemma WaitLane(st: State, x: Session, way: Way, bytes: nat)
    requires st.dispatcher.session < |st.sessions| && GetLane(x, way) == Ready && bytes + BUFFER_LIMIT > TOTAL_BUFFER_LIMIT
    requires Reachable(Hand(st, x, Top(way, 0), bytes))
    ensures var st1 := if x.waitQueued then st else st.(waiters := st.waiters + [st.dispatcher.session]);
            Reachable(Hand(st1, Waits(x, way), Leaving(way, 0), bytes))
  {
    LoadedIs();
    hide *;
    var x1 := SetLane(x, way, TakeReadable(Ready));
    HandTop(st, x, way, 0, bytes);
    ReachDispatch(Hand(st, x, Top(way, 0), bytes), Proceed, Handle(Hand(st, x, Top(way, 0), bytes), Proceed));
    SetTwice(x, way, TakeReadable(Ready), Ready);
    WaitsIs(x, way);
    HandWaits(st, x1, way, bytes);
    ReachDispatch(Hand(st, x1, NoBuffer(way, 0), bytes), Proceed, Handle(Hand(st, x1, NoBuffer(way, 0), bytes), Proceed));
  }

  lemma StarvedIs(st: State)
    requires Served(st, 8)
    ensures 8 < |st.sessions| && st.ready != [] && Took(st, 8).dispatcher.session < |Took(st, 8).sessions|
    ensures var waiting := Took(st, 8).(waiters := st.waiters + [8]);
            Starved(Hand(waiting, Waits(Waits(Unready(st.sessions[8]), ToBackend), ToPublic), Nothing, TOTAL_BUFFER_LIMIT))
  {
    hide Unpumped, Filled, Waits;
  }

  lemma ReachStarved() returns (st: State)
    ensures Reachable(st) && Starved(st)
  {
    var bytes := TOTAL_BUFFER_LIMIT;
    assert bytes + BUFFER_LIMIT > TOTAL_BUFFER_LIMIT;
    hide *;
    var full := ReachServed(8);
    Unpumps(full, 8);
    Takes(full, 8);
    ReachDispatch(full, Proceed, Loop(full, Proceed));
    StarvedIs(full);
    var took, x := Took(full, 8), Unready(full.sessions[8]);
    HandMoves(took, x, bytes, ToBackend, 0);
    ReachDispatch(Hand(took, x, Taken, bytes), Proceed, Handle(Hand(took, x, Taken, bytes), Proceed));
    WaitLane(took, x, ToBackend, bytes);
    WaitersTook(full);
    var waiting, y := took.(waiters := full.waiters + [8]), Waits(x, ToBackend);
    WaitsIs(x, ToBackend);
    HandMoves(waiting, y, bytes, ToBackend, 0);
    ReachDispatch(Hand(waiting, y, Leaving(ToBackend, 0), bytes), Proceed, Handle(Hand(waiting, y, Leaving(ToBackend, 0), bytes), Proceed));
    WaitLane(waiting, y, ToPublic, bytes);
    var z := Waits(y, ToPublic);
    WaitsIs(y, ToPublic);
    HandMoves(waiting, z, bytes, ToPublic, 0);
    ReachDispatch(Hand(waiting, z, Leaving(ToPublic, 0), bytes), Proceed, Handle(Hand(waiting, z, Leaving(ToPublic, 0), bytes), Proceed));
    ReachDispatch(Hand(waiting, z, CheckDone, bytes), Proceed, Handle(Hand(waiting, z, CheckDone, bytes), Proceed));
    st := Hand(waiting, z, Nothing, bytes);
  }

  lemma WaitersTook(st: State)
    requires Served(st, 8) && st.ready != []
    ensures Took(st, 8).waiters == st.waiters && 8 < |Took(st, 8).sessions|
  {
  }

  // ----- the first session is cancelled -----

  /** The control thread stands there in the first loop of tcpcc_bridge_cancel. */
  function Cancelling(st: State, todo: seq<nat>, at: ControlAt): State {
    st.(control := Control(CancelStop(todo), false, 0, at))
  }

  function Stopped(x: Session): Session {
    x.(core := StopMark(x.core, -125))
  }

  function Requeued(x: Session): Session {
    x.(core := x.core.(readyQueued := true))
  }

  /** The first session told to stop, and queued. */
  function Cancelled(st: State): State
    requires |st.sessions| == 9
  {
    st.(sessions := st.sessions[0 := Requeued(Stopped(st.sessions[0]))], ready := [0])
  }

  lemma CancelBegins(st: State)
    requires Starved(st)
    ensures var todo := st.registry.active; var st1 := Begin(st, BeginCancelAll);
            && todo != [] && CanBegin(st, BeginCancelAll) && CanContinue(st1, Go)
            && Continue(st1, Go) == Cancelling(st, todo[1..], Stop(StopLock))
  {
    hide Filled;
  }

  lemma CancelQueues(st: State, todo: seq<nat>)
    requires Starved(st)
    ensures var st1 := Cancelling(st, todo, Stop(StopLock));
            && CanControl(st1, Go) && CanControl(Operate(st1, Go), Go)
            && Operate(Operate(st1, Go), Go) == Cancelling(Cancelled(st), todo, Stop(StopWake))
  {
    var x := st.sessions[0];
    SetAgain(st.sessions, 0, Stopped(x), Requeued(Stopped(x)));
  }

  lemma FinishDrops(st: State, x: Session, bytes: nat)
    requires st.dispatcher.session < |st.sessions| && bytes >= BUFFER_LIMIT
    requires x.core.inUse && !x.core.finishedNotified && !x.waitQueued && x.toBackend.held
    ensures var st1 := Hand(st, x, Finishing, bytes);
            && CanHandle(st1, Proceed) && Handle(st1, Proceed).dispatcher.at == Releasing(false)
            && Handle(st1, Proceed).waiters == st.waiters && Handle(st1, Proceed).bufferBytes == bytes - BUFFER_LIMIT
  {
  }

  lemma StoppedIs(st: State, todo: seq<nat>)
    requires Starved(st)
    ensures var st1 := Cancelling(Cancelled(st), todo, Stop(StopWake)); var x := Unready(st1.sessions[0]);
            && st1.dispatcher.at == Nothing && st1.dispatcher.round == Serving(9) && 9 < DISPATCH_BUDGET
            && st1.ready != [] && st1.ready[0] == 0 && st1.bufferBytes == TOTAL_BUFFER_LIMIT >= BUFFER_LIMIT
            && Took(st1, 9).dispatcher.session < |Took(st1, 9).sessions| && Took(st1, 9).waiters == [8]
            && x.core.inUse && x.core.stopping && !x.core.finishedNotified && !x.waitQueued && x.toBackend.held
  {
  }

  /** Waiting and the budget: there are reachable states in which a session waits
      and the budget is used up, and reachable states in which one waits with a
      buffer to spare, and these the dispatcher is about to wake. */
  lemma WaitersWithSpare() returns (scarce: State, spare: State)
    ensures Reachable(scarce) && scarce.waiters != [] && scarce.bufferBytes == TOTAL_BUFFER_LIMIT
    ensures Reachable(spare) && spare.waiters != [] && spare.bufferBytes + BUFFER_LIMIT == TOTAL_BUFFER_LIMIT && Waking(spare.dispatcher.at)
  {
    scarce := ReachStarved();
    assert scarce.waiters != [] && scarce.bufferBytes == TOTAL_BUFFER_LIMIT && Waking(Releasing(false));
    hide *;
    var todo := scarce.registry.active[1..];
    CancelBegins(scarce);
    ReachControl(scarce, BeginCancelAll, Begin(scarce, BeginCancelAll));
    ReachControl(Begin(scarce, BeginCancelAll), Go, Continue(Begin(scarce, BeginCancelAll), Go));
    CancelQueues(scarce, todo);
    ReachControl(Cancelling(scarce, todo, Stop(StopLock)), Go, Operate(Cancelling(scarce, todo, Stop(StopLock)), Go));
    ReachControl(Operate(Cancelling(scarce, todo, Stop(StopLock)), Go), Go, Operate(Operate(Cancelling(scarce, todo, Stop(StopLock)), Go), Go));
    var st := Cancelling(Cancelled(scarce), todo, Stop(StopWake));
    StoppedIs(scarce, todo);
    Takes(st, 9);
    ReachDispatch(st, Proceed, Loop(st, Proceed));
    var took, x := Took(st, 9), Unready(st.sessions[0]);
    HandMoves(took, x, st.bufferBytes, ToBackend, 0);
    ReachDispatch(Hand(took, x, Taken, st.bufferBytes), Proceed, Handle(Hand(took, x, Taken, st.bufferBytes), Proceed));
    FinishDrops(took, x, st.bufferBytes);
    ReachDispatch(Hand(took, x, Finishing, st.bufferBytes), Proceed, Handle(Hand(took, x, Finishing, st.bufferBytes), Proceed));
    spare := Handle(Hand(took, x, Finishing, st.bufferBytes), Proceed);
  }
}

/** Every step of the dispatcher's main loop keeps the invariant. */
module BridgeLooping {
  import opened SlotRegistry
  import opened BridgeState
  import opened BridgeSteps
  import opened BridgeInvariant
  import opened BridgeOwnership
  import opened BridgeSessionProofs
  import opened BridgeFinishProofs
  import opened BridgeControlProofs
  import opened BridgeFrames
  import opened BridgeHandling
  import opened BridgeDispatching

  lemma SessionsKept(st: State, st': State)
    requires SessionsInv(st) && st'.sessions == st.sessions && st'.control == st.control
    requires st'.dispatcher.session == st.dispatcher.session && st'.dispatcher.at == st.dispatcher.at
    ensures SessionsInv(st')
  {
    hide SessionInv;
    forall t: nat | t < |st'.sessions| ensures SessionOk(st', t) {
      assert SessionOk(st, t);
      assert DispatchOf(st', t) == DispatchOf(st, t) && ControlOf(st', t) == ControlOf(st, t);
    }
  }

  lemma TablesKept(st: State, st': State)
    requires TablesInv(st) && st'.sessions == st.sessions && st'.ready == st.ready && SameLists(st, st')
    ensures TablesInv(st')
  {
    hide *;
    TablesParts(st);
    SameListsParts(st, st');
    TablesOf(st');
  }

  lemma PositionBetween(st: State, st': State)
    requires PositionInv(st) && st.dispatcher.at == Nothing && |st'.sessions| == |st.sessions| && st'.control == st.control
    requires st'.dispatcher.at == Nothing
    ensures PositionInv(st')
  {
  }

  lemma ScarceBetween(st: State, st': State)
    requires ScarceInv(st) && st.dispatcher.at == Nothing && st'.dispatcher.at == Nothing
    requires st'.waiters == st.waiters && st'.bufferBytes == st.bufferBytes
    ensures ScarceInv(st')
  {
  }

  /** The main loop moves on; no session changes. */
  lemma RoundStep(st: State, st': State)
    requires Inv(st) && st.dispatcher.at == Nothing
    requires st' == st.(dispatcher := st.dispatcher.(round := st'.dispatcher.round), pending := st'.pending, retired := st'.retired)
    requires Unfreed(st') == Unfreed(st) && Alert(st')
    requires HaltInv(st.control, st'.dispatcher.round, st.stopping, st.registry.active, st'.retired)
    ensures Inv(st')
  {
    hide Inv, SessionsInv, TablesInv, ScarceInv, PositionInv, Alert, OperationInv, Unfreed, HaltInv;
    InvParts(st);
    SessionsKept(st, st');
    RoundLists(st, st');
    TablesKept(st, st');
    PositionBetween(st, st');
    ScarceBetween(st, st');
    RoundOperation(st, st');
    InvOf(st');
  }

  lemma RoundLists(st: State, st': State)
    requires st' == st.(dispatcher := st.dispatcher.(round := st'.dispatcher.round), pending := st'.pending, retired := st'.retired)
    requires Unfreed(st') == Unfreed(st)
    ensures SameLists(st, st')
  {
    hide Unfreed;
  }

  lemma RoundOperation(st: State, st': State)
    requires OperationInv(st) && st'.sessions == st.sessions && st'.control == st.control && st'.registry == st.registry
    requires HaltInv(st'.control, st'.dispatcher.round, st'.stopping, st'.registry.active, st'.retired)
    ensures OperationInv(st')
  {
    hide CancelInv, HaltInv;
  }

  lemma HaltParts(st: State)
    requires OperationInv(st)
    ensures HaltInv(st.control, st.dispatcher.round, st.stopping, st.registry.active, st.retired)
  {
    hide CancelInv, HaltInv;
  }

  // ----- waking up, retiring, polling, sleeping -----

  /** A queued session is bound, so an empty registry leaves nothing to do. */
  lemma QueuedIsActive(st: State, s: nat)
    requires Inv(st) && s in st.ready
    ensures s in st.registry.active
  {
    InvParts(st);
    hide Inv;
    TablesParts(st);
    assert s < |st.sessions| && st.sessions[s].core.readyQueued by {
      hide TablesInv, SessionsInv, Alert, OperationInv, ScarceInv, PositionInv, RegistryInv, BudgetInv;
      MirrorMember(st.ready, ReadyMarks(st.sessions), s);
    }
    hide *;
    SessionAt(st, s);
    SessionParts(st.sessions[s], DispatchOf(st, s), ControlOf(st, s));
    QueuedIsBound(st.sessions[s].core, DutyOf(DispatchOf(st, s)), ControlOf(st, s), DueOf(st.sessions[s]).inLock, BothDone(st.sessions[s]));
    MarksAt(st.sessions, s);
    BoundIsActive(st.registry, BoundMarks(st.sessions), Names(st.sessions), s);
  }

  lemma MirrorMember(list: seq<nat>, marks: seq<bool>, s: nat)
    requires Mirrors(list, marks)
    ensures s in list <==> s < |marks| && marks[s]
  {
  }

  lemma QueuedIsBound(k: Core, y: Duty, c: ControlAt, inLock: bool, bothDone: bool)
    requires Ownership(k, y, c, inLock, bothDone) && k.readyQueued
    ensures k.bound
  {
    hide Completion, References, Stops;
  }

  lemma BoundIsActive(r: Registry, bound: seq<bool>, names: seq<Name>, s: nat)
    requires RegistryInv(r, bound, names) && s < |bound|
    ensures bound[s] <==> s in r.active
  {
    hide Partitioned, NamesInv;
  }

  lemma HaltWakes(o: Control, stopping: bool, active: seq<nat>, retired: seq<nat>)
    ensures HaltInv(o, Asleep, stopping, active, retired) ==> HaltInv(o, Awake, stopping, active, retired)
    ensures HaltInv(o, Awake, stopping, active, retired) ==>
              HaltInv(o, Retiring(stopping), stopping, active, retired) && (stopping ==> active == [])
  {
  }

  lemma AwakeAlert(st: State)
    requires st.dispatcher.round.Awake? || (st.dispatcher.round.Retiring? && (st.dispatcher.round.last ==> st.ready == []))
    ensures Alert(st)
  {
    hide HasEvents, HasAdded, ControlWakes;
  }

  lemma HaltSplices(o: Control, last: bool, stopping: bool, active: seq<nat>, retired: seq<nat>)
    requires HaltInv(o, Retiring(last), stopping, active, retired)
    ensures HaltInv(o, Freeing(retired, last), stopping, active, [])
  {
  }

  lemma SpliceAlert(st: State, st': State)
    requires Alert(st) && st.dispatcher.round.Retiring?
    requires st' == ToRound(st, Freeing(st.retired, st.dispatcher.round.last)).(retired := [])
    ensures Alert(st')
  {
    hide HasAdded, ControlWakes;
  }

  lemma HaltFreed(o: Control, last: bool, stopping: bool, active: seq<nat>, retired: seq<nat>)
    requires HaltInv(o, Freeing([], last), stopping, active, retired)
    ensures HaltInv(o, if last then Exited else Polling, stopping, active, retired)
  {
  }

  lemma FreedAlert(st: State, st': State, last: bool)
    requires Alert(st) && st.dispatcher.round == Freeing([], last) && st' == ToRound(st, if last then Exited else Polling)
    ensures Alert(st')
  {
    hide HasAdded, ControlWakes;
  }

  lemma HaltServes(o: Control, stopping: bool, active: seq<nat>, retired: seq<nat>)
    requires HaltInv(o, Polling, stopping, active, retired)
    ensures HaltInv(o, Serving(0), stopping, active, retired)
  {
  }

  lemma ServeAlert(st: State, st': State)
    requires Alert(st) && st.dispatcher.round == Polling && !HasEvents(st) && st' == ToRound(st, Serving(0))
    ensures Alert(st')
  {
    hide HasAdded, ControlWakes;
  }

  lemma HaltSleeps(o: Control, n: nat, stopping: bool, active: seq<nat>, retired: seq<nat>)
    requires HaltInv(o, Serving(n), stopping, active, retired)
    ensures HaltInv(o, Asleep, stopping, active, retired)
  {
  }

  lemma SleepAlert(st: State, st': State, n: nat)
    requires Alert(st) && st.dispatcher.round == Serving(n) && st' == ToRound(st, Asleep).(pending := st'.pending)
    requires st'.pending || (st.ready == [] && st'.pending == st.pending)
    ensures Alert(st')
  {
    hide HasAdded, ControlWakes;
  }

  lemma RoundHandled(st: State, r: Reply)
    requires CanLoop(st, r)
    ensures var round := st.dispatcher.round;
            && st.dispatcher.at == Nothing && (round == Asleep ==> st.pending || st.stopping)
            && (round == Asleep ==> Loop(st, r) == ToRound(st, Awake).(pending := false))
            && (round == Awake ==> Loop(st, r) == ToRound(st, Retiring(st.stopping)))
            && (round.Retiring? ==> Loop(st, r) == ToRound(st, Freeing(st.retired, round.last)).(retired := []))
            && (round.Freeing? && round.rest == [] ==> Loop(st, r) == ToRound(st, if round.last then Exited else Polling))
            && (round == Polling && !r.Poll? ==> !HasEvents(st) && Loop(st, r) == ToRound(st, Serving(0)))
            && (round.Serving? && round.dispatched >= DISPATCH_BUDGET ==> Loop(st, r) == ToRound(st, Asleep).(pending := true))
            && (round.Serving? && round.dispatched < DISPATCH_BUDGET && st.ready == [] ==> Loop(st, r) == ToRound(st, Asleep))
  {
  }

  lemma RoundParts(st: State, st': State)
    requires st' == ToRound(st, st'.dispatcher.round).(pending := st'.pending, retired := st'.retired)
    ensures st' == st.(dispatcher := st.dispatcher.(round := st'.dispatcher.round), pending := st'.pending, retired := st'.retired)
    ensures st'.retired == st.retired && !st.dispatcher.round.Freeing? && !st'.dispatcher.round.Freeing? ==> Unfreed(st') == Unfreed(st)
    ensures !st.dispatcher.round.Freeing? && st'.dispatcher.round.Freeing? && st'.dispatcher.round.rest == st.retired && st'.retired == [] ==>
              Unfreed(st') == Unfreed(st)
    ensures st.dispatcher.round.Freeing? && st.dispatcher.round.rest == [] && !st'.dispatcher.round.Freeing? && st'.retired == st.retired ==>
              Unfreed(st') == Unfreed(st)
  {
  }

  /** Waking up, splicing the retired list, polling done, going to sleep. */
  lemma BetweenStep(st: State, r: Reply)
    requires Inv(st) && CanLoop(st, r)
    requires var round := st.dispatcher.round;
             || round == Asleep || round == Awake || round.Retiring? || (round.Freeing? && round.rest == []) || (round == Polling && !r.Poll?)
             || (round.Serving? && (round.dispatched >= DISPATCH_BUDGET || st.ready == []))
    ensures Inv(Loop(st, r))
  {
    hide *;
    var round, st' := st.dispatcher.round, Loop(st, r);
    InvParts(st);
    HaltParts(st);
    RoundHandled(st, r);
    ToRoundIs(st, st'.dispatcher.round);
    if round == Asleep {
      ToRoundIs(st, Awake);
      HaltWakes(st.control, st.stopping, st.registry.active, st.retired);
      AwakeAlert(st');
    } else if round == Awake {
      ToRoundIs(st, Retiring(st.stopping));
      HaltWakes(st.control, st.stopping, st.registry.active, st.retired);
      if st.stopping && st.ready != [] {
        assert st.ready[0] in st.ready;
        QueuedIsActive(st, st.ready[0]);
      }
      AwakeAlert(st');
    } else if round.Retiring? {
      ToRoundIs(st, Freeing(st.retired, round.last));
      HaltSplices(st.control, round.last, st.stopping, st.registry.active, st.retired);
      SpliceAlert(st, st');
    } else if round.Freeing? {
      ToRoundIs(st, if round.last then Exited else Polling);
      HaltFreed(st.control, round.last, st.stopping, st.registry.active, st.retired);
      FreedAlert(st, st', round.last);
    } else if round == Polling {
      ToRoundIs(st, Serving(0));
      HaltServes(st.control, st.stopping, st.registry.active, st.retired);
      ServeAlert(st, st');
    } else {
      ToRoundIs(st, Asleep);
      HaltSleeps(st.control, round.dispatched, st.stopping, st.registry.active, st.retired);
      SleepAlert(st, st', round.dispatched);
    }
    RoundParts(st, st');
    RoundStep(st, st');
  }

  lemma ToRoundIs(st: State, round: Round)
    ensures ToRound(st, round) == st.(dispatcher := st.dispatcher.(round := round))
  {
  }

  // ----- freeing one retired session -----

  lemma FreeTables(st: State, st': State, t: nat, x: Session, rest: seq<nat>, last: bool)
    requires TablesInv(st) && st.dispatcher.round == Freeing(rest, last) && rest != [] && t == rest[0] && t < |st.sessions|
    requires x == st.sessions[t].(core := st.sessions[t].core.(freed := true))
    requires st' == st.(sessions := st.sessions[t := x], dispatcher := st.dispatcher.(round := Freeing(rest[1..], last)))
    ensures TablesInv(st')
  {
    hide TablesInv, Mirrors, RegistryInv, BudgetInv, HeldCount, RetiredMarks, ReadyMarks, WaitMarks, BoundMarks, Names;
    TablesParts(st);
    MarkDrop(st.retired, rest, RetiredMarks(st.sessions));
    MarksUpdate(st.sessions, t, x);
    MarksKept(st.sessions, t, x);
    HeldCountUpdate(st.sessions, t, x);
    TablesOf(st');
  }

  lemma FirstRetired(st: State, rest: seq<nat>, last: bool)
    requires TablesInv(st) && st.dispatcher.round == Freeing(rest, last) && rest != []
    ensures rest[0] < |st.sessions| && st.sessions[rest[0]].core.retired
  {
    hide TablesInv, Mirrors, RegistryInv, BudgetInv, HeldCount;
    TablesParts(st);
    MarkDrop(st.retired, rest, RetiredMarks(st.sessions));
  }

  lemma FreeAlert(st: State, st': State, t: nat, x: Session, rest: seq<nat>, last: bool)
    requires Alert(st) && st.dispatcher.round == Freeing(rest, last) && rest != [] && t < |st.sessions|
    requires SameNotices(st.sessions[t], x)
    requires st' == st.(sessions := st.sessions[t := x], dispatcher := st.dispatcher.(round := Freeing(rest[1..], last)))
    ensures Alert(st')
  {
    hide HasAdded, ControlWakes, HasEvents, SameNotices;
    SameSounds(st, t, x, st');
  }

  lemma FreeOperation(st: State, st': State, t: nat, x: Session, rest: seq<nat>, last: bool)
    requires OperationInv(st) && st.dispatcher.round == Freeing(rest, last) && rest != [] && t < |st.sessions|
    requires x.core.stopping == st.sessions[t].core.stopping
    requires st' == st.(sessions := st.sessions[t := x], dispatcher := st.dispatcher.(round := Freeing(rest[1..], last)))
    ensures OperationInv(st')
  {
    hide CancelInv;
    MarksKept(st.sessions, t, x);
  }

  lemma CoreNotices(x: Session, k: Core)
    ensures SameNotices(x, x.(core := k))
  {
  }

  lemma IdleHands(st: State, t: nat)
    requires st.dispatcher.at == Nothing
    ensures DispatchOf(st, t) == Nothing
  {
  }

  lemma FreeingStep(st: State, rest: seq<nat>, last: bool)
    requires Inv(st) && st.dispatcher.at == Nothing && st.dispatcher.round == Freeing(rest, last) && rest != []
    ensures rest[0] < |st.sessions|
    ensures Inv(st.(sessions := st.sessions[rest[0] := st.sessions[rest[0]].(core := st.sessions[rest[0]].core.(freed := true))],
                    dispatcher := st.dispatcher.(round := Freeing(rest[1..], last))))
  {
    hide *;
    InvParts(st);
    FirstRetired(st, rest, last);
    var t := rest[0];
    var x := st.sessions[t].(core := st.sessions[t].core.(freed := true));
    var st' := st.(sessions := st.sessions[t := x], dispatcher := st.dispatcher.(round := Freeing(rest[1..], last)));
    SessionAt(st, t);
    IdleHands(st, t);
    IdleHands(st', t);
    var y, c := st.sessions[t], ControlOf(st, t);
    SessionParts(y, Nothing, c);
    LocalParts(y, Nothing, c, DueOf(y));
    AwayDuty();
    KFreed(y.core, DueOf(y).inLock, BothDone(y), c);
    NothingCarries();
    FreeQuiet(y.core, c, DueOf(y).marked);
    LocalCarries(y, x.core, Nothing, Nothing, c, c, DueOf(y));
    CoreNotices(y, x.core);
    Lift(y, x, Nothing, c);
    SameControl(st, st', t);
    SameDispatcher(st, st', t);
    FrameSessions(st, st', t, x);
    FreeTables(st, st', t, x, rest, last);
    PositionBetween(st, st');
    ScarceBetween(st, st');
    FreeAlert(st, st', t, x, rest, last);
    FreeOperation(st, st', t, x, rest, last);
    InvOf(st');
  }

  lemma SameDispatcher(st: State, st': State, t: nat)
    requires st'.dispatcher.session == st.dispatcher.session && st'.dispatcher.at == st.dispatcher.at && st'.control == st.control
    ensures DispatcherOn(st.dispatcher, st'.dispatcher, t) && ControlOn(st.control, st'.control, t)
  {
  }

  // ----- taking a session from the ready queue -----

  function TakenSession(x: Session): Session {
    x.(core := x.core.(readyQueued := false))
  }

  function TakenState(st: State, n: nat): State
    requires st.ready != [] && st.ready[0] < |st.sessions|
  {
    var s := st.ready[0];
    st.(sessions := st.sessions[s := TakenSession(st.sessions[s])], ready := st.ready[1..],
        dispatcher := Dispatcher(Serving(n + 1), s, Taken))
  }

  lemma FirstReady(st: State)
    requires TablesInv(st) && st.ready != []
    ensures st.ready[0] < |st.sessions| && st.sessions[st.ready[0]].core.readyQueued
    ensures Mirrors(st.ready[1..], ReadyMarks(st.sessions)[st.ready[0] := false]) && |ReadyMarks(st.sessions)| == |st.sessions|
  {
    hide Mirrors, TablesInv;
    TablesParts(st);
    MarkPop(st.ready, ReadyMarks(st.sessions));
  }

  lemma TakenLinks(x: Session)
    ensures var y := TakenSession(x);
            SameNotices(x, y) && SameLinks(x, y) && y.core.stopping == x.core.stopping && !y.core.readyQueued
  {
  }

  lemma TakenTables(st: State, n: nat)
    requires TablesInv(st) && st.ready != [] && st.ready[0] < |st.sessions| && st.dispatcher.round == Serving(n)
    ensures TablesInv(TakenState(st, n))
  {
    hide TablesInv, Mirrors, SameLinks, SameLists, TakenSession, SameNotices, ReadyMarks;
    var s := st.ready[0];
    var x := TakenSession(st.sessions[s]);
    var st' := TakenState(st, n);
    FirstReady(st);
    TakenLinks(st.sessions[s]);
    MarksUpdate(st.sessions, s, x);
    TakenLists(st, n);
    FrameTables(st, st', s, x);
  }

  lemma TakenLists(st: State, n: nat)
    requires st.ready != [] && st.ready[0] < |st.sessions| && st.dispatcher.round == Serving(n)
    ensures SameLists(st, TakenState(st, n))
  {
  }

  lemma TakenAlert(st: State, n: nat)
    requires Alert(st) && st.ready != [] && st.ready[0] < |st.sessions| && st.dispatcher.round == Serving(n)
    ensures Alert(TakenState(st, n))
  {
    hide HasAdded, ControlWakes, HasEvents, SameNotices, TakenSession, SameLinks;
    var s := st.ready[0];
    TakenLinks(st.sessions[s]);
    SameSounds(st, s, TakenSession(st.sessions[s]), TakenState(st, n));
  }

  lemma TakenOperation(st: State, n: nat)
    requires OperationInv(st) && st.ready != [] && st.ready[0] < |st.sessions| && st.dispatcher.round == Serving(n)
    ensures OperationInv(TakenState(st, n))
  {
    hide CancelInv, TakenSession, SameNotices, SameLinks;
    var s := st.ready[0];
    TakenLinks(st.sessions[s]);
    MarksKept(st.sessions, s, TakenSession(st.sessions[s]));
  }

  lemma TakenPosition(st: State, n: nat)
    requires PositionInv(st) && ScarceInv(st) && st.dispatcher.at == Nothing && st.ready != [] && st.ready[0] < |st.sessions|
    ensures PositionInv(TakenState(st, n)) && ScarceInv(TakenState(st, n))
  {
  }

  lemma TakenPlace(st: State, n: nat, s: nat)
    requires st.ready != [] && st.ready[0] < |st.sessions| && s == st.ready[0] && st.dispatcher.at == Nothing
    ensures var st' := TakenState(st, n);
            && DispatchOf(st', s) == Taken && ControlOf(st', s) == ControlOf(st, s)
            && DispatcherOn(st.dispatcher, st'.dispatcher, s) && ControlOn(st.control, st'.control, s)
            && st'.sessions == st.sessions[s := TakenSession(st.sessions[s])]
  {
  }

  lemma TakenSessionInv(x: Session, c: ControlAt)
    requires SessionInv(x, Nothing, c) && x.core.readyQueued
    ensures SessionInv(TakenSession(x), Taken, c)
  {
    hide Local, DueOf, SameLinks;
    TakenFromReadyLocal(x, c, DueOf(x));
    TakenLinks(x);
    hide SameNotices;
    Lift(x, TakenSession(x), Taken, c);
  }

  lemma TakeStep(st: State, n: nat)
    requires Inv(st) && st.dispatcher.at == Nothing && st.dispatcher.round == Serving(n) && st.ready != []
    ensures st.ready[0] < |st.sessions| && Inv(TakenState(st, n))
  {
    hide *;
    InvParts(st);
    FirstReady(st);
    var s := st.ready[0];
    SessionAt(st, s);
    IdleHands(st, s);
    TakenSessionInv(st.sessions[s], ControlOf(st, s));
    TakenPlace(st, n, s);
    FrameSessions(st, TakenState(st, n), s, TakenSession(st.sessions[s]));
    TakenTables(st, n);
    TakenPosition(st, n);
    TakenAlert(st, n);
    TakenOperation(st, n);
    InvOf(TakenState(st, n));
  }
}

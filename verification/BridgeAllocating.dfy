/** Allocating a session keeps the invariant, and every run does. */
module BridgeAllocating {
  import opened Lists
  import opened Lanes
  import opened SlotRegistry
  import opened Handles
  import opened BridgeState
  import opened BridgeSteps
  import opened BridgeInvariant
  import opened BridgeSessionProofs
  import opened BridgeFinishProofs
  import opened BridgeControlProofs
  import opened BridgeFrames
  import opened BridgeHandling
  import opened BridgeRounds
  import opened BridgeWorld
  import opened BridgeControl
  import opened BridgeOperations
  import opened BridgeStarting

  // ----- the registry -----

  predicate HasSlot(r: Registry) {
    NextSlot(r).Some? && (r.free != [] ==> 1 <= r.free[0] <= |r.slots|)
  }

  function NewName(r: Registry, s: nat): Name
    requires HasSlot(r)
  {
    var slot := NextSlot(r).value;
    var entry := Bind(r, s).slots[slot - 1];
    Name(slot, entry.generation, entry.count)
  }

  lemma BindOthers(r: Registry, s: nat)
    requires HasSlot(r)
    ensures var r', id := Bind(r, s), NextSlot(r).value;
            && |r'.slots| >= |r.slots| && 1 <= id <= |r'.slots|
            && (forall i :: 0 <= i < |r.slots| && i != id - 1 ==> r'.slots[i] == r.slots[i])
            && (1 <= id <= |r.slots| ==> r'.slots[id - 1].count == r.slots[id - 1].count + 1)
            && r'.slots[id - 1].count >= 1
            && r'.home == r.home[s := id] && r'.active == r.active + [s]
  {
  }

  lemma OldNamesKept(r: Registry, names: seq<Name>)
    requires Partitioned(r) && NamesInv(r, names) && HasSlot(r)
    ensures forall t :: t in r.active ==> names[t].slot != NextSlot(r).value
  {
    NextSlotRange(r);
    hide FreeListed, Counted;
    forall t | t in r.active ensures names[t].slot != NextSlot(r).value {
      assert Lookup(r, r.home[t]) == Some(t);
    }
  }

  lemma NewNameOk(r: Registry, s: nat)
    requires Partitioned(r) && HasSlot(r) && s !in r.active
    ensures NameOk(Bind(r, s), NewName(r, s), s)
  {
    hide FreeListed, Bound;
    BindPartitions(r, s);
    BindOthers(r, s);
    hide Bind;
  }

  lemma BindNames(r: Registry, names: seq<Name>)
    requires Partitioned(r) && NamesInv(r, names) && HasSlot(r) && |names| !in r.active
    ensures NamesInv(Bind(r, |names|), names + [NewName(r, |names|)])
  {
    var s := |names|;
    var r', names' := Bind(r, s), names + [NewName(r, s)];
    NamesDiffer(r, names);
    hide NoDup;
    OldNamesKept(r, names);
    forall t | 0 <= t < |names'| ensures NameOk(r', names'[t], t) {
      if t < s {
        OldNameOk(r, s, names[t], t);
      } else {
        NewNameOk(r, s);
      }
    }
    hide NameOk;
    forall t | t in r'.active ensures NameCurrent(r', names', t) {
      if t in r.active {
        OldNameCurrent(r, s, names, t);
      } else {
        BindParts(r, s);
        NewNameParts(r, s);
      }
    }
  }

  lemma NamesDiffer(r: Registry, names: seq<Name>)
    requires NamesInv(r, names) && HasSlot(r)
    ensures NoDup(names + [NewName(r, |names|)])
  {
    var name := NewName(r, |names|);
    BindOthers(r, |names|);
    NewNameParts(r, |names|);
    hide Bind, NewName, GenerationAfter;
    forall t | 0 <= t < |names| ensures names[t] != name {
      assert NameOk(r, names[t], t);
    }
    AppendNoDup(names, name);
  }

  lemma OldNameOk(r: Registry, s: nat, name: Name, t: nat)
    requires HasSlot(r) && NameOk(r, name, t) && t != s
    ensures NameOk(Bind(r, s), name, t)
  {
    BindOthers(r, s);
    hide Bind, GenerationAfter;
  }

  lemma OldNameCurrent(r: Registry, s: nat, names: seq<Name>, t: nat)
    requires HasSlot(r) && NameCurrent(r, names, t) && names[t].slot != NextSlot(r).value
    ensures NameCurrent(Bind(r, s), names + [NewName(r, s)], t)
  {
    BindOthers(r, s);
    hide Bind, NewName;
  }

  lemma NewNameParts(r: Registry, s: nat)
    requires HasSlot(r)
    ensures NewName(r, s).slot == NextSlot(r).value
    ensures 1 <= NewName(r, s).slot <= |Bind(r, s).slots| && NewName(r, s).ordinal == Bind(r, s).slots[NewName(r, s).slot - 1].count
  {
  }

  lemma BindMarks(active: seq<nat>, bound: seq<bool>)
    requires Mirrors(active, bound)
    ensures |bound| !in active && Mirrors(active + [|bound|], bound + [true])
  {
    AppendNoDup(active, |bound|);
  }

  lemma BindRegistry(r: Registry, bound: seq<bool>, names: seq<Name>)
    requires RegistryInv(r, bound, names) && HasSlot(r) && |names| == |bound|
    ensures RegistryInv(Bind(r, |names|), bound + [true], names + [NewName(r, |names|)])
    ensures Bind(r, |names|).active == r.active + [|names|]
  {
    hide Partitioned, Mirrors, NamesInv, Bind, NewName;
    var s := |names|;
    BindMarks(r.active, bound);
    BindParts(r, s);
    BindNames(r, names);
  }

  lemma BindParts(r: Registry, s: nat)
    requires Partitioned(r) && HasSlot(r) && s !in r.active
    ensures Partitioned(Bind(r, s)) && Bind(r, s).active == r.active + [s]
  {
    hide Partitioned;
    BindPartitions(r, s);
  }

  // ----- the new session -----

  lemma NewOwned(name: Name)
    ensures Ownership(NewSession(name).core, Away, Opening, false, false)
  {
  }

  lemma NewLane(way: Way, due: Due)
    ensures Settled(Idle, way, Nothing, due)
  {
    assert Stream(Idle, way, Nothing, false) by { hide Shape, Moves; }
    assert Shape(Idle, way, Nothing, false) by { hide Stream, Moves; }
    hide Stream, Shape, ReadDue, WriteDue;
  }

  lemma NewParts(name: Name)
    ensures var x := NewSession(name);
            && !x.core.running && x.toBackend == Idle && x.toPublic == Idle && Marks(x) && !BothDone(x) && !DueOf(x).inLock
            && !x.core.readyQueued && !x.waitQueued && !x.core.retired && x.core.bound && !x.core.stopping && x.name == name
            && Holding(x) == 0 && x.events == multiset{} && !HasStage(x, Added)
  {
  }

  lemma NewSessionInv(name: Name)
    ensures SessionInv(NewSession(name), Nothing, Opening)
  {
    hide *;
    var x := NewSession(name);
    NewParts(name);
    NewLane(ToBackend, DueOf(x));
    NewLane(ToPublic, DueOf(x));
    SettledFlow(x, Nothing, Opening, DueOf(x));
    NewOwned(name);
    AwayDuty();
    LocalOf(x, Nothing, Opening, DueOf(x));
    SessionIs(x, Nothing, Opening);
  }

  // ----- the state with the new session -----

  function GrownState(st: State): State
    requires HasSlot(st.registry)
  {
    var s := |st.sessions|;
    st.(registry := Bind(st.registry, s), sessions := st.sessions + [NewSession(NewName(st.registry, s))],
        control := Control(Starting, false, s, Opening))
  }

  lemma GrownSessions(st: State)
    requires SessionsInv(st) && PositionInv(st) && st.control.at == Free && HasSlot(st.registry)
    ensures SessionsInv(GrownState(st))
  {
    hide SessionInv, Bind, NewSession, NewName;
    var st' := GrownState(st);
    var s := |st.sessions|;
    NewSessionInv(NewName(st.registry, s));
    forall t: nat | t < |st'.sessions| ensures SessionOk(st', t) {
      if t < s {
        assert SessionOk(st, t);
        assert DispatchOf(st', t) == DispatchOf(st, t) && ControlOf(st', t) == ControlOf(st, t);
        assert st'.sessions[t] == st.sessions[t];
      } else {
        assert DispatchOf(st', t) == Nothing && ControlOf(st', t) == Opening;
      }
    }
  }

  lemma GrownMarks(sessions: seq<Session>, name: Name)
    ensures var grown := sessions + [NewSession(name)];
            && ReadyMarks(grown) == ReadyMarks(sessions) + [false] && WaitMarks(grown) == WaitMarks(sessions) + [false]
            && RetiredMarks(grown) == RetiredMarks(sessions) + [false] && BoundMarks(grown) == BoundMarks(sessions) + [true]
            && Names(grown) == Names(sessions) + [name]
            && |BoundMarks(sessions)| == |sessions| && |Names(sessions)| == |sessions|
  {
    NewParts(name);
    hide NewSession;
  }

  lemma GrownCount(sessions: seq<Session>, name: Name)
    ensures HeldCount(sessions + [NewSession(name)]) == HeldCount(sessions)
  {
    NewParts(name);
    hide NewSession, Holding;
    var grown := sessions + [NewSession(name)];
    assert grown[..|grown| - 1] == sessions;
  }

  lemma GrownTables(st: State)
    requires TablesInv(st) && HasSlot(st.registry)
    ensures TablesInv(GrownState(st)) && GrownState(st).registry.active == st.registry.active + [|st.sessions|]
  {
    hide Mirrors, RegistryInv, BudgetInv, HeldCount, TablesInv, Bind, NewSession, NewName, ReadyMarks, WaitMarks, RetiredMarks,
         BoundMarks, Names;
    var name := NewName(st.registry, |st.sessions|);
    TablesParts(st);
    GrownMarks(st.sessions, name);
    GrownCount(st.sessions, name);
    MarkNew(st.ready, ReadyMarks(st.sessions));
    MarkNew(st.waiters, WaitMarks(st.sessions));
    MarkNew(Unfreed(st), RetiredMarks(st.sessions));
    BindRegistry(st.registry, BoundMarks(st.sessions), Names(st.sessions));
    TablesOf(GrownState(st));
  }

  lemma GrownRest(st: State)
    requires PositionInv(st) && ScarceInv(st) && st.control.at == Free && HasSlot(st.registry)
    ensures PositionInv(GrownState(st)) && ScarceInv(GrownState(st))
  {
    hide Bind, NewSession, NewName;
  }

  lemma GrownAlert(st: State)
    requires Alert(st) && st.control.at == Free && !st.control.wake && HasSlot(st.registry)
    ensures Alert(GrownState(st))
  {
    var st' := GrownState(st);
    var s := |st.sessions|;
    NewParts(NewName(st.registry, s));
    hide Bind, NewSession, NewName, HasStage, Looking, WillPoll, Alert;
    assert forall t :: 0 <= t < s ==> st'.sessions[t] == st.sessions[t];
    assert HasEvents(st') == HasEvents(st);
    assert HasAdded(st'.sessions) == HasAdded(st.sessions) by {
      if t :| 0 <= t < |st'.sessions| && HasStage(st'.sessions[t], Added) {
        assert st'.sessions[t] == st.sessions[t];
      }
    }
    AlertCarries(st, st');
  }

  lemma AlertCarries(st: State, st': State)
    requires Alert(st) && HasEvents(st') == HasEvents(st) && HasAdded(st'.sessions) == HasAdded(st.sessions)
    requires st'.ready == st.ready && st'.retired == st.retired && st'.notifiers == st.notifiers && st'.pending == st.pending
    requires st'.dispatcher == st.dispatcher && (ControlWakes(st.control) ==> ControlWakes(st'.control))
    ensures Alert(st')
  {
    hide HasEvents, HasAdded, Looking, WillPoll, ControlWakes;
  }

  lemma GrownOperation(st: State)
    requires OperationInv(st) && HasSlot(st.registry) && st.control.operation == NoOperation && !st.dispatcher.round.Off?
    ensures OperationInv(GrownState(st))
  {
    hide Bind, NewSession, NewName, StopMarks;
  }

  lemma GrowStep(st: State)
    requires Inv(st) && HasSlot(st.registry) && st.control == Control(NoOperation, false, st.control.session, Free)
    requires !st.dispatcher.round.Off?
    ensures Inv(GrownState(st))
  {
    hide *;
    InvParts(st);
    GrownSessions(st);
    GrownTables(st);
    GrownRest(st);
    GrownAlert(st);
    GrownOperation(st);
    InvOf(GrownState(st));
  }

  // ----- out of memory -----

  lemma SpareNames(r: Registry, names: seq<Name>)
    requires NamesInv(r, names)
    ensures NamesInv(WithSpare(r), names)
  {
    hide NoDup, GenerationAfter;
    var r' := WithSpare(r);
    forall s | 0 <= s < |names| ensures NameOk(r', names[s], s) {
      assert NameOk(r, names[s], s);
    }
  }

  lemma SpareRegistry(r: Registry, bound: seq<bool>, names: seq<Name>)
    requires RegistryInv(r, bound, names) && r.free == [] && NextSlot(r).Some?
    ensures RegistryInv(WithSpare(r), bound, names)
  {
    SparePartitions(r);
    SpareNames(r, names);
    hide Partitioned, Mirrors, NamesInv;
  }

  lemma SpareTables(st: State)
    requires TablesInv(st) && st.registry.free == [] && NextSlot(st.registry).Some?
    ensures TablesInv(st.(registry := WithSpare(st.registry)))
  {
    SpareRegistry(st.registry, BoundMarks(st.sessions), Names(st.sessions));
    hide Mirrors, RegistryInv, BudgetInv, HeldCount, WithSpare, ReadyMarks, WaitMarks, RetiredMarks, BoundMarks, Names;
  }

  lemma SpareSessions(st: State, r: Registry)
    requires SessionsInv(st)
    ensures SessionsInv(st.(registry := r))
  {
    hide SessionInv;
    forall s: nat | s < |st.sessions| ensures SessionOk(st.(registry := r), s) {
      assert SessionOk(st, s);
    }
  }

  lemma SpareRest(st: State, r: Registry)
    requires ScarceInv(st) && PositionInv(st) && Alert(st) && OperationInv(st) && r.active == st.registry.active
    ensures var st' := st.(registry := r); ScarceInv(st') && PositionInv(st') && Alert(st') && OperationInv(st')
  {
    hide CancelInv, HaltInv, SleepInv, HasAdded, ControlWakes;
  }

  lemma SpareStep(st: State)
    requires Inv(st) && st.registry.free == [] && NextSlot(st.registry).Some?
    ensures Inv(st.(registry := WithSpare(st.registry)))
  {
    assert WithSpare(st.registry).active == st.registry.active by { hide Inv; }
    hide *;
    InvParts(st);
    SpareTables(st);
    SpareSessions(st, WithSpare(st.registry));
    SpareRest(st, WithSpare(st.registry));
    InvOf(st.(registry := WithSpare(st.registry)));
  }

  lemma AllocateIs(st: State, memory: Memory)
    ensures AllocateSession(st, memory) ==
            if NextSlot(st.registry).None? || (memory == NoSlot && st.registry.free == []) then st
            else if memory == NoSession then if st.registry.free == [] then st.(registry := WithSpare(st.registry)) else st
            else if HasSlot(st.registry) then GrownState(st) else st
  {
    hide Bind, NewSession, WithSpare;
  }

  lemma AllocateStep(st: State, memory: Memory)
    requires Inv(st) && st.control == Control(NoOperation, false, st.control.session, Free) && !st.dispatcher.round.Off?
    ensures Inv(AllocateSession(st, memory))
  {
    hide *;
    AllocateIs(st, memory);
    if NextSlot(st.registry).Some? && memory == NoSession && st.registry.free == [] {
      SpareStep(st);
    }
    if HasSlot(st.registry) {
      GrowStep(st);
    }
  }

  // ----- beginning an operation -----

  function WithDispatcher(st: State): State {
    if st.dispatcher.round == Off
    then st.(dispatcher := Dispatcher(Asleep, 0, Nothing), pending := true, stopping := false) else st
  }

  lemma OnOperation(o: Control, stopping: bool, active: seq<nat>, retired: seq<nat>)
    requires HaltInv(o, Off, stopping, active, retired) && o.operation == NoOperation
    ensures HaltInv(o, Asleep, false, active, retired)
  {
  }

  lemma DispatcherStarts(st: State)
    requires Inv(st) && st.control.at == Free && st.control.operation == NoOperation
    ensures Inv(WithDispatcher(st)) && !WithDispatcher(st).dispatcher.round.Off? && WithDispatcher(st).control == st.control
  {
    hide Inv, CancelInv, HaltInv, OperationInv, SessionsInv, TablesInv, ScarceInv, Alert, PositionInv;
    if st.dispatcher.round == Off {
      var st' := WithDispatcher(st);
      InvParts(st);
      ExitedIdle(st);
      OperationParts(st);
      OnOperation(st.control, st.stopping, st.registry.active, st.retired);
      OperationOf(st');
      PendingAlert(st');
      IdleInv(st, st');
    }
  }

  lemma StartStep(st: State, memory: Memory)
    requires Inv(st) && st.control.at == Free && !st.control.wake && st.control.operation == NoOperation
    ensures Inv(AllocateSession(WithDispatcher(st), memory))
  {
    hide *;
    DispatcherStarts(st);
    AllocateStep(WithDispatcher(st), memory);
  }

  lemma FoundIsActive(st: State, handle: int)
    requires Inv(st) && FindHandle(st.registry, handle).Some?
    ensures FindHandle(st.registry, handle).value in st.registry.active
  {
    hide *;
    InvParts(st);
    TablesParts(st);
    FoundInRegistry(st.registry, handle, BoundMarks(st.sessions), Names(st.sessions));
  }

  lemma FoundInRegistry(r: Registry, handle: int, bound: seq<bool>, names: seq<Name>)
    requires RegistryInv(r, bound, names) && FindHandle(r, handle).Some?
    ensures FindHandle(r, handle).value in r.active
  {
    hide FreeListed, Counted, NamesInv, Mirrors, HandleSlot, HandleGeneration;
  }

  lemma SingleCancel(operation: Operation, t: nat, at: ControlAt, active: seq<nat>, stops: seq<bool>)
    requires operation == Join || operation == CancelOne
    ensures CancelInv(Control(operation, false, t, at), active, stops)
  {
  }

  lemma AllCancel(active: seq<nat>, stops: seq<bool>)
    ensures (forall t :: t in active ==> t < |stops|) ==> CancelInv(Control(CancelStop(active), false, 0, Free), active, stops)
  {
  }

  lemma LookupStep(st: State, handle: int, operation: Operation, at: ControlAt)
    requires Inv(st) && st.control.at == Free && !st.control.wake && st.control.operation == NoOperation
    requires FindHandle(st.registry, handle).Some?
    requires (operation == Join && at == Joining) || (operation == CancelOne && at == Stop(StopLock))
    ensures Inv(st.(control := Control(operation, false, FindHandle(st.registry, handle).value, at)))
  {
    hide *;
    var t := FindHandle(st.registry, handle).value;
    FoundIsActive(st, handle);
    SingleCancel(operation, t, at, st.registry.active, StopMarks(st.sessions));
    ChooseStep(st, t, Control(operation, false, t, at));
  }

  lemma CancelAllStep(st: State)
    requires Inv(st) && st.control.at == Free && !st.control.wake && st.control.operation == NoOperation
    ensures Inv(st.(control := Control(CancelStop(st.registry.active), false, 0, Free)))
  {
    hide *;
    var o := Control(CancelStop(st.registry.active), false, 0, Free);
    InvParts(st);
    forall t | t in st.registry.active ensures t < |StopMarks(st.sessions)| {
      ActiveIsBound(st, t);
      MarksAt(st.sessions, t);
    }
    AllCancel(st.registry.active, StopMarks(st.sessions));
    OperationParts(st);
    SameHalt(st.control, o, st.dispatcher.round, st.stopping, st.registry.active, st.retired);
    ShiftOperation(st, o, st.stopping);
  }

  lemma BeginKeeps(st: State, c: Choice)
    requires Inv(st) && CanBegin(st, c)
    ensures Inv(Begin(st, c))
  {
    hide Inv, AllocateSession, FindHandle;
    match c
    case BeginStart(memory) => StartStep(st, memory);
    case BeginJoin(handle) =>
      if FindHandle(st.registry, handle).Some? {
        LookupStep(st, handle, Join, Joining);
      }
    case BeginCancel(handle) =>
      if FindHandle(st.registry, handle).Some? {
        LookupStep(st, handle, CancelOne, Stop(StopLock));
      }
    case BeginCancelAll => CancelAllStep(st);
    case _ => assert false;
  }

  // ----- runs -----

  lemma InitialRegistry()
    ensures RegistryInv(Empty, [], [])
  {
  }

  lemma InitialTables()
    ensures TablesInv(Initial)
  {
    assert ReadyMarks([]) == [] && WaitMarks([]) == [] && RetiredMarks([]) == [] && BoundMarks([]) == [] && Names([]) == [];
    InitialRegistry();
    hide RegistryInv;
  }

  lemma InitialRest()
    ensures ScarceInv(Initial) && PositionInv(Initial) && Alert(Initial) && OperationInv(Initial)
  {
  }

  lemma InitialInv()
    ensures Inv(Initial)
  {
    InitialTables();
    InitialRest();
    hide TablesInv, ScarceInv, PositionInv, Alert, OperationInv;
  }

  /** Every step of every thread keeps the invariant. */
  lemma DoKeeps(st: State, a: Action)
    requires Inv(st) && Can(st, a)
    ensures Inv(Do(st, a))
  {
    hide Inv, CanLoop, CanHandle, CanBegin, CanContinue, CanControl, CanHappen, Loop, Handle, Begin, Continue, Operate, Happen;
    match a
    case ByDispatcher(r) => if CanLoop(st, r) { LoopKeeps(st, r); } else { HandleKeeps(st, r); }
    case ByControl(c) =>
      if CanBegin(st, c) { BeginKeeps(st, c); } else if CanContinue(st, c) { ContinueKeeps(st, c); } else { OperateKeeps(st, c); }
    case ByWorld(e) => HappenKeeps(st, e);
  }

  /** The invariant holds in every state of every run. */
  lemma {:induction false} RunInv(states: seq<State>, actions: seq<Action>, i: nat)
    requires IsRun(states, actions) && i < |states|
    ensures Inv(states[i])
  {
    hide Inv, Can, Do;
    if i == 0 {
      InitialInv();
    } else {
      RunInv(states, actions, i - 1);
      DoKeeps(states[i - 1], actions[i - 1]);
    }
  }

  lemma StepOfRun(states: seq<State>, actions: seq<Action>, i: nat)
    requires IsRun(states, actions) && i + 1 < |states|
    ensures i < |actions| && Can(states[i], actions[i]) && states[i + 1] == Do(states[i], actions[i])
  {
    hide Can, Do;
  }

  lemma RunLength(states: seq<State>, actions: seq<Action>)
    requires IsRun(states, actions)
    ensures |states| == |actions| + 1
  {
    hide Can, Do;
  }
}

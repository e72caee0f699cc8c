/** Every step of the control thread keeps the invariant: beginning an
    operation and moving on to its next session. */
module BridgeStarting {
  import opened SlotRegistry
  import opened BridgeState
  import opened BridgeSteps
  import opened BridgeInvariant
  import opened BridgeOwnership
  import opened BridgeControlProofs
  import opened BridgeFrames
  import opened BridgeHandling
  import opened BridgeLooping
  import opened BridgeControl

  // ----- steps that leave every session alone -----

  /** Between sessions: only the dispatcher's and the operation's own fields. */
  predicate IdleStep(st: State, st': State) {
    && st' == st.(dispatcher := st'.dispatcher, pending := st'.pending, stopping := st'.stopping, control := st'.control)
    && st.control.at == Free && st'.control.at == Free
    && (st'.dispatcher == st.dispatcher || (st.dispatcher.at == Nothing && st'.dispatcher.at == Nothing))
    && Spliced(st') == Spliced(st)
  }

  lemma IdleSessions(st: State, st': State)
    requires SessionsInv(st) && IdleStep(st, st')
    ensures SessionsInv(st')
  {
    hide SessionInv, Spliced;
    forall t: nat | t < |st'.sessions| ensures SessionOk(st', t) {
      assert SessionOk(st, t);
      assert DispatchOf(st', t) == DispatchOf(st, t) && ControlOf(st', t) == ControlOf(st, t);
    }
  }

  lemma IdleTables(st: State, st': State)
    requires TablesInv(st) && ScarceInv(st) && PositionInv(st) && IdleStep(st, st')
    ensures TablesInv(st') && ScarceInv(st') && PositionInv(st')
  {
    hide Mirrors, BudgetInv, RegistryInv, HeldCount;
  }

  lemma IdleInv(st: State, st': State)
    requires Inv(st) && IdleStep(st, st') && Alert(st') && OperationInv(st')
    ensures Inv(st')
  {
    hide *;
    InvParts(st);
    IdleSessions(st, st');
    IdleTables(st, st');
    InvOf(st');
  }

  lemma IdleAlert(st: State, st': State)
    requires Alert(st) && IdleStep(st, st') && (st.pending ==> st'.pending)
    requires ControlWakes(st.control) ==> ControlWakes(st'.control) || st'.pending
    requires st'.dispatcher.round == st.dispatcher.round || (st.dispatcher.round.Exited? && st'.dispatcher.round.Off?)
    ensures Alert(st')
  {
    hide HasAdded, ControlWakes, Spliced;
    assert HasEvents(st') == HasEvents(st) by { hide Alert; }
    hide HasEvents;
  }

  // ----- between sessions -----

  lemma WakeOperation(o: Control, round: Round, stopping: bool, active: seq<nat>, retired: seq<nat>, stops: seq<bool>)
    requires CancelInv(o, active, stops) && HaltInv(o, round, stopping, active, retired) && o.at == Free
    ensures var o' := Control(AfterWake(o.operation), false, 0, Free);
            CancelInv(o', active, stops) && HaltInv(o', round, stopping, active, retired)
  {
  }

  /** The operation changes without touching a session. */
  lemma ShiftOperation(st: State, o: Control, stopping: bool)
    requires Inv(st) && st.control.at == Free && !st.control.wake && o.at == Free
    requires CancelInv(o, st.registry.active, StopMarks(st.sessions))
    requires HaltInv(o, st.dispatcher.round, stopping, st.registry.active, st.retired)
    ensures Inv(st.(control := o, stopping := stopping))
  {
    hide Inv, OperationInv, Alert, CancelInv, HaltInv;
    var st' := st.(control := o, stopping := stopping);
    InvParts(st);
    OperationOf(st');
    IdleAlert(st, st');
    IdleInv(st, st');
  }

  lemma StopsDone(o: Control, active: seq<nat>, stops: seq<bool>)
    requires CancelInv(o, active, stops) && o.at == Free && o.operation == CancelStop([])
    ensures CancelInv(Control(CancelReap(active), false, 0, Free), active, stops)
  {
  }

  lemma SameHalt(o: Control, o': Control, round: Round, stopping: bool, active: seq<nat>, retired: seq<nat>)
    requires HaltInv(o, round, stopping, active, retired) && !o.operation.CancelHalt? && !o'.operation.CancelHalt? && o'.at == Free
    ensures HaltInv(o', round, stopping, active, retired)
  {
  }

  lemma ReapsDone(o: Control, round: Round, stopping: bool, active: seq<nat>, retired: seq<nat>, stops: seq<bool>)
    requires CancelInv(o, active, stops) && HaltInv(o, round, stopping, active, retired)
    requires o.at == Free && o.operation == CancelReap([])
    ensures CancelInv(Control(NoOperation, false, 0, Free), active, stops)
    ensures CancelInv(Control(CancelHalt, true, 0, Free), active, stops)
    ensures round.Off? ==> HaltInv(Control(NoOperation, false, 0, Free), round, stopping, active, retired)
    ensures !round.Off? ==> HaltInv(Control(CancelHalt, true, 0, Free), round, true, active, retired)
  {
  }

  lemma HaltDone(o: Control, stopping: bool, active: seq<nat>, retired: seq<nat>, stops: seq<bool>)
    requires HaltInv(o, Exited, stopping, active, retired)
    ensures CancelInv(Control(NoOperation, false, 0, Free), active, stops)
    ensures HaltInv(Control(NoOperation, false, 0, Free), Off, stopping, active, retired)
  {
  }

  lemma ExitedIdle(st: State)
    requires PositionInv(st) && (st.dispatcher.round == Exited || st.dispatcher.round == Off)
    ensures st.dispatcher.at == Nothing
  {
  }

  // ----- taking up a session -----

  lemma ActiveIsBound(st: State, t: nat)
    requires Inv(st) && t in st.registry.active
    ensures t < |st.sessions| && st.sessions[t].core.bound
  {
    hide *;
    InvParts(st);
    TablesParts(st);
    ActiveMarked(st.registry, BoundMarks(st.sessions), Names(st.sessions), t);
    MarksLength(st.sessions);
    MarksAt(st.sessions, t);
  }

  lemma MarksLength(sessions: seq<Session>)
    ensures |BoundMarks(sessions)| == |sessions|
  {
  }

  lemma ActiveMarked(r: Registry, bound: seq<bool>, names: seq<Name>, t: nat)
    requires RegistryInv(r, bound, names) && t in r.active
    ensures t < |bound| && bound[t]
  {
    hide Partitioned, NamesInv;
  }

  lemma ChooseFrame(st: State, t: nat, o: Control)
    requires t < |st.sessions| && st.control.at == Free && o.session == t && !o.wake
    ensures var st' := st.(control := o);
            && st'.sessions == st.sessions[t := st.sessions[t]]
            && DispatcherOn(st.dispatcher, st'.dispatcher, t) && ControlOn(st.control, st'.control, t)
            && DispatchOf(st', t) == DispatchOf(st, t) && ControlOf(st', t) == o.at && ControlOf(st, t) == Free
            && SameLists(st, st')
  {
    UpdateSame(st.sessions, t);
  }

  lemma ChooseRest(st: State, t: nat, o: Control)
    requires PositionInv(st) && ScarceInv(st) && Alert(st) && t < |st.sessions|
    requires st.control.at == Free && !st.control.wake && o.session == t && !o.wake
    ensures var st' := st.(control := o); PositionInv(st') && ScarceInv(st') && Alert(st')
  {
    var st' := st.(control := o);
    assert HasEvents(st') == HasEvents(st) by { hide Alert; }
    hide HasEvents, HasAdded, Looking, WillPoll;
  }

  /** The operation takes up an active session. */
  lemma ChooseStep(st: State, t: nat, o: Control)
    requires Inv(st) && st.control.at == Free && !st.control.wake && t in st.registry.active
    requires o.session == t && !o.wake && (o.at == Joining || o.at == Stop(StopLock))
    requires CancelInv(o, st.registry.active, StopMarks(st.sessions)) && !o.operation.CancelHalt? && !st.control.operation.CancelHalt?
    ensures Inv(st.(control := o))
  {
    hide *;
    var st' := st.(control := o);
    InvParts(st);
    ActiveIsBound(st, t);
    SessionAt(st, t);
    ChooseFrame(st, t, o);
    var x, d := st.sessions[t], DispatchOf(st, t);
    SessionParts(x, d, Free);
    Chosen(x.core, DutyOf(d), o.at, DueOf(x).inLock, BothDone(x));
    Calm(x.core, Free, x.core, o.at, DueOf(x).marked);
    ControlMoves(x, x.core, d, Free, o.at);
    assert x.(core := x.core) == x;
    FrameSessions(st, st', t, x);
    TablesKept(st, st');
    ChooseRest(st, t, o);
    OperationParts(st);
    ChooseHalt(st.control, o, st.dispatcher.round, st.stopping, st.registry.active, st.retired, t);
    OperationOf(st');
    InvOf(st');
  }

  lemma ChooseHalt(o: Control, o': Control, round: Round, stopping: bool, active: seq<nat>, retired: seq<nat>, t: nat)
    requires HaltInv(o, round, stopping, active, retired) && t in active
    requires !o.operation.CancelHalt? && !o'.operation.CancelHalt?
    ensures HaltInv(o', round, stopping, active, retired)
  {
  }

  lemma StopNext(o: Control, active: seq<nat>, stops: seq<bool>, todo: seq<nat>)
    requires CancelInv(o, active, stops) && o.at == Free && o.operation == CancelStop(todo) && todo != []
    ensures todo[0] in active && CancelInv(Control(CancelStop(todo[1..]), false, todo[0], Stop(StopLock)), active, stops)
  {
    assert todo == [todo[0]] + todo[1..];
  }

  lemma ReapNext(o: Control, active: seq<nat>, stops: seq<bool>, todo: seq<nat>)
    requires CancelInv(o, active, stops) && o.at == Free && o.operation == CancelReap(todo) && todo != []
    ensures todo[0] in active && CancelInv(Control(CancelReap(todo[1..]), false, todo[0], Joining), active, stops)
  {
    assert todo == [todo[0]] + todo[1..];
  }

  lemma IdleOf(st: State, st': State)
    requires st' == st.(dispatcher := st'.dispatcher, pending := st'.pending, stopping := st'.stopping, control := st'.control)
    requires st.control.at == Free && st'.control.at == Free
    requires st'.dispatcher == st.dispatcher
          || (st.dispatcher.at == Nothing && st'.dispatcher.at == Nothing && st.dispatcher.round.Exited? && st'.dispatcher.round.Off?)
    ensures IdleStep(st, st')
  {
  }

  lemma ContinueHandled(st: State, c: Choice)
    requires CanContinue(st, c)
    ensures var op := st.control.operation;
            && st.control.at == Free
            && (st.control.wake ==> Continue(st, c) == st.(pending := true, control := Control(AfterWake(op), false, 0, Free)))
            && (!st.control.wake ==> op.CancelStop? || op.CancelReap? || (op == CancelHalt && st.dispatcher.round == Exited))
            && (!st.control.wake && op.CancelStop? ==>
                  Continue(st, c) == st.(control := if op.todo == [] then Control(CancelReap(st.registry.active), false, 0, Free)
                                                    else Control(CancelStop(op.todo[1..]), false, op.todo[0], Stop(StopLock))))
            && (!st.control.wake && op.CancelReap? && op.todo != [] ==>
                  Continue(st, c) == st.(control := Control(CancelReap(op.todo[1..]), false, op.todo[0], Joining)))
            && (!st.control.wake && op == CancelReap([]) ==>
                  Continue(st, c) == if st.dispatcher.round == Off then st.(control := Control(NoOperation, false, 0, Free))
                                     else st.(stopping := true, control := Control(CancelHalt, true, 0, Free)))
            && (!st.control.wake && op == CancelHalt ==>
                  Continue(st, c) == st.(dispatcher := Dispatcher(Off, 0, Nothing), control := Control(NoOperation, false, 0, Free)))
  {
    hide AfterWake;
  }

  lemma ContinueKeeps(st: State, c: Choice)
    requires Inv(st) && CanContinue(st, c)
    ensures Inv(Continue(st, c))
  {
    hide *;
    InvParts(st);
    OperationParts(st);
    ContinueHandled(st, c);
    var st', o, active, stops := Continue(st, c), st.control, st.registry.active, StopMarks(st.sessions);
    if o.wake {
      WakeOperation(o, st.dispatcher.round, st.stopping, active, st.retired, stops);
      OperationOf(st');
      PendingAlert(st');
      IdleOf(st, st');
      IdleInv(st, st');
    } else if o.operation.CancelStop? {
      if o.operation.todo == [] {
        StopsDone(o, active, stops);
        SameHalt(o, st'.control, st.dispatcher.round, st.stopping, active, st.retired);
        ShiftOperation(st, st'.control, st.stopping);
      } else {
        StopNext(o, active, stops, o.operation.todo);
        ChooseStep(st, o.operation.todo[0], st'.control);
      }
    } else if o.operation.CancelReap? {
      if o.operation.todo == [] {
        ReapsDone(o, st.dispatcher.round, st.stopping, active, st.retired, stops);
        ShiftOperation(st, st'.control, st'.stopping);
      } else {
        ReapNext(o, active, stops, o.operation.todo);
        ChooseStep(st, o.operation.todo[0], st'.control);
      }
    } else {
      HaltDone(o, st.stopping, active, st.retired, stops);
      OperationOf(st');
      ExitedIdle(st);
      IdleOf(st, st');
      NoWake(st);
      IdleAlert(st, st');
      IdleInv(st, st');
    }
  }

  lemma NoWake(st: State)
    requires !st.control.wake && st.control.at == Free
    ensures !ControlWakes(st.control)
  {
  }
}

/** While the dispatcher has a session in hand, the control thread and the world
    leave it, the waiter list and the buffer budget alone, and do no more to a
    lane than set its flags. */
module BridgeBystanders {
  import opened Lists
  import opened Lanes
  import opened SlotRegistry
  import opened BridgeState
  import opened BridgeSteps
  import opened BridgeInvariant

  /** Flags are set; what the sockets could still do may change. */
  predicate OnlyEdges(l: Lane, l': Lane) {
    && l' == l.(readable := l'.readable, writable := l'.writable, input := l'.input, room := l'.room)
    && (l.readable ==> l'.readable) && (l.writable ==> l'.writable)
  }

  predicate LanesAside(x: Session, x': Session) {
    OnlyEdges(x.toBackend, x'.toBackend) && OnlyEdges(x.toPublic, x'.toPublic)
  }

  ghost predicate SessionsAside(a: seq<Session>, b: seq<Session>) {
    |a| <= |b| && forall s :: 0 <= s < |a| ==> LanesAside(a[s], b[s])
  }

  ghost predicate StandsAside(st: State, st': State) {
    && st'.dispatcher == st.dispatcher && st'.waiters == st.waiters && st'.bufferBytes == st.bufferBytes
    && SessionsAside(st.sessions, st'.sessions)
  }

  lemma AsideSelf(st: State)
    ensures StandsAside(st, st)
  {
  }

  lemma AsidePut(st: State, s: nat, y: Session)
    requires s < |st.sessions| && LanesAside(st.sessions[s], y)
    ensures SessionsAside(st.sessions, st.sessions[s := y])
  {
  }

  lemma PutAside(st: State, s: nat, y: Session)
    requires s < |st.sessions| && LanesAside(st.sessions[s], y)
    ensures StandsAside(st, Put(st, s, y))
  {
    AsidePut(st, s, y);
    hide SessionsAside, LanesAside;
  }

  lemma CoreAside(st: State, s: nat, k: Core)
    requires s < |st.sessions|
    ensures StandsAside(st, PutCore(st, s, k))
  {
    hide StandsAside;
    PutAside(st, s, st.sessions[s].(core := k));
  }

  /** Fields that no lane and no dispatcher step is about. */
  lemma AsideRest(st: State, st': State, st'': State)
    requires StandsAside(st, st')
    requires st'' == st'.(ready := st''.ready, retired := st''.retired, registry := st''.registry, pending := st''.pending,
                          stopping := st''.stopping, notifiers := st''.notifiers, control := st''.control)
    ensures StandsAside(st, st'')
  {
    hide SessionsAside;
  }

  lemma ListsAside(st: State, s: nat)
    requires s < |st.sessions|
    ensures StandsAside(st, st) && StandsAside(st, QueueAdd(st, s)) && StandsAside(st, Unqueue(st, s))
    ensures StandsAside(st, UnbindSession(st, s)) && StandsAside(st, Retire(st, s))
  {
    assert StandsAside(st, st) by { AsideSelf(st); }
    hide StandsAside, PutCore, Unbind, Remove;
    var k := st.sessions[s].core;
    CoreAside(st, s, k.(readyQueued := true));
    CoreAside(st, s, k.(readyQueued := false));
    CoreAside(st, s, k.(bound := false));
    CoreAside(st, s, k.(retired := true));
    AsideRest(st, PutCore(st, s, k.(readyQueued := true)), PutCore(st, s, k.(readyQueued := true)).(ready := st.ready + [s]));
    AsideRest(st, PutCore(st, s, k.(readyQueued := false)), PutCore(st, s, k.(readyQueued := false)).(ready := Remove(st.ready, s)));
    AsideRest(st, PutCore(st, s, k.(retired := true)), PutCore(st, s, k.(retired := true)).(retired := st.retired + [s]));
    if s in st.registry.home && 1 <= st.registry.home[s] <= |st.registry.slots| {
      AsideRest(st, PutCore(st, s, k.(bound := false)), PutCore(st, s, k.(bound := false)).(registry := Unbind(st.registry, s)));
    }
  }

  /** The session the world touches. */
  function TouchedBy(st: State, e: Event): Session
    requires CanHappen(st, e) && !e.Notify?
  {
    var x := st.sessions[e.s];
    match e
    case Input(_, ToBackend, other) => Call(x.(toBackend := x.toBackend.(input := true)), true, other)
    case Input(_, ToPublic, other) =>
      x.(toPublic := x.toPublic.(input := true), events := x.events + multiset{HostEvent(!other, false, other, false)})
    case Room(_, ToBackend, other) =>
      x.(toBackend := x.toBackend.(room := true), events := x.events + multiset{HostEvent(false, !other, other, false)})
    case Room(_, ToPublic, other) => Call(x.(toPublic := x.toPublic.(room := true)), other, true)
    case Close(_) => Call(x.(publicClosed := true), true, true)
    case Knock(_, readable, writable) => Call(x, readable, writable)
    case Post(_, posted) => x.(events := x.events + multiset{posted})
    case Enter(_, c) => if x.core.callbacksInstalled then Move(x, c, Entered) else Leave(x, c)
    case Mark(_, c) =>
      if !x.core.inUse then Leave(x, c)
      else Move(x, c, Marked).(
        toBackend := if c.readable then x.toBackend.(readable := true) else x.toBackend,
        toPublic := if c.writable then x.toPublic.(writable := true) else x.toPublic)
    case Add(_, c) => Move(x, c, Added)
    case Wake(_, c) => Leave(x, c)
  }

  lemma Edges(l: Lane)
    ensures OnlyEdges(l, l) && OnlyEdges(l, l.(input := true)) && OnlyEdges(l, l.(room := true))
    ensures OnlyEdges(l, l.(readable := true)) && OnlyEdges(l, l.(writable := true))
    ensures OnlyEdges(l, l.(readable := true, writable := true))
  {
  }

  lemma TouchesAside(st: State, e: Event)
    requires CanHappen(st, e) && !e.Notify?
    ensures LanesAside(st.sessions[e.s], TouchedBy(st, e))
  {
    hide OnlyEdges;
    Edges(st.sessions[e.s].toBackend);
    Edges(st.sessions[e.s].toPublic);
  }

  lemma AddAside(st: State, e: Event)
    requires CanHappen(st, e) && e.Add?
    ensures StandsAside(st, Happen(st, e))
  {
    var put := Put(st, e.s, TouchedBy(st, e));
    assert Happen(st, e) == QueueAdd(put, e.s) by { hide QueueAdd, Move; }
    hide *;
    TouchesAside(st, e);
    PutAside(st, e.s, TouchedBy(st, e));
    ListsAside(put, e.s);
    AsideOn(st, put, QueueAdd(put, e.s));
  }

  lemma WorldAside(st: State, e: Event)
    requires CanHappen(st, e)
    ensures StandsAside(st, Happen(st, e))
  {
    hide *;
    WorldIs(st, e);
    if e.Notify? {
      AsideSelf(st);
      AsideRest(st, st, Happen(st, e));
    } else if e.Add? {
      AddAside(st, e);
    } else {
      TouchesAside(st, e);
      PutAside(st, e.s, TouchedBy(st, e));
      AsideRest(st, Put(st, e.s, TouchedBy(st, e)), Happen(st, e));
    }
  }

  lemma WorldIs(st: State, e: Event)
    requires CanHappen(st, e)
    ensures var st' := Happen(st, e);
            && (e.Notify? ==> st' == st.(pending := st'.pending, notifiers := st'.notifiers))
            && (!e.Notify? ==> e.s < |st.sessions|)
            && (!e.Notify? && !e.Add? ==> st' == Put(st, e.s, TouchedBy(st, e)).(pending := st'.pending, notifiers := st'.notifiers))
  {
    hide Call, Move, Leave;
  }

  lemma AsideOn(a: State, b: State, c: State)
    requires StandsAside(a, b) && StandsAside(b, c)
    ensures StandsAside(a, c)
  {
    forall s | 0 <= s < |a.sessions| ensures LanesAside(a.sessions[s], c.sessions[s]) {
      assert LanesAside(a.sessions[s], b.sessions[s]) && LanesAside(b.sessions[s], c.sessions[s]);
    }
  }

  lemma BeginIs(st: State, c: Choice)
    requires PositionInv(st) && st.dispatcher.at != Nothing && CanBegin(st, c)
    ensures var st' := Begin(st, c);
            && st' == st.(registry := st'.registry, sessions := st'.sessions, control := st'.control)
            && st.sessions <= st'.sessions
  {
    assert st.dispatcher.round != Off;
    hide Bind, FindHandle, NextSlot, WithSpare, NewSession, PositionInv;
  }

  lemma BeginAside(st: State, c: Choice)
    requires PositionInv(st) && st.dispatcher.at != Nothing && CanBegin(st, c)
    ensures StandsAside(st, Begin(st, c))
  {
    hide PositionInv, CanBegin, Begin;
    BeginIs(st, c);
  }

  lemma ContinueAside(st: State, c: Choice)
    requires PositionInv(st) && st.dispatcher.at != Nothing && CanContinue(st, c)
    ensures StandsAside(st, Continue(st, c))
  {
  }

  /** A control step that changes life-cycle fields only. */
  lemma CoreStep(st: State, s: nat, k: Core, st': State)
    requires s < |st.sessions| && st' == PutCore(st, s, k).(control := st'.control)
    ensures StandsAside(st, st')
  {
    hide StandsAside, PutCore;
    CoreAside(st, s, k);
    AsideRest(st, PutCore(st, s, k), st');
  }

  lemma ListStep(st: State, s: nat, base: State, st': State)
    requires s < |st.sessions| && base in {st, QueueAdd(st, s), Unqueue(st, s), UnbindSession(st, s), Retire(st, s)}
    requires st' == base.(pending := st'.pending, control := st'.control)
    ensures StandsAside(st, st')
  {
    hide StandsAside, QueueAdd, Unqueue, UnbindSession, Retire;
    ListsAside(st, s);
    AsideRest(st, base, st');
  }

  lemma RunningAside(st: State, s: nat, k: Core)
    requires s < |st.sessions|
    ensures var x := st.sessions[s];
            StandsAside(st, Put(st, s, x.(core := k, toBackend := x.toBackend.(readable := true, writable := true),
                                    toPublic := x.toPublic.(readable := true, writable := true))))
  {
    Edges(st.sessions[s].toBackend);
    Edges(st.sessions[s].toPublic);
    hide OnlyEdges, StandsAside;
    var x := st.sessions[s];
    PutAside(st, s, x.(core := k, toBackend := x.toBackend.(readable := true, writable := true),
                       toPublic := x.toPublic.(readable := true, writable := true)));
  }

  lemma SetupAside(st: State, c: Choice)
    requires CanControl(st, c) && !st.control.at.Disable? && !st.control.at.Joining? && !Reaping(st.control.at) && !st.control.at.Stop?
    ensures StandsAside(st, Operate(st, c))
  {
    hide StandsAside, CallbackLockFree, PutCore, Put, QueueAdd, Unqueue, UnbindSession, Retire, StopMark;
    var s, k, st' := st.control.session, st.sessions[st.control.session].core, Operate(st, c);
    match st.control.at
    case Opening => CoreStep(st, s, k.(hostOpen := if c.Refuse? then c.socketMade else true), st');
    case Installing =>
      if c.Refuse? {
        ListStep(st, s, st, st');
      } else {
        CoreStep(st, s, k.(callbacksInstalled := true), st');
      }
    case Running =>
      RunningAside(st, s, k.(connecting := false, running := true));
      var x := st.sessions[s];
      AsideRest(st, Put(st, s, x.(core := k.(connecting := false, running := true),
                                  toBackend := x.toBackend.(readable := true, writable := true),
                                  toPublic := x.toPublic.(readable := true, writable := true))), st');
    case StartAdd => ListStep(st, s, QueueAdd(st, s), st');
    case FailRestore => CoreStep(st, s, k.(callbacksInstalled := false), st');
    case FailClose => CoreStep(st, s, k.(hostOpen := false), st');
    case FailUnqueue => ListStep(st, s, Unqueue(st, s), st');
    case FailUnbind => ListStep(st, s, UnbindSession(st, s), st');
    case FailClear =>
      CoreStep(st, s, k.(publicOpen := false, connecting := false, running := false, stopping := false,
                         acceptEvents := false, inUse := false), st');
    case FailRetire => ListStep(st, s, Retire(st, s), st');
    case _ => ListStep(st, s, st, st');
  }

  lemma OperateAside(st: State, c: Choice)
    requires CanControl(st, c)
    ensures StandsAside(st, Operate(st, c))
  {
    hide StandsAside, CallbackLockFree, PutCore, Put, QueueAdd, Unqueue, UnbindSession, Retire, StopMark;
    var s, k, st' := st.control.session, st.sessions[st.control.session].core, Operate(st, c);
    match st.control.at
    case Disable(Accept, _) => CoreStep(st, s, k.(acceptEvents := false), st');
    case Disable(ReadRefs, _) => ListStep(st, s, st, st');
    case Disable(AwaitIdle, _) => CoreStep(st, s, k.(eventIdle := k.eventIdle - 1), st');
    case Joining =>
      if c == Expire {
        ListStep(st, s, st, st');
      } else {
        CoreStep(st, s, k.(finished := k.finished - 1), st');
      }
    case ReapRestore => CoreStep(st, s, k.(callbacksInstalled := false), st');
    case ReapUnqueue => ListStep(st, s, Unqueue(st, s), st');
    case ReapClose =>
      CoreStep(st, s, k.(hostOpen := false, publicOpen := false, reaps := k.reaps + 1,
                         result := Some(if k.status != 0 then k.status else c.code)), st');
    case ReapClear => CoreStep(st, s, k.(connecting := false, running := false, acceptEvents := false, inUse := false), st');
    case ReapUnbind => ListStep(st, s, UnbindSession(st, s), st');
    case ReapRetire => ListStep(st, s, Retire(st, s), st');
    case Stop(StopLock) =>
      if k.inUse {
        CoreStep(st, s, StopMark(k, -125), st');
      } else {
        ListStep(st, s, st, st');
      }
    case Stop(StopAdd) => ListStep(st, s, QueueAdd(st, s), st');
    case Stop(_) => ListStep(st, s, st, st');
    case _ => SetupAside(st, c);
  }

  lemma OthersAside(st: State, a: Action)
    requires PositionInv(st) && st.dispatcher.at != Nothing && Can(st, a) && !a.ByDispatcher?
    ensures StandsAside(st, Do(st, a))
  {
    hide StandsAside, PositionInv, CanHappen, CanBegin, CanContinue, CanControl, Happen, Begin, Continue, Operate;
    match a
    case ByControl(c) =>
      if CanBegin(st, c) {
        BeginAside(st, c);
      } else if CanContinue(st, c) {
        ContinueAside(st, c);
      } else {
        OperateAside(st, c);
      }
    case ByWorld(e) => WorldAside(st, e);
  }
}

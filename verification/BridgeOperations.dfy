/** Every step of the control thread keeps the invariant: all cases together,
    and the operations between sessions. */
module BridgeOperations {
  import opened Lanes
  import opened BridgeState
  import opened BridgeSteps
  import opened BridgeInvariant
  import opened BridgeOwnership
  import opened BridgeSessionProofs
  import opened BridgeFinishProofs
  import opened BridgeNotices
  import opened BridgeControlProofs
  import opened BridgeFrames
  import opened BridgeHandling
  import opened BridgeDispatching
  import opened BridgeControl

  // ----- start: before the session runs -----

  lemma SetupHandled(st: State, c: Choice)
    requires CanControl(st, c)
    ensures var s, at := st.control.session, st.control.at; var x := st.sessions[s];
            && (at == Opening && c.Refuse? && c.socketMade ==> Operate(st, c) == At(PutCore(st, s, x.core.(hostOpen := true)), FailRestore))
            && (at == Opening && c.Refuse? && !c.socketMade ==> Operate(st, c) == At(PutCore(st, s, x.core.(hostOpen := false)), FailRestore))
            && (at == Opening && !c.Refuse? ==> Operate(st, c) == At(PutCore(st, s, x.core.(hostOpen := true)), Registering))
            && (at == Registering || at == Connecting || at == Modifying ==>
                  Operate(st, c) == At(PutCore(st, s, x.core), if c.Refuse? then FailRestore else Further(at)))
            && (at == Installing && c.Refuse? ==> Operate(st, c) == At(PutCore(st, s, x.core), FailRestore))
            && (at == Installing && !c.Refuse? ==> Operate(st, c) == At(PutCore(st, s, x.core.(callbacksInstalled := true)), Modifying))
  {
    PutCoreSame(st, st.control.session);
    hide CallbackLockFree, PutCore;
  }

  function Further(at: ControlAt): ControlAt {
    if at == Registering then Connecting else if at == Connecting then Installing else Running
  }

  lemma PutCoreSame(st: State, s: nat)
    requires s < |st.sessions|
    ensures PutCore(st, s, st.sessions[s].core) == st
  {
    UpdateSame(st.sessions, s);
    assert st.sessions[s].(core := st.sessions[s].core) == st.sessions[s];
  }

  lemma SetupMoves(at: ControlAt)
    requires at.Opening? || at.Registering? || at.Connecting? || at.Installing? || at.Modifying?
    ensures MayMove(at, FailRestore) && MayMove(at, Registering) && MayMove(at, Modifying) && MayMove(at, Further(at))
    ensures Healthy(at) && !Quieted(at)
  {
  }

  lemma SetupStep(st: State, s: nat, x: Session, at: ControlAt, c: Choice)
    requires Working(st, s, x, at) && CanControl(st, c)
    requires at.Opening? || at.Registering? || at.Connecting? || at.Installing? || at.Modifying?
    ensures Inv(Operate(st, c))
  {
    hide *;
    WorkingParts(st, s, x, at);
    SetupHandled(st, c);
    SetupMoves(at);
    var y, inLock, bothDone := DutyOf(DispatchOf(st, s)), DueOf(x).inLock, BothDone(x);
    SessionParts(x, DispatchOf(st, s), at);
    if c.Refuse? {
      SetupFails(x.core, y, at, inLock, bothDone);
      if at == Opening && c.socketMade {
        CoreControl(st, s, x, at, x.core.(hostOpen := true), FailRestore);
      } else if at == Opening {
        CoreControl(st, s, x, at, x.core.(hostOpen := false), FailRestore);
      } else {
        CoreControl(st, s, x, at, x.core, FailRestore);
      }
    } else if at == Opening {
      Opened(x.core, y, inLock, bothDone);
      CoreControl(st, s, x, at, x.core.(hostOpen := true), Registering);
    } else if at == Installing {
      Installed(x.core, y, inLock, bothDone);
      CoreControl(st, s, x, at, x.core.(callbacksInstalled := true), Modifying);
    } else {
      FurtherIs(at);
      SetupAdvances(x.core, y, at, inLock, bothDone, Further(at));
      CoreControl(st, s, x, at, x.core, Further(at));
    }
  }

  lemma FurtherIs(at: ControlAt)
    ensures (at == Registering ==> Further(at) == Connecting) && (at == Connecting ==> Further(at) == Installing)
    ensures at == Modifying ==> Further(at) == Running
  {
  }

  // ----- disabling events -----

  lemma MuteHandled(st: State, c: Choice)
    requires CanControl(st, c)
    ensures var s, at := st.control.session, st.control.at; var x := st.sessions[s];
            && (at == FailRestore ==>
                  !DueOf(x).inLock && Operate(st, c) == At(PutCore(st, s, x.core.(callbacksInstalled := false)), Disable(Accept, false)))
            && (at == ReapRestore ==>
                  !DueOf(x).inLock && Operate(st, c) == At(PutCore(st, s, x.core.(callbacksInstalled := false)), ReapUnqueue))
            && (at.Disable? && at.phase == Accept ==>
                  Operate(st, c) == At(PutCore(st, s, x.core.(acceptEvents := false)), Disable(ReadRefs, at.reap)))
            && (at.Disable? && at.phase == ReadRefs ==>
                  Operate(st, c) == At(PutCore(st, s, x.core), if x.core.eventRefs > 0 then Disable(AwaitIdle, at.reap) else Muting(at.reap)))
            && (at.Disable? && at.phase == AwaitIdle ==>
                  && x.core.eventIdle > 0
                  && Operate(st, c) == At(PutCore(st, s, x.core.(eventIdle := x.core.eventIdle - 1)), Muting(at.reap)))
  {
    PutCoreSame(st, st.control.session);
    hide PutCore;
  }

  function Muting(reap: bool): ControlAt {
    if reap then ReapRestore else FailClose
  }

  lemma MuteMoves(at: ControlAt)
    requires at.FailRestore? || at.Disable? || at.ReapRestore?
    ensures !Quieted(at) && (at.FailRestore? ==> MayMove(at, Disable(Accept, false))) && (at.ReapRestore? ==> MayMove(at, ReapUnqueue))
    ensures at.Disable? ==> MayMove(at, Disable(ReadRefs, at.reap)) && MayMove(at, Disable(AwaitIdle, at.reap)) && MayMove(at, Muting(at.reap))
    ensures at.Disable? ==> Muting(at.reap) == if at.reap then ReapRestore else FailClose
  {
  }

  lemma MuteStep(st: State, s: nat, x: Session, at: ControlAt, c: Choice)
    requires Working(st, s, x, at) && CanControl(st, c) && (at.FailRestore? || at.Disable? || at.ReapRestore?)
    ensures Inv(Operate(st, c))
  {
    hide *;
    WorkingParts(st, s, x, at);
    MuteHandled(st, c);
    MuteMoves(at);
    var y, inLock, bothDone := DutyOf(DispatchOf(st, s)), DueOf(x).inLock, BothDone(x);
    SessionParts(x, DispatchOf(st, s), at);
    if at == FailRestore {
      FailRestored(x.core, y, bothDone, inLock);
      CoreControl(st, s, x, at, x.core.(callbacksInstalled := false), Disable(Accept, false));
    } else if at == ReapRestore {
      ReapRestored(x.core, y, inLock, bothDone);
      CoreControl(st, s, x, at, x.core.(callbacksInstalled := false), ReapUnqueue);
    } else if at.phase == Accept {
      EventsRefused(x.core, y, at.reap, inLock, bothDone);
      CoreControl(st, s, x, at, x.core.(acceptEvents := false), Disable(ReadRefs, at.reap));
    } else if at.phase == ReadRefs {
      RefsRead(x.core, y, at.reap, inLock, bothDone);
      CoreControl(st, s, x, at, x.core, if x.core.eventRefs > 0 then Disable(AwaitIdle, at.reap) else Muting(at.reap));
    } else {
      IdleAwaited(x.core, y, at.reap, inLock, bothDone);
      CoreControl(st, s, x, at, x.core.(eventIdle := x.core.eventIdle - 1), Muting(at.reap));
    }
  }

  // ----- closing and clearing -----

  lemma CloseHandled(st: State, c: Choice)
    requires CanControl(st, c)
    ensures var s, at := st.control.session, st.control.at; var x := st.sessions[s];
            && (at == FailClose ==> Operate(st, c) == At(PutCore(st, s, HostShut(x.core)), FailUnqueue))
            && (at == FailClear ==>
                  Operate(st, c) == At(PutCore(st, s, FailedCore(x.core)), FailRetire))
            && (at == Joining && c != Expire ==>
                  x.core.finished > 0 && Operate(st, c) == At(PutCore(st, s, Consumed(x.core)), Disable(Accept, true)))
            && (at == ReapClose ==>
                  c.Cleanup? && Operate(st, c) == At(PutCore(st, s, ReapedCore(x.core, c.code)), ReapClear))
            && (at == ReapClear ==>
                  Operate(st, c) == At(PutCore(st, s, ClearedCore(x.core)), ReapUnbind))
  {
    hide PutCore, CallbackLockFree;
  }

  lemma ClearedParts(k: Core)
    ensures var k' := FailedCore(k);
            && !k'.running && k'.readyQueued == k.readyQueued && !k'.connecting
            && k'.retired == k.retired && k'.freed == k.freed && k'.bound == k.bound
    ensures var k' := ClearedCore(k);
            && !k'.running && k'.stopping == k.stopping && k'.readyQueued == k.readyQueued && !k'.connecting
            && k'.retired == k.retired && k'.freed == k.freed && k'.bound == k.bound
  {
  }

  lemma CloseMoves(at: ControlAt)
    requires at.FailClose? || at.FailClear? || at.Joining? || at.ReapClose? || at.ReapClear?
    ensures !Quieted(at) && MayMove(FailClose, FailUnqueue) && MayMove(FailClear, FailRetire)
    ensures MayMove(Joining, Disable(Accept, true)) && MayMove(ReapClose, ReapClear) && MayMove(ReapClear, ReapUnbind)
  {
  }

  lemma ClearedRests(k: Core, y: Duty, at: ControlAt, inLock: bool, bothDone: bool)
    requires Ownership(k, y, at, inLock, bothDone)
    ensures (at.FailClear? || at.ReapClear? ==> !k.running) && (at.FailClear? ==> !k.stopping)
  {
    hide References, Stops;
  }

  lemma ReapedParts(k: Core, code: int)
    ensures var k' := ReapedCore(k, code);
            && k'.running == k.running && k'.stopping == k.stopping && k'.readyQueued == k.readyQueued && k'.connecting == k.connecting
            && k'.retired == k.retired && k'.freed == k.freed && k'.bound == k.bound
  {
  }

  lemma ClearStep(st: State, s: nat, x: Session, at: ControlAt, c: Choice)
    requires Working(st, s, x, at) && CanControl(st, c) && (at.FailClear? || at.ReapClear?)
    ensures Inv(Operate(st, c))
  {
    hide *;
    WorkingParts(st, s, x, at);
    CloseHandled(st, c);
    CloseMoves(at);
    var y, inLock, bothDone := DutyOf(DispatchOf(st, s)), DueOf(x).inLock, BothDone(x);
    SessionParts(x, DispatchOf(st, s), at);
    ClearedRests(x.core, y, at, inLock, bothDone);
    ClearedParts(x.core);
    if at == FailClear {
      FailCleared(x.core, y, inLock, bothDone);
      CoreControl(st, s, x, at, FailedCore(x.core), FailRetire);
    } else {
      ReapCleared(x.core, y, inLock, bothDone);
      CoreControl(st, s, x, at, ClearedCore(x.core), ReapUnbind);
    }
  }

  lemma HostShutParts(k: Core)
    ensures var k' := HostShut(k);
            && k'.running == k.running && k'.stopping == k.stopping && k'.readyQueued == k.readyQueued && k'.connecting == k.connecting
            && k'.retired == k.retired && k'.freed == k.freed && k'.bound == k.bound
  {
  }

  lemma ConsumedParts(k: Core)
    requires k.finished > 0
    ensures var k' := Consumed(k);
            && k'.running == k.running && k'.stopping == k.stopping && k'.readyQueued == k.readyQueued && k'.connecting == k.connecting
            && k'.retired == k.retired && k'.freed == k.freed && k'.bound == k.bound
  {
  }

  lemma CloseStep(st: State, s: nat, x: Session, at: ControlAt, c: Choice)
    requires Working(st, s, x, at) && CanControl(st, c) && c != Expire && (at.FailClose? || at.Joining? || at.ReapClose?)
    ensures Inv(Operate(st, c))
  {
    hide *;
    WorkingParts(st, s, x, at);
    CloseHandled(st, c);
    CloseMoves(at);
    var y, inLock, bothDone := DutyOf(DispatchOf(st, s)), DueOf(x).inLock, BothDone(x);
    SessionParts(x, DispatchOf(st, s), at);
    if at == FailClose {
      FailClosed(x.core, y, inLock, bothDone);
      HostShutParts(x.core);
      CoreControl(st, s, x, at, HostShut(x.core), FailUnqueue);
    } else if at == Joining {
      Joined(x.core, y, inLock, bothDone);
      ConsumedParts(x.core);
      CoreControl(st, s, x, at, Consumed(x.core), Disable(Accept, true));
    } else {
      ReapClosed(x.core, y, c.code, inLock, bothDone);
      ReapedParts(x.core, c.code);
      CoreControl(st, s, x, at, ReapedCore(x.core, c.code), ReapClear);
    }
  }

  // ----- the session starts to run -----

  lemma RunningMoves()
    ensures MayMove(Running, StartAdd) && !Quieted(Running)
  {
  }

  lemma StartedLinks(x: Session)
    ensures SameNotices(x, StartedSession(x)) && SameLinks(x, StartedSession(x)) && SameQueue(x, StartedSession(x))
  {
  }

  lemma RunningStep(st: State, s: nat, x: Session)
    requires Working(st, s, x, Running)
    ensures Inv(At(Put(st, s, StartedSession(x)), StartAdd))
  {
    hide *;
    WorkingParts(st, s, x, Running);
    RunningMoves();
    var y := StartedSession(x);
    SessionParts(x, DispatchOf(st, s), Running);
    LocalParts(x, DispatchOf(st, s), Running, DueOf(x));
    SettingUp(x.core, DutyOf(DispatchOf(st, s)), DueOf(x).inLock, BothDone(x));
    Started(x.core, DutyOf(DispatchOf(st, s)), DueOf(x).inLock, BothDone(x));
    OffLanes(DispatchOf(st, s));
    StartedParts(x);
    StartedLaneInv(x.toBackend, ToBackend, DispatchOf(st, s), y.core, DueOf(x));
    StartedLaneInv(x.toPublic, ToPublic, DispatchOf(st, s), y.core, DueOf(x));
    StartedClosing(Over(y), DispatchOf(st, s), y.core, DueOf(x));
    FlowOf(y, DispatchOf(st, s), StartAdd, DueOf(x));
    LocalOf(y, DispatchOf(st, s), StartAdd, DueOf(x));
    SameDue(x, y);
    SessionIs(y, DispatchOf(st, s), StartAdd);
    StartedLinks(x);
    PlainControl(st, s, x, Running, StartedSession(x), StartAdd);
  }

  // ----- leaving the queue and the slot -----

  lemma UnqueueMoves()
    ensures MayMove(FailUnqueue, FailUnbind) && MayMove(ReapUnqueue, ReapClose) && !Quieted(FailUnqueue) && !Quieted(ReapUnqueue)
    ensures Setup(FailUnqueue) && Reaping(ReapUnqueue)
  {
  }

  lemma UnqueueStep(st: State, s: nat, x: Session, at: ControlAt)
    requires Working(st, s, x, at) && (at == FailUnqueue || at == ReapUnqueue)
    ensures Inv(At(Unqueue(st, s), if at == FailUnqueue then FailUnbind else ReapClose))
  {
    hide *;
    WorkingParts(st, s, x, at);
    UnqueueMoves();
    var d, k', at' := DispatchOf(st, s), x.core.(readyQueued := false), if at == FailUnqueue then FailUnbind else ReapClose;
    SessionParts(x, d, at);
    if at == FailUnqueue {
      FailUnqueued(x.core, DutyOf(d), DueOf(x).inLock, BothDone(x));
    } else {
      ReapUnqueued(x.core, DutyOf(d), DueOf(x).inLock, BothDone(x));
    }
    AtRest(x.core, DutyOf(d), at, DueOf(x).inLock, BothDone(x));
    Calm(x.core, at, k', at', DueOf(x).marked);
    ControlMoves(x, k', d, at, at');
    UnqueuedCoreIs(x.core);
    var y, st' := x.(core := k'), At(Unqueue(st, s), at');
    UnqueueParts(st, s, at');
    UnqueuedLinks(x);
    ReadyRemoved(st, s, y);
    FrameTables(st, st', s, y);
    UnqueueRoused(st, st');
    ControlAlert(st, st', s, y);
    OperationMoves(st, st', s, y);
    ControlInv(st, st', s, y);
  }

  lemma UnqueuedCoreIs(k: Core)
    ensures UnqueuedCore(k) == k.(readyQueued := false)
  {
  }

  lemma UnboundIs(x: Session)
    ensures UnboundSession(x) == x.(core := x.core.(bound := false))
  {
  }

  lemma UnbindStep(st: State, s: nat, x: Session, at: ControlAt)
    requires Working(st, s, x, at) && (at == FailUnbind || at == ReapUnbind)
    ensures Inv(At(UnbindSession(st, s), if at == FailUnbind then FailClear else ReapRetire))
  {
    hide *;
    WorkingParts(st, s, x, at);
    var d, at' := DispatchOf(st, s), if at == FailUnbind then FailClear else ReapRetire;
    SessionParts(x, d, at);
    if at == FailUnbind {
      FailUnbound(x.core, DutyOf(d), DueOf(x).inLock, BothDone(x));
    } else {
      ReapUnbound(x.core, DutyOf(d), DueOf(x).inLock, BothDone(x));
    }
    Calm(x.core, at, x.core.(bound := false), at', DueOf(x).marked);
    ControlMoves(x, x.core.(bound := false), d, at, at');
    UnboundIs(x);
    UnbindControl(st, s, x, at, at');
  }

  // ----- all cases -----

  lemma WorkingOf(st: State)
    requires Inv(st) && st.control.session < |st.sessions| && st.control.at != Free
    ensures Working(st, st.control.session, st.sessions[st.control.session], st.control.at)
  {
    hide Inv;
  }

  lemma ListHandled(st: State, c: Choice)
    requires CanControl(st, c)
    ensures var s, at := st.control.session, st.control.at; var x := st.sessions[s];
            && at != Free && (at != Joining ==> c != Expire)
            && (at == Running ==> Operate(st, c) == At(Put(st, s, StartedSession(x)), StartAdd))
            && (at == StartAdd ==> Operate(st, c) == LetGo(QueueAdd(st, s)))
            && (at == FailUnqueue || at == ReapUnqueue ==>
                  Operate(st, c) == At(Unqueue(st, s), if at == FailUnqueue then FailUnbind else ReapClose))
            && (at == FailUnbind || at == ReapUnbind ==>
                  Operate(st, c) == At(UnbindSession(st, s), if at == FailUnbind then FailClear else ReapRetire))
            && (at == FailRetire || at == ReapRetire ==> Operate(st, c) == LetGo(Retire(st, s)))
            && (at == Joining && c == Expire ==> Operate(st, c) == st.(control := Control(NoOperation, false, 0, Free)))
  {
    hide LetGo, QueueAdd, Unqueue, UnbindSession, Retire, CallbackLockFree;
  }

  lemma StopHandling(st: State, c: Choice)
    requires CanControl(st, c) && st.control.at.Stop?
    ensures var s, at := st.control.session, st.control.at; var x := st.sessions[s];
            && (at == Stop(StopLock) && x.core.inUse && !x.core.connecting ==>
                  Operate(st, c) == At(PutCore(st, s, StopMark(x.core, -125)), Stop(StopAdd)))
            && (at == Stop(StopAdd) ==> Operate(st, c) == At(QueueAdd(st, s), Stop(StopWake)))
            && (at == Stop(StopWake) ==> Operate(st, c) == At(st.(pending := true), Stop(StopShut)))
            && (at == Stop(StopShut) ==> Operate(st, c) == st.(control := Control(AfterWake(st.control.operation), false, 0, Free)))
  {
    hide QueueAdd, AfterWake, CallbackLockFree, StopMark;
  }

  lemma OperateKeeps(st: State, c: Choice)
    requires Inv(st) && CanControl(st, c)
    ensures Inv(Operate(st, c))
  {
    assert st.control.session < |st.sessions| by { hide Inv; }
    hide *;
    ListHandled(st, c);
    WorkingOf(st);
    var s, at := st.control.session, st.control.at;
    var x := st.sessions[s];
    if at == Running {
      RunningStep(st, s, x);
    } else if at == StartAdd {
      StartAddStep(st, s, x);
    } else if at == FailUnqueue || at == ReapUnqueue {
      UnqueueStep(st, s, x, at);
    } else if at == FailUnbind || at == ReapUnbind {
      UnbindStep(st, s, x, at);
    } else if at == FailRetire || at == ReapRetire {
      RetireStep(st, s, x, at);
    } else if at == Joining && c == Expire {
      LetGoStep(st, s, x, at, NoOperation);
    } else if at.Stop? {
      StopHandling(st, c);
      if at.at == StopLock {
        StopLockStep(st, s, x);
      } else if at.at == StopAdd {
        StopAddStep(st, s, x);
      } else if at.at == StopWake {
        StopWakeStep(st, s, x);
      } else {
        LetGoStep(st, s, x, at, AfterWake(st.control.operation));
      }
    } else if at.FailRestore? || at.Disable? || at.ReapRestore? {
      MuteStep(st, s, x, at, c);
    } else if at.FailClear? || at.ReapClear? {
      ClearStep(st, s, x, at, c);
    } else if at.FailClose? || at.Joining? || at.ReapClose? {
      CloseStep(st, s, x, at, c);
    } else {
      SetupStep(st, s, x, at, c);
    }
  }
}

/** The life-cycle invariant, transition by transition. */
module BridgeOwnership {
  import opened Lists
  import opened BridgeState
  import opened BridgeSteps
  import opened BridgeInvariant

  // ----- any thread -----

  /** Queueing a session that has not been unqueued for good. */
  lemma Queued(k: Core, y: Duty, c: ControlAt, inLock: bool, bothDone: bool)
    requires Ownership(k, y, c, inLock, bothDone) && k.inUse && !Unqueued(c)
    ensures Ownership(k.(readyQueued := true), y, c, inLock, bothDone)
  {
  }

  /** Who may queue: a running session, one with an event reference, one with a
      callback inside the lock. */
  lemma MayQueue(k: Core, y: Duty, c: ControlAt, inLock: bool, bothDone: bool)
    requires Ownership(k, y, c, inLock, bothDone)
    requires k.running || HoldsRef(y) || inLock
    ensures k.inUse && !Unqueued(c)
  {
  }

  lemma LockChanges(k: Core, y: Duty, c: ControlAt, inLock: bool, bothDone: bool, inLock': bool)
    requires Ownership(k, y, c, inLock, bothDone) && (inLock' ==> inLock || k.callbacksInstalled)
    ensures Ownership(k, y, c, inLock', bothDone)
  {
    hide Life, Completion, Stops;
  }

  // ----- the dispatcher: events -----

  lemma Delivered(k: Core, c: ControlAt, inLock: bool, bothDone: bool, y: Duty)
    requires Ownership(k, Away, c, inLock, bothDone) && k.inUse && k.acceptEvents
    requires if k.connecting then y == DoConnect
             else y == DoEventAdd || (y.DoEventStop? && y.at == StopLock && y.status != 0)
    ensures Ownership(TakeReference(k), y, c, inLock, bothDone)
  {
  }

  lemma ConnectDone(k: Core, c: ControlAt, inLock: bool, bothDone: bool)
    requires Ownership(k, DoConnect, c, inLock, bothDone)
    ensures Ownership(k, DoPut, c, inLock, bothDone)
  {
  }

  lemma EventAdded(k: Core, c: ControlAt, inLock: bool, bothDone: bool)
    requires Ownership(k, DoEventAdd, c, inLock, bothDone) && k.readyQueued
    ensures Ownership(k, DoPut, c, inLock, bothDone)
  {
  }

  lemma PutDone(k: Core, c: ControlAt, inLock: bool, bothDone: bool)
    requires Ownership(k, DoPut, c, inLock, bothDone)
    ensures k.eventRefs == 1
    ensures Ownership(k.(eventRefs := 0), DoIdle, c, inLock, bothDone)
  {
  }

  lemma IdleDone(k: Core, c: ControlAt, inLock: bool, bothDone: bool)
    requires Ownership(k, DoIdle, c, inLock, bothDone)
    ensures Ownership(k.(eventIdle := k.eventIdle + 1), Away, c, inLock, bothDone)
  {
  }

  // ----- the dispatcher: stopping -----

  lemma EventStops(k: Core, status: int, c: ControlAt, inLock: bool, bothDone: bool)
    requires Ownership(k, DoEventStop(StopLock, status), c, inLock, bothDone)
    ensures k.inUse && !k.connecting
    ensures Ownership(StopMark(k, status), DoEventStop(StopAdd, status), c, inLock, bothDone)
  {
  }

  lemma EventStopAdded(k: Core, status: int, c: ControlAt, inLock: bool, bothDone: bool)
    requires Ownership(k, DoEventStop(StopAdd, status), c, inLock, bothDone) && k.readyQueued
    ensures Ownership(k, DoEventStop(StopShut, status), c, inLock, bothDone)
  {
  }

  lemma EventStopOver(k: Core, at: StopAt, status: int, c: ControlAt, inLock: bool, bothDone: bool)
    requires Ownership(k, DoEventStop(at, status), c, inLock, bothDone) && !at.StopAdd?
    ensures Ownership(k, DoEventAdd, c, inLock, bothDone)
  {
  }

  lemma PumpFailed(k: Core, status: int, c: ControlAt, inLock: bool, bothDone: bool)
    requires Ownership(k, DoPump, c, inLock, bothDone) && status != 0
    ensures Ownership(k, DoFail(StopLock, status), c, inLock, bothDone)
  {
  }

  lemma FailStops(k: Core, status: int, c: ControlAt, inLock: bool, bothDone: bool)
    requires Ownership(k, DoFail(StopLock, status), c, inLock, bothDone)
    ensures k.inUse && !k.connecting
    ensures Ownership(StopMark(k, status), DoFail(StopAdd, status), c, inLock, bothDone)
    ensures Ownership(StopMark(k, status), DoFail(StopShut, status), c, inLock, bothDone)
  {
  }

  lemma FailAdded(k: Core, status: int, c: ControlAt, inLock: bool, bothDone: bool)
    requires Ownership(k, DoFail(StopAdd, status), c, inLock, bothDone)
    ensures Ownership(k, DoFail(StopShut, status), c, inLock, bothDone)
  {
  }

  lemma FailOver(k: Core, at: StopAt, status: int, c: ControlAt, inLock: bool, bothDone: bool)
    requires Ownership(k, DoFail(at, status), c, inLock, bothDone) && !at.StopLock?
    ensures Ownership(k, DoFinish, c, inLock, bothDone)
  {
  }

  // ----- the dispatcher: pumping and finishing -----

  lemma TakenFromReady(k: Core, c: ControlAt, inLock: bool, bothDone: bool)
    requires Ownership(k, Away, c, inLock, bothDone) && k.readyQueued
    ensures Ownership(k.(readyQueued := false), DoTaken, c, inLock, bothDone)
  {
  }

  lemma TakenDecides(k: Core, c: ControlAt, inLock: bool, bothDone: bool)
    requires Ownership(k, DoTaken, c, inLock, bothDone)
    ensures !k.inUse || (!k.running && !k.stopping) ==> !k.running && Ownership(k, Away, c, inLock, bothDone)
    ensures k.inUse && k.stopping ==> Ownership(k, DoFinish, c, inLock, bothDone)
    ensures k.inUse && k.running && !k.stopping ==> Ownership(k, DoPump, c, inLock, bothDone)
  {
  }

  lemma LaneDone(k: Core, c: ControlAt, inLock: bool, bothDone: bool, bothDone': bool)
    requires Ownership(k, DoPump, c, inLock, bothDone) && (bothDone ==> bothDone')
    ensures Ownership(k, DoPump, c, inLock, bothDone')
  {
    hide Life, Completion, References;
  }

  lemma PumpOver(k: Core, c: ControlAt, inLock: bool, bothDone: bool)
    requires Ownership(k, DoPump, c, inLock, bothDone)
    ensures Ownership(k, Away, c, inLock, bothDone)
    ensures bothDone ==> Ownership(k, DoFinish, c, inLock, bothDone)
  {
  }

  lemma Finished(k: Core, c: ControlAt, inLock: bool, bothDone: bool)
    requires Ownership(k, DoFinish, c, inLock, bothDone) && k.inUse && !k.finishedNotified
    ensures var k' := k.(running := false, stopping := true, finishedNotified := true);
            Ownership(k', DoRelease, c, inLock, bothDone) && Ownership(k', DoSignal, c, inLock, bothDone)
  {
  }

  lemma FinishedAlready(k: Core, c: ControlAt, inLock: bool, bothDone: bool)
    requires Ownership(k, DoFinish, c, inLock, bothDone) && !(k.inUse && !k.finishedNotified)
    ensures Ownership(k, Away, c, inLock, bothDone) && !k.running
  {
  }

  lemma Released(k: Core, c: ControlAt, inLock: bool, bothDone: bool)
    requires Ownership(k, DoRelease, c, inLock, bothDone)
    ensures Ownership(k, DoSignal, c, inLock, bothDone)
  {
  }

  lemma Signalled(k: Core, c: ControlAt, inLock: bool, bothDone: bool)
    requires Ownership(k, DoSignal, c, inLock, bothDone)
    ensures Ownership(k.(finished := k.finished + 1, signals := k.signals + 1), Away, c, inLock, bothDone)
  {
  }

  lemma KFreed(k: Core, inLock: bool, bothDone: bool, c: ControlAt)
    requires Ownership(k, Away, c, inLock, bothDone) && k.retired
    ensures Ownership(k.(freed := true), Away, c, inLock, bothDone)
  {
  }

  // ----- the control thread: start -----

  lemma SetupAdvances(k: Core, y: Duty, c: ControlAt, inLock: bool, bothDone: bool, c': ControlAt)
    requires Ownership(k, y, c, inLock, bothDone)
    requires (c == Registering && c' == Connecting) || (c == Connecting && c' == Installing)
          || (c == Modifying && c' == Running)
    ensures Ownership(k, y, c', inLock, bothDone)
  {
  }

  lemma SetupFails(k: Core, y: Duty, c: ControlAt, inLock: bool, bothDone: bool)
    requires Ownership(k, y, c, inLock, bothDone) && Healthy(c) && !c.Running?
    ensures Ownership(k, y, FailRestore, inLock, bothDone)
    ensures c == Opening ==> Ownership(k.(hostOpen := true), y, FailRestore, inLock, bothDone)
    ensures c == Opening ==> Ownership(k.(hostOpen := false), y, FailRestore, inLock, bothDone)
  {
  }

  lemma Opened(k: Core, y: Duty, inLock: bool, bothDone: bool)
    requires Ownership(k, y, Opening, inLock, bothDone)
    ensures Ownership(k.(hostOpen := true), y, Registering, inLock, bothDone)
  {
  }

  lemma Installed(k: Core, y: Duty, inLock: bool, bothDone: bool)
    requires Ownership(k, y, Installing, inLock, bothDone)
    ensures Ownership(k.(callbacksInstalled := true), y, Modifying, inLock, bothDone)
  {
  }

  lemma Started(k: Core, y: Duty, inLock: bool, bothDone: bool)
    requires Ownership(k, y, Running, inLock, bothDone)
    ensures Ownership(k.(connecting := false, running := true), y, StartAdd, inLock, bothDone)
  {
  }

  lemma StartAdded(k: Core, y: Duty, inLock: bool, bothDone: bool)
    requires Ownership(k, y, StartAdd, inLock, bothDone)
    ensures Ownership(k, y, Free, inLock, bothDone)
  {
  }

  // ----- the control thread: disabling events and failing to start -----

  lemma FailRestored(k: Core, y: Duty, bothDone: bool, inLock: bool)
    requires Ownership(k, y, FailRestore, inLock, bothDone) && !inLock
    ensures Ownership(k.(callbacksInstalled := false), y, Disable(Accept, false), inLock, bothDone)
  {
  }

  lemma EventsRefused(k: Core, y: Duty, reap: bool, inLock: bool, bothDone: bool)
    requires Ownership(k, y, Disable(Accept, reap), inLock, bothDone)
    ensures Ownership(k.(acceptEvents := false), y, Disable(ReadRefs, reap), inLock, bothDone)
  {
  }

  lemma RefsRead(k: Core, y: Duty, reap: bool, inLock: bool, bothDone: bool)
    requires Ownership(k, y, Disable(ReadRefs, reap), inLock, bothDone)
    ensures k.eventRefs > 0 ==> Ownership(k, y, Disable(AwaitIdle, reap), inLock, bothDone)
    ensures k.eventRefs == 0 ==> Ownership(k, y, if reap then ReapRestore else FailClose, inLock, bothDone)
  {
  }

  lemma IdleAwaited(k: Core, y: Duty, reap: bool, inLock: bool, bothDone: bool)
    requires Ownership(k, y, Disable(AwaitIdle, reap), inLock, bothDone) && k.eventIdle > 0
    ensures Ownership(k.(eventIdle := k.eventIdle - 1), y, if reap then ReapRestore else FailClose, inLock, bothDone)
  {
  }

  lemma FailClosed(k: Core, y: Duty, inLock: bool, bothDone: bool)
    requires Ownership(k, y, FailClose, inLock, bothDone)
    ensures Ownership(HostShut(k), y, FailUnqueue, inLock, bothDone)
  {
  }

  lemma FailUnqueued(k: Core, y: Duty, inLock: bool, bothDone: bool)
    requires Ownership(k, y, FailUnqueue, inLock, bothDone)
    ensures Ownership(k.(readyQueued := false), y, FailUnbind, inLock, bothDone)
  {
  }

  lemma FailUnbound(k: Core, y: Duty, inLock: bool, bothDone: bool)
    requires Ownership(k, y, FailUnbind, inLock, bothDone)
    ensures k.bound && Ownership(k.(bound := false), y, FailClear, inLock, bothDone)
  {
  }

  function HostShut(k: Core): Core {
    k.(hostOpen := false)
  }

  function Consumed(k: Core): Core
    requires k.finished > 0
  {
    k.(finished := k.finished - 1)
  }

  function FailedCore(k: Core): Core {
    k.(publicOpen := false, connecting := false, running := false, stopping := false, acceptEvents := false, inUse := false)
  }

  function ClearedCore(k: Core): Core {
    k.(connecting := false, running := false, acceptEvents := false, inUse := false)
  }

  function ReapedCore(k: Core, code: int): Core {
    k.(hostOpen := false, publicOpen := false, reaps := k.reaps + 1, result := Some(if k.status != 0 then k.status else code))
  }

  lemma FailCleared(k: Core, y: Duty, inLock: bool, bothDone: bool)
    requires Ownership(k, y, FailClear, inLock, bothDone)
    ensures Ownership(FailedCore(k), y, FailRetire, inLock, bothDone)
  {
  }

  lemma Retired(k: Core, y: Duty, c: ControlAt, inLock: bool, bothDone: bool)
    requires Ownership(k, y, c, inLock, bothDone) && (c == FailRetire || c == ReapRetire)
    ensures !k.retired && !k.freed && Ownership(k.(retired := true), y, Free, inLock, bothDone)
  {
  }

  // ----- the control thread: join, reap, cancel -----

  lemma Chosen(k: Core, y: Duty, c: ControlAt, inLock: bool, bothDone: bool)
    requires Ownership(k, y, Free, inLock, bothDone) && k.bound
    requires c == Joining || c == Stop(StopLock)
    ensures Ownership(k, y, c, inLock, bothDone)
  {
  }

  lemma JoinExpired(k: Core, y: Duty, inLock: bool, bothDone: bool)
    requires Ownership(k, y, Joining, inLock, bothDone)
    ensures Ownership(k, y, Free, inLock, bothDone)
  {
  }

  lemma Joined(k: Core, y: Duty, inLock: bool, bothDone: bool)
    requires Ownership(k, y, Joining, inLock, bothDone) && k.finished > 0
    ensures Ownership(Consumed(k), y, Disable(Accept, true), inLock, bothDone)
  {
  }

  lemma ReapRestored(k: Core, y: Duty, inLock: bool, bothDone: bool)
    requires Ownership(k, y, ReapRestore, inLock, bothDone) && !inLock
    ensures Ownership(k.(callbacksInstalled := false), y, ReapUnqueue, inLock, bothDone)
  {
  }

  lemma ReapUnqueued(k: Core, y: Duty, inLock: bool, bothDone: bool)
    requires Ownership(k, y, ReapUnqueue, inLock, bothDone)
    ensures Ownership(k.(readyQueued := false), y, ReapClose, inLock, bothDone)
  {
  }

  lemma ReapClosed(k: Core, y: Duty, code: int, inLock: bool, bothDone: bool)
    requires Ownership(k, y, ReapClose, inLock, bothDone)
    ensures Ownership(ReapedCore(k, code), y, ReapClear, inLock, bothDone)
  {
  }

  lemma ReapCleared(k: Core, y: Duty, inLock: bool, bothDone: bool)
    requires Ownership(k, y, ReapClear, inLock, bothDone)
    ensures Ownership(ClearedCore(k), y, ReapUnbind, inLock, bothDone)
  {
  }

  lemma ReapUnbound(k: Core, y: Duty, inLock: bool, bothDone: bool)
    requires Ownership(k, y, ReapUnbind, inLock, bothDone)
    ensures k.bound && Ownership(k.(bound := false), y, ReapRetire, inLock, bothDone)
  {
  }

  lemma CancelStops(k: Core, y: Duty, inLock: bool, bothDone: bool)
    requires Ownership(k, y, Stop(StopLock), inLock, bothDone)
    ensures k.inUse && !k.connecting
    ensures Ownership(StopMark(k, -125), y, Stop(StopAdd), inLock, bothDone)
  {
  }

  lemma CancelAdded(k: Core, y: Duty, inLock: bool, bothDone: bool)
    requires Ownership(k, y, Stop(StopAdd), inLock, bothDone) && k.readyQueued
    ensures Ownership(k, y, Stop(StopWake), inLock, bothDone)
  {
  }

  lemma CancelWakes(k: Core, y: Duty, inLock: bool, bothDone: bool)
    requires Ownership(k, y, Stop(StopWake), inLock, bothDone)
    ensures Ownership(k, y, Stop(StopShut), inLock, bothDone)
  {
  }

  lemma CancelOver(k: Core, y: Duty, inLock: bool, bothDone: bool)
    requires Ownership(k, y, Stop(StopShut), inLock, bothDone)
    ensures Ownership(k, y, Free, inLock, bothDone)
  {
  }
}

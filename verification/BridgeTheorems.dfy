/** What holds in every state of every run of the bridge. */
module BridgeTheorems {
  import opened Lists
  import opened Lanes
  import opened SlotRegistry
  import opened Handles
  import opened BridgeState
  import opened BridgeSteps
  import opened BridgeInvariant
  import opened BridgeSessionProofs
  import opened BridgeFinishProofs
  import opened BridgeControlProofs
  import opened BridgeFrames
  import opened BridgeHandling
  import opened BridgeLooping
  import opened BridgeAllocating

  // ----- what the invariant says about one session -----

  lemma SessionFacts(st: State, s: nat)
    requires Inv(st) && s < |st.sessions|
    ensures var x, d, c := st.sessions[s], DispatchOf(st, s), ControlOf(st, s);
            && Ownership(x.core, DutyOf(d), c, DueOf(x).inLock, BothDone(x))
            && LaneInv(x.toBackend, ToBackend, d, x.core, c, DueOf(x)) && LaneInv(x.toPublic, ToPublic, d, x.core, c, DueOf(x))
            && Closing(Over(x), d, x.core, c, DueOf(x)) && Marks(x)
  {
    hide *;
    var x, d, c := st.sessions[s], DispatchOf(st, s), ControlOf(st, s);
    SessionAt(st, s);
    SessionParts(x, d, c);
    LocalParts(x, d, c, DueOf(x));
    FlowParts(x, d, c, DueOf(x));
  }

  lemma ListFacts(st: State, s: nat)
    requires Inv(st) && s < |st.sessions|
    ensures var x := st.sessions[s];
            && (s in st.ready <==> x.core.readyQueued) && (s in st.waiters <==> x.waitQueued)
            && (s in Unfreed(st) <==> x.core.retired && !x.core.freed) && (s in st.registry.active <==> x.core.bound)
  {
    hide *;
    InvParts(st);
    TablesParts(st);
    MarksAt(st.sessions, s);
    MirrorMember(st.ready, ReadyMarks(st.sessions), s);
    MirrorMember(st.waiters, WaitMarks(st.sessions), s);
    MirrorMember(Unfreed(st), RetiredMarks(st.sessions), s);
    BoundIsActive(st.registry, BoundMarks(st.sessions), Names(st.sessions), s);
  }

  // ----- memory lifetime -----

  /** No list, no slot and no thread refers to session s any more; no callback
      is inside its socket's lock and it holds no buffer and no reference. */
  ghost predicate Unreferenced(st: State, s: nat)
    requires s < |st.sessions|
  {
    && s !in st.ready && s !in st.waiters && s !in st.retired && s !in Spliced(st)
    && s !in st.registry.active && (forall id :: Lookup(st.registry, id) != Some(s))
    && DispatchOf(st, s) == Nothing && ControlOf(st, s) == Free
    && CallbackLockFree(st.sessions[s]) && st.sessions[s].core.eventRefs == 0
    && !st.sessions[s].toBackend.held && !st.sessions[s].toPublic.held
  }

  lemma FreedCore(k: Core, y: Duty, c: ControlAt, inLock: bool, bothDone: bool)
    requires Ownership(k, y, c, inLock, bothDone) && k.freed
    ensures !k.inUse && !k.bound && !k.readyQueued && !k.running && c == Free && y == Away && k.eventRefs == 0 && !inLock
  {
    hide Completion, Stops;
  }

  lemma FreedLane(l: Lane, way: Way, d: DispatchAt, k: Core, c: ControlAt, due: Due)
    requires LaneInv(l, way, d, k, c, due) && !k.running && d == Nothing
    ensures !l.waiting && !l.held
  {
    hide Stream, Moves, Quiet, Unlisted, ReadDue, WriteDue;
  }

  lemma NotWaiting(x: Session)
    requires Marks(x) && !x.toBackend.waiting && !x.toPublic.waiting
    ensures !x.waitQueued
  {
    hide Unused;
  }

  lemma AwayIsNothing(d: DispatchAt)
    requires DutyOf(d) == Away
    ensures d == Nothing
  {
  }

  lemma NoLock(x: Session)
    requires !DueOf(x).inLock
    ensures CallbackLockFree(x)
  {
  }

  lemma UnboundNowhere(st: State, s: nat)
    requires Inv(st) && s !in st.registry.active
    ensures forall id :: Lookup(st.registry, id) != Some(s)
  {
    hide *;
    InvParts(st);
    TablesParts(st);
    NotLookedUp(st.registry, BoundMarks(st.sessions), Names(st.sessions), s);
  }

  lemma NotLookedUp(r: Registry, bound: seq<bool>, names: seq<Name>, s: nat)
    requires RegistryInv(r, bound, names) && s !in r.active
    ensures forall id :: Lookup(r, id) != Some(s)
  {
    hide FreeListed, Counted, NamesInv, Mirrors;
  }

  lemma NotUnfreed(st: State, s: nat)
    requires s !in Unfreed(st)
    ensures s !in st.retired && s !in Spliced(st)
  {
    assert forall t :: t in st.retired || t in Spliced(st) ==> t in Unfreed(st);
  }

  lemma FreedIsUnreferenced(st: State, s: nat)
    requires Inv(st) && s < |st.sessions| && st.sessions[s].core.freed
    ensures Unreferenced(st, s)
  {
    hide *;
    var x, d, c := st.sessions[s], DispatchOf(st, s), ControlOf(st, s);
    SessionFacts(st, s);
    ListFacts(st, s);
    FreedCore(x.core, DutyOf(d), c, DueOf(x).inLock, BothDone(x));
    AwayIsNothing(d);
    FreedLane(x.toBackend, ToBackend, d, x.core, c, DueOf(x));
    FreedLane(x.toPublic, ToPublic, d, x.core, c, DueOf(x));
    NotWaiting(x);
    NoLock(x);
    NotUnfreed(st, s);
    UnboundNowhere(st, s);
    UnreferencedOf(st, s);
  }

  lemma UnreferencedOf(st: State, s: nat)
    requires s < |st.sessions|
    requires s !in st.ready && s !in st.waiters && s !in st.retired && s !in Spliced(st) && s !in st.registry.active
    requires forall id :: Lookup(st.registry, id) != Some(s)
    requires DispatchOf(st, s) == Nothing && ControlOf(st, s) == Free && CallbackLockFree(st.sessions[s])
    requires st.sessions[s].core.eventRefs == 0 && !st.sessions[s].toBackend.held && !st.sessions[s].toPublic.held
    ensures Unreferenced(st, s)
  {
    hide Spliced, Lookup, DispatchOf, ControlOf, CallbackLockFree;
  }

  /** Nothing refers to a freed session, in any state of any run. */
  lemma NoUseAfterFree(states: seq<State>, actions: seq<Action>, i: nat, s: nat)
    requires IsRun(states, actions) && i < |states| && s < |states[i].sessions| && states[i].sessions[s].core.freed
    ensures Unreferenced(states[i], s)
  {
    hide Inv, IsRun, Unreferenced;
    RunInv(states, actions, i);
    FreedIsUnreferenced(states[i], s);
  }

  // ----- no lost wake-up -----

  /** Nobody is about to queue session s: it is not on the ready queue, the
      dispatcher does not hold it, no callback stands between setting a flag and
      queueing, and the control thread does not stand before a queueing. */
  ghost predicate Undisturbed(st: State, s: nat)
    requires s < |st.sessions|
  {
    && s !in st.ready && DispatchOf(st, s) == Nothing && !HasStage(st.sessions[s], Marked)
    && ControlOf(st, s) != StartAdd && ControlOf(st, s) != Stop(StopAdd)
  }

  predicate Forwarding(x: Session) {
    x.core.running && !x.core.stopping
  }

  lemma QuietLane(l: Lane, way: Way, d: DispatchAt, k: Core, c: ControlAt, due: Due)
    requires LaneInv(l, way, d, k, c, due) && d == Nothing && Quiet(k, c, due.marked)
    ensures Blocked(l)
    ensures l.input ==> l.readable || ReadDue(way, due)
    ensures l.room ==> l.writable || WriteDue(way, due)
  {
    hide Stream, Shape, Blocked, ReadDue, WriteDue;
  }

  lemma UndisturbedIsQuiet(st: State, s: nat)
    requires Inv(st) && s < |st.sessions| && Forwarding(st.sessions[s]) && Undisturbed(st, s)
    ensures Quiet(st.sessions[s].core, ControlOf(st, s), DueOf(st.sessions[s]).marked) && DispatchOf(st, s) == Nothing
  {
    ListFacts(st, s);
    hide Inv, ControlOf, DispatchOf, Unfreed;
  }

  /** A session that forwards and that nobody is about to queue has no enabled
      work in either direction: each is done, has unsent bytes and a clear
      destination flag, waits for a buffer, or has a clear source flag. */
  lemma NoLostWakeup(states: seq<State>, actions: seq<Action>, i: nat, s: nat)
    requires IsRun(states, actions) && i < |states| && s < |states[i].sessions|
    requires Forwarding(states[i].sessions[s]) && Undisturbed(states[i], s)
    ensures Blocked(states[i].sessions[s].toBackend) && Blocked(states[i].sessions[s].toPublic)
  {
    hide *;
    RunInv(states, actions, i);
    var st := states[i];
    var x, c := st.sessions[s], ControlOf(st, s);
    SessionFacts(st, s);
    UndisturbedIsQuiet(st, s);
    QuietLane(x.toBackend, ToBackend, Nothing, x.core, c, DueOf(x));
    QuietLane(x.toPublic, ToPublic, Nothing, x.core, c, DueOf(x));
  }

  /** Nothing can move in this direction: it is done, its destination has no
      room for the unsent bytes, it waits for a buffer, or its source has
      neither bytes nor an end of stream. */
  predicate Stuck(l: Lane) {
    || l.done
    || (Pending(l) && !l.room)
    || (!Pending(l) && (l.waiting || !l.input))
  }

  lemma QuiescentLane(l: Lane, way: Way, d: DispatchAt, k: Core, c: ControlAt, due: Due)
    requires LaneInv(l, way, d, k, c, due) && d == Nothing && Quiet(k, c, due.marked) && !ReadDue(way, due) && !WriteDue(way, due)
    ensures Stuck(l)
  {
    hide LaneInv, Quiet, ReadDue, WriteDue;
    QuietLane(l, way, d, k, c, due);
  }

  lemma NothingDue(x: Session)
    requires x.callbacks == multiset{} && x.events == multiset{}
    ensures forall way :: !ReadDue(way, DueOf(x)) && !WriteDue(way, DueOf(x))
    ensures !HasStage(x, Marked) && !DueOf(x).closeCall
  {
  }

  lemma QuiescentOver(x: Session, k: Core, c: ControlAt, due: Due)
    requires Closing(Over(x), Nothing, k, c, due) && Quiet(k, c, due.marked) && !due.closeCall
    ensures !Over(x)
  {
    hide Quiet;
  }

  /** With no notification under way the same holds of the sockets themselves,
      whatever interleaving of edges and partial transfers led here; and a pair
      of finished streams on a closed socket does not linger. */
  lemma Quiescence(states: seq<State>, actions: seq<Action>, i: nat, s: nat)
    requires IsRun(states, actions) && i < |states| && s < |states[i].sessions|
    requires Forwarding(states[i].sessions[s]) && Undisturbed(states[i], s)
    requires states[i].sessions[s].callbacks == multiset{} && states[i].sessions[s].events == multiset{}
    ensures Stuck(states[i].sessions[s].toBackend) && Stuck(states[i].sessions[s].toPublic) && !Over(states[i].sessions[s])
  {
    hide *;
    RunInv(states, actions, i);
    var st := states[i];
    var x, c := st.sessions[s], ControlOf(st, s);
    SessionFacts(st, s);
    UndisturbedIsQuiet(st, s);
    NothingDue(x);
    QuiescentLane(x.toBackend, ToBackend, Nothing, x.core, c, DueOf(x));
    QuiescentLane(x.toPublic, ToPublic, Nothing, x.core, c, DueOf(x));
    QuiescentOver(x, x.core, c, DueOf(x));
  }

  // ----- stops and sleep -----

  lemma StopCore(k: Core, y: Duty, c: ControlAt, inLock: bool, bothDone: bool)
    requires Ownership(k, y, c, inLock, bothDone) && k.inUse && k.stopping && !k.connecting && !k.finishedNotified
    ensures k.status != 0 && StopScheduled(k, y, c)
  {
    hide Completion, References;
  }

  /** The dispatcher is about to finish the session, to look whether it is to be
      finished, or to queue it again for that. */
  predicate WillFinish(d: DispatchAt) {
    d.Taken? || d.Finishing? || (d.EventStop? && d.at.StopAdd?) || (d.Failing? && !d.at.StopLock?)
  }

  lemma ScheduledStops(k: Core, d: DispatchAt, c: ControlAt)
    requires StopScheduled(k, DutyOf(d), c)
    ensures k.readyQueued || WillFinish(d) || c == Stop(StopAdd)
  {
  }

  /** A stop makes progress: a session told to stop and not yet finished has a
      nonzero status and is queued, or the dispatcher is taking it, finishing it
      or queueing it, or the control thread is about to queue it. */
  lemma StopsProgress(states: seq<State>, actions: seq<Action>, i: nat, s: nat)
    requires IsRun(states, actions) && i < |states| && s < |states[i].sessions|
    requires var k := states[i].sessions[s].core; k.inUse && k.stopping && !k.connecting && !k.finishedNotified
    ensures states[i].sessions[s].core.status != 0
    ensures s in states[i].ready || WillFinish(DispatchOf(states[i], s)) || ControlOf(states[i], s) == Stop(StopAdd)
  {
    hide *;
    RunInv(states, actions, i);
    var st := states[i];
    var x, d, c := st.sessions[s], DispatchOf(st, s), ControlOf(st, s);
    SessionFacts(st, s);
    ListFacts(st, s);
    StopCore(x.core, DutyOf(d), c, DueOf(x).inLock, BothDone(x));
    ScheduledStops(x.core, d, c);
  }

  // ----- socket calls -----

  /** The dispatcher's next step calls into one of the session's sockets: a
      send, a receive or a half-close of the pump. */
  predicate Pumps(d: DispatchAt) {
    d.Sending? || d.Receiving? || d.HalfClosing?
  }

  /** The next step of the dispatcher or of the control thread may shut both
      sockets down. */
  predicate Shuts(d: DispatchAt, c: ControlAt) {
    d.Failing? || (d.EventStop? && d.at == StopShut) || c == Stop(StopShut)
  }

  lemma CallingCore(k: Core, d: DispatchAt, c: ControlAt, inLock: bool, bothDone: bool)
    requires Ownership(k, DutyOf(d), c, inLock, bothDone)
    ensures Pumps(d) || Shuts(d, c) ==> k.inUse && !k.connecting && k.hostOpen && k.publicOpen && !k.freed && !k.retired
    ensures Pumps(d) ==> k.running && k.callbacksInstalled
  {
    hide Stops;
  }

  /** Sockets are called only while they are open: the pump works on a running
      session with its callbacks installed, and no teardown overtakes a pump, an
      error event or a cancel. */
  lemma SocketsOpen(states: seq<State>, actions: seq<Action>, i: nat, s: nat)
    requires IsRun(states, actions) && i < |states| && s < |states[i].sessions|
    ensures var k, d, c := states[i].sessions[s].core, DispatchOf(states[i], s), ControlOf(states[i], s);
            && (Pumps(d) || Shuts(d, c) ==> k.inUse && !k.connecting && k.hostOpen && k.publicOpen && !k.freed && !k.retired)
            && (Pumps(d) ==> k.running && k.callbacksInstalled)
  {
    hide *;
    RunInv(states, actions, i);
    var st := states[i];
    var x, d, c := st.sessions[s], DispatchOf(st, s), ControlOf(st, s);
    SessionFacts(st, s);
    CallingCore(x.core, d, c, DueOf(x).inLock, BothDone(x));
  }

  /** Some thread stands between adding to a list and waking the dispatcher. */
  ghost predicate WakeUnderWay(st: State) {
    ControlWakes(st.control) || HasAdded(st.sessions)
  }

  lemma AsleepFacts(st: State)
    requires Alert(st) && st.dispatcher.round == Asleep && !st.pending && !WakeUnderWay(st)
    ensures st.ready == [] && st.retired == [] && (HasEvents(st) ==> st.notifiers > 0)
  {
    hide HasEvents, HasAdded, ControlWakes;
  }

  /** The dispatcher does not sleep on work: asleep, with its pending flag clear
      and nobody between adding and waking, both lists it serves are empty and
      every unpolled event still has its notifier call to come. */
  lemma NeverAsleepOnWork(states: seq<State>, actions: seq<Action>, i: nat)
    requires IsRun(states, actions) && i < |states|
    requires states[i].dispatcher.round == Asleep && !states[i].pending && !WakeUnderWay(states[i])
    ensures states[i].ready == [] && states[i].retired == [] && (HasEvents(states[i]) ==> states[i].notifiers > 0)
  {
    hide *;
    RunInv(states, actions, i);
    InvParts(states[i]);
    AsleepFacts(states[i]);
  }

  lemma AwaitCore(k: Core, y: Duty, c: ControlAt, inLock: bool, bothDone: bool)
    requires Ownership(k, y, c, inLock, bothDone) && c.Disable? && c.phase == AwaitIdle
    ensures k.eventIdle > 0 || HoldsRef(y) || y.DoIdle?
  {
    hide Life, Completion, Stops;
  }

  lemma HoldingEvent(d: DispatchAt)
    requires HoldsRef(DutyOf(d)) || DutyOf(d).DoIdle?
    ensures EventAt(d)
  {
  }

  /** A reap that waits for the event references to go has been answered, or the
      dispatcher is handling an event of that session. */
  lemma AwaitedIdleComes(states: seq<State>, actions: seq<Action>, i: nat, s: nat)
    requires IsRun(states, actions) && i < |states| && s < |states[i].sessions|
    requires var c := ControlOf(states[i], s); c.Disable? && c.phase == AwaitIdle
    ensures states[i].sessions[s].core.eventIdle > 0 || EventAt(DispatchOf(states[i], s))
  {
    hide *;
    RunInv(states, actions, i);
    var st := states[i];
    var x, d, c := st.sessions[s], DispatchOf(st, s), ControlOf(st, s);
    SessionFacts(st, s);
    AwaitCore(x.core, DutyOf(d), c, DueOf(x).inLock, BothDone(x));
    if !(x.core.eventIdle > 0) {
      HoldingEvent(d);
    }
  }

  // ----- byte streams -----

  /** What one direction has done so far: it sent a prefix of what it received,
      counted it, and half-closed only after everything was sent. */
  ghost predicate Faithful(l: Lane) {
    && l.sent <= l.received
    && (l.shut ==> l.eof && l.sent == l.received)
    && (l.done <==> l.shut)
  }

  lemma RunningStream(l: Lane, way: Way, d: DispatchAt)
    requires Stream(l, way, d, true)
    ensures l.sent <= l.received && (!d.Sent? && !d.Received? && !l.held ==> l.sent == l.received)
  {
  }

  lemma SendingNotEnded(l: Lane, way: Way, d: DispatchAt, running: bool)
    requires Shape(l, way, d, running) && (d.Sent? || d.Received?) && d.way == way
    ensures !l.eof
  {
  }

  lemma FaithfulLane(l: Lane, way: Way, d: DispatchAt, k: Core, c: ControlAt, due: Due)
    requires LaneInv(l, way, d, k, c, due) && (OnLane(d, way) ==> k.running)
    ensures Faithful(l)
  {
    hide Moves, Quiet, Unlisted, ReadDue, WriteDue, InLane;
    if k.running && !((d.Sent? || d.Received?) && d.way == way) {
      hide Shape;
      assert StreamOk(l);
      assert Shape(l, way, d, k.running);
      IdleStream(l);
      ShutFacts(l, way, d, k.running);
    } else if k.running {
      RunningStream(l, way, d);
      SendingNotEnded(l, way, d, k.running);
      ShutFacts(l, way, d, k.running);
    } else {
      assert Remains(l);
      ShutFacts(l, way, d, k.running);
    }
  }

  lemma IdleStream(l: Lane)
    requires StreamOk(l)
    ensures l.sent <= l.received && (!l.held ==> l.sent == l.received)
  {
  }

  lemma ShutFacts(l: Lane, way: Way, d: DispatchAt, running: bool)
    requires Shape(l, way, d, running)
    ensures (l.done <==> l.shut) && (l.shut ==> l.eof && !l.held)
  {
    hide InLane, OnLane;
  }

  lemma OnLaneRuns(k: Core, d: DispatchAt, c: ControlAt, inLock: bool, bothDone: bool, way: Way)
    requires Ownership(k, DutyOf(d), c, inLock, bothDone)
    ensures OnLane(d, way) ==> k.running
  {
    hide Completion, References, Stops;
  }

  /** Each direction of each session has sent a prefix of what it received, and
      sends its half-close only once the end of stream was read and every byte
      received before it was sent. */
  lemma StreamsFaithful(states: seq<State>, actions: seq<Action>, i: nat, s: nat)
    requires IsRun(states, actions) && i < |states| && s < |states[i].sessions|
    ensures Faithful(states[i].sessions[s].toBackend) && Faithful(states[i].sessions[s].toPublic)
  {
    hide *;
    RunInv(states, actions, i);
    var st := states[i];
    var x, d, c := st.sessions[s], DispatchOf(st, s), ControlOf(st, s);
    SessionFacts(st, s);
    OnLaneRuns(x.core, d, c, DueOf(x).inLock, BothDone(x), ToBackend);
    OnLaneRuns(x.core, d, c, DueOf(x).inLock, BothDone(x), ToPublic);
    FaithfulLane(x.toBackend, ToBackend, d, x.core, c, DueOf(x));
    FaithfulLane(x.toPublic, ToPublic, d, x.core, c, DueOf(x));
  }

  /** The dispatcher stands between a socket call on this lane and the update
      of its offsets. */
  predicate Unsettled(d: DispatchAt, way: Way) {
    (d.Sent? || d.Received?) && d.way == way
  }

  lemma ExactLane(l: Lane, way: Way, d: DispatchAt, k: Core, c: ControlAt, due: Due)
    requires LaneInv(l, way, d, k, c, due) && k.running && !Unsettled(d, way)
    ensures StreamOk(l)
  {
    hide Shape, Moves, Quiet, Unlisted, ReadDue, WriteDue, StreamOk;
  }

  /** While a session runs, what it received is what it sent followed by the
      unsent part of its buffer, and the byte counter counts what it sent. */
  lemma StreamsExact(states: seq<State>, actions: seq<Action>, i: nat, s: nat, way: Way)
    requires IsRun(states, actions) && i < |states| && s < |states[i].sessions|
    requires states[i].sessions[s].core.running && !Unsettled(DispatchOf(states[i], s), way)
    ensures StreamOk(GetLane(states[i].sessions[s], way))
  {
    hide *;
    RunInv(states, actions, i);
    var st := states[i];
    var x, d, c := st.sessions[s], DispatchOf(st, s), ControlOf(st, s);
    SessionFacts(st, s);
    GetLanes(x, way);
    ExactLane(GetLane(x, way), way, d, x.core, c, DueOf(x));
  }

  lemma GetLanes(x: Session, way: Way)
    ensures GetLane(x, way) == if way == ToBackend then x.toBackend else x.toPublic
  {
  }

  // ----- join -----

  lemma JoinedCore(k: Core, y: Duty, c: ControlAt, inLock: bool, bothDone: bool)
    requires Ownership(k, y, c, inLock, bothDone) && k.result.Some?
    ensures k.reaps == 1 && k.signals == 1 && k.finishedNotified && !k.running && (k.result == Some(0) ==> bothDone)
  {
    hide References;
  }

  lemma DoneBytes(l: Lane, way: Way, d: DispatchAt, k: Core, c: ControlAt, due: Due)
    requires LaneInv(l, way, d, k, c, due) && !k.running && !OnLane(d, way)
    ensures l.bytes == |l.sent|
  {
    hide Shape, Moves, Quiet, Unlisted, ReadDue, WriteDue;
  }

  lemma NotOnLane(k: Core, d: DispatchAt, c: ControlAt, inLock: bool, bothDone: bool, way: Way)
    requires Ownership(k, DutyOf(d), c, inLock, bothDone) && !k.running
    ensures !OnLane(d, way)
  {
    hide Completion, References, Stops;
  }

  /** Forwarded completely: the end was read, every byte before it was sent and
      counted, and then the half-close. */
  ghost predicate Complete(l: Lane) {
    l.eof && l.shut && l.done && l.sent == l.received && l.bytes == |l.sent|
  }

  /** A join that returned 0 belongs to a session that forwarded both byte
      streams completely, half-closes included. */
  lemma JoinZeroMeansComplete(states: seq<State>, actions: seq<Action>, i: nat, s: nat)
    requires IsRun(states, actions) && i < |states| && s < |states[i].sessions|
    requires states[i].sessions[s].core.result == Some(0)
    ensures Complete(states[i].sessions[s].toBackend) && Complete(states[i].sessions[s].toPublic)
  {
    StreamsFaithful(states, actions, i, s);
    hide IsRun, Complete;
    RunInv(states, actions, i);
    hide *;
    var st := states[i];
    var x, d, c := st.sessions[s], DispatchOf(st, s), ControlOf(st, s);
    SessionFacts(st, s);
    JoinedCore(x.core, DutyOf(d), c, DueOf(x).inLock, BothDone(x));
    NotOnLane(x.core, d, c, DueOf(x).inLock, BothDone(x), ToBackend);
    NotOnLane(x.core, d, c, DueOf(x).inLock, BothDone(x), ToPublic);
    DoneBytes(x.toBackend, ToBackend, d, x.core, c, DueOf(x));
    DoneBytes(x.toPublic, ToPublic, d, x.core, c, DueOf(x));
    CompleteOf(x);
  }

  lemma CompleteOf(x: Session)
    requires BothDone(x) && Faithful(x.toBackend) && Faithful(x.toPublic)
    requires x.toBackend.bytes == |x.toBackend.sent| && x.toPublic.bytes == |x.toPublic.sent|
    ensures Complete(x.toBackend) && Complete(x.toPublic)
  {
  }

  // ----- buffers -----

  lemma BudgetFacts(st: State)
    requires TablesInv(st)
    ensures st.bufferBytes == BUFFER_LIMIT * HeldCount(st.sessions) && st.bufferBytes <= TOTAL_BUFFER_LIMIT
  {
    hide Mirrors, RegistryInv, HeldCount;
  }

  lemma ScarceFacts(st: State)
    requires ScarceInv(st)
    ensures st.waiters != [] ==> (st.bufferBytes == TOTAL_BUFFER_LIMIT <==> !Waking(st.dispatcher.at))
    ensures Waking(st.dispatcher.at) ==> st.bufferBytes + BUFFER_LIMIT <= TOTAL_BUFFER_LIMIT
  {
  }

  /** Buffer accounting: the counter is 16 KiB times the buffers held and never
      exceeds 256 KiB; while sessions wait it is used up exactly when the
      dispatcher is not just waking them, and short of that there is at least
      one buffer to spare. */
  lemma BuffersAccounted(states: seq<State>, actions: seq<Action>, i: nat)
    requires IsRun(states, actions) && i < |states|
    ensures states[i].bufferBytes == BUFFER_LIMIT * HeldCount(states[i].sessions) && states[i].bufferBytes <= TOTAL_BUFFER_LIMIT
    ensures states[i].waiters != [] ==> (states[i].bufferBytes == TOTAL_BUFFER_LIMIT <==> !Waking(states[i].dispatcher.at))
    ensures Waking(states[i].dispatcher.at) ==> states[i].bufferBytes + BUFFER_LIMIT <= TOTAL_BUFFER_LIMIT
  {
    hide *;
    RunInv(states, actions, i);
    InvParts(states[i]);
    BudgetFacts(states[i]);
    ScarceFacts(states[i]);
  }

  lemma DroppedBuffer(st: State, r: Reply)
    requires CanHandle(st, r) && st.dispatcher.at.Receiving? && r.Again?
    requires var x := st.sessions[st.dispatcher.session]; GetLane(x, st.dispatcher.at.way).held
    requires st.bufferBytes == TOTAL_BUFFER_LIMIT
    ensures Handle(st, r).waiters == st.waiters && Handle(st, r).dispatcher.at.Draining?
    ensures Handle(st, r).bufferBytes + BUFFER_LIMIT == TOTAL_BUFFER_LIMIT
  {
  }

  lemma ReceivingLane(l: Lane, way: Way, d: DispatchAt, k: Core, c: ControlAt, due: Due)
    requires LaneInv(l, way, d, k, c, due) && d.Receiving? && d.way == way
    ensures l.held
  {
    hide Stream, Moves, Quiet, Unlisted, ReadDue, WriteDue;
  }

  /** The exception is real: whenever a receive blocks while sessions wait, the
      very next state has waiters and exactly one buffer to spare. */
  lemma WaitersWithBudget(states: seq<State>, actions: seq<Action>, i: nat)
    requires IsRun(states, actions) && i + 1 < |states|
    requires states[i].dispatcher.at.Receiving? && states[i].waiters != [] && actions[i] == ByDispatcher(Again)
    ensures states[i + 1].waiters != [] && Waking(states[i + 1].dispatcher.at)
    ensures states[i + 1].bufferBytes + BUFFER_LIMIT == TOTAL_BUFFER_LIMIT
  {
    var st := states[i];
    assert Can(st, actions[i]) && states[i + 1] == Do(st, actions[i]);
    assert CanHandle(st, Again) && states[i + 1] == Handle(st, Again) && !Waking(st.dispatcher.at);
    assert forall d: DispatchAt :: d.Draining? ==> Waking(d);
    assert DispatchOf(st, st.dispatcher.session) == st.dispatcher.at && st.dispatcher.session < |st.sessions|;
    hide *;
    RunInv(states, actions, i);
    InvParts(st);
    ScarceFacts(st);
    var s, d := st.dispatcher.session, st.dispatcher.at;
    var x := st.sessions[s];
    SessionFacts(st, s);
    GetLanes(x, d.way);
    ReceivingLane(GetLane(x, d.way), d.way, d, x.core, ControlOf(st, s), DueOf(x));
    DroppedBuffer(st, Again);
  }

  lemma WaitFacts(x: Session)
    requires Marks(x)
    ensures x.waitQueued <==> x.toBackend.waiting || x.toPublic.waiting
  {
    hide Unused;
  }

  /** A session is on the waiter list exactly when one of its directions is
      marked as waiting. */
  lemma WaitersMarked(states: seq<State>, actions: seq<Action>, i: nat, s: nat)
    requires IsRun(states, actions) && i < |states| && s < |states[i].sessions|
    ensures s in states[i].waiters <==> states[i].sessions[s].toBackend.waiting || states[i].sessions[s].toPublic.waiting
  {
    hide *;
    RunInv(states, actions, i);
    SessionFacts(states[i], s);
    ListFacts(states[i], s);
    WaitFacts(states[i].sessions[s]);
  }

  lemma HeldLane(l: Lane, way: Way, d: DispatchAt, k: Core, c: ControlAt, due: Due)
    requires LaneInv(l, way, d, k, c, due) && k.running && !k.stopping && l.held && d == Nothing
    ensures l.readable && (!k.readyQueued ==> Pending(l))
  {
    hide Stream, Quiet, ReadDue, WriteDue, Blocked, Pending, InLane;
  }

  /** Buffers are not held idle: a session that forwards, outside the pump, has
      the source flag set wherever it holds a buffer, and outside the ready
      queue it holds one only for unsent bytes. */
  lemma NoIdleBuffers(states: seq<State>, actions: seq<Action>, i: nat, s: nat, way: Way)
    requires IsRun(states, actions) && i < |states| && s < |states[i].sessions|
    requires Forwarding(states[i].sessions[s]) && DispatchOf(states[i], s) == Nothing && GetLane(states[i].sessions[s], way).held
    ensures GetLane(states[i].sessions[s], way).readable
    ensures s !in states[i].ready ==> Pending(GetLane(states[i].sessions[s], way))
  {
    assert states[i].sessions[s].core.running && !states[i].sessions[s].core.stopping by { hide IsRun, GetLane; }
    hide *;
    RunInv(states, actions, i);
    var st := states[i];
    var x, d, c := st.sessions[s], DispatchOf(st, s), ControlOf(st, s);
    SessionFacts(st, s);
    ListFacts(st, s);
    GetLanes(x, way);
    HeldLane(GetLane(x, way), way, d, x.core, c, DueOf(x));
  }

  // ----- completion, reaping and handles -----

  lemma OnceCore(k: Core, y: Duty, c: ControlAt, inLock: bool, bothDone: bool)
    requires Ownership(k, y, c, inLock, bothDone)
    ensures k.signals <= 1 && k.reaps <= 1 && k.reaps <= k.signals && (k.reaps == 1 <==> k.result.Some?)
    ensures k.finished <= k.signals
  {
    hide References, Stops;
  }

  /** Each session is signalled at most once, reaped at most once, and never
      reaped before it was signalled. */
  lemma ExactlyOnce(states: seq<State>, actions: seq<Action>, i: nat, s: nat)
    requires IsRun(states, actions) && i < |states| && s < |states[i].sessions|
    ensures var k := states[i].sessions[s].core;
            k.signals <= 1 && k.reaps <= k.signals && k.finished <= k.signals && (k.reaps == 1 <==> k.result.Some?)
  {
    hide *;
    RunInv(states, actions, i);
    var st := states[i];
    var x, d, c := st.sessions[s], DispatchOf(st, s), ControlOf(st, s);
    SessionFacts(st, s);
    OnceCore(x.core, DutyOf(d), c, DueOf(x).inLock, BothDone(x));
  }

  function HandleOf(x: Session): nat {
    MakeHandle(x.name.slot, x.name.generation)
  }

  lemma HandleOfIs(x: Session)
    ensures HandleOf(x) == MakeHandle(x.name.slot, x.name.generation)
  {
    hide MakeHandle;
  }

  lemma HandleLookup(r: Registry, bound: seq<bool>, names: seq<Name>, s: nat)
    requires RegistryInv(r, bound, names) && s < |names|
    ensures 1 <= names[s].slot <= |r.slots| && 1 <= names[s].ordinal <= r.slots[names[s].slot - 1].count
    ensures FindHandle(r, MakeHandle(names[s].slot, names[s].generation)) ==
            if (r.slots[names[s].slot - 1].count - names[s].ordinal) % 2047 == 0
            then r.slots[names[s].slot - 1].session else None
  {
    hide Partitioned, Mirrors, FindHandle, MakeHandle;
    assert NameOk(r, names[s], s);
    FindHandleSpec(r, names[s].slot, names[s].ordinal);
  }

  lemma SmallRemainder(n: int)
    requires 0 < n < 2047
    ensures n % 2047 != 0
  {
  }

  lemma HandleFinds(st: State, s: nat)
    requires Inv(st) && s < |st.sessions|
    ensures var name := st.sessions[s].name; var slots := st.registry.slots;
            && 1 <= name.slot <= |slots| && 1 <= name.ordinal <= slots[name.slot - 1].count
            && FindHandle(st.registry, HandleOf(st.sessions[s])) ==
               (if (slots[name.slot - 1].count - name.ordinal) % 2047 == 0 then slots[name.slot - 1].session else None)
  {
    hide *;
    InvParts(st);
    TablesParts(st);
    MarksAt(st.sessions, s);
    HandleLookup(st.registry, BoundMarks(st.sessions), Names(st.sessions), s);
    HandleOfIs(st.sessions[s]);
  }

  /** The sessions the slot of session s was given to since. */
  function Successors(st: State, s: nat): int
    requires s < |st.sessions| && 1 <= st.sessions[s].name.slot <= |st.registry.slots|
  {
    st.registry.slots[st.sessions[s].name.slot - 1].count - st.sessions[s].name.ordinal
  }

  /** The handle of a session that is no longer bound finds nothing until its
      slot has been given out 2047 times more, and never that session. */
  lemma StaleHandleFindsNothing(states: seq<State>, actions: seq<Action>, i: nat, s: nat)
    requires IsRun(states, actions) && i < |states| && s < |states[i].sessions|
    requires s !in states[i].registry.active
    ensures 1 <= states[i].sessions[s].name.slot <= |states[i].registry.slots| && Successors(states[i], s) >= 0
    ensures FindHandle(states[i].registry, HandleOf(states[i].sessions[s])) != Some(s)
    ensures Successors(states[i], s) < 2047 ==> FindHandle(states[i].registry, HandleOf(states[i].sessions[s])).None?
  {
    hide IsRun, Inv, FindHandle, HandleOf;
    RunInv(states, actions, i);
    var st := states[i];
    HandleFinds(st, s);
    UnboundNowhere(st, s);
    var id := st.sessions[s].name.slot;
    assert Lookup(st.registry, id) != Some(s);
    if 0 < Successors(st, s) < 2047 {
      SmallRemainder(Successors(st, s));
    }
    if Successors(st, s) == 0 {
      LastHolder(st, s);
    }
  }

  lemma ReapedCore(k: Core, y: Duty, c: ControlAt, inLock: bool, bothDone: bool)
    requires Ownership(k, y, c, inLock, bothDone) && k.result.Some? && c == Free
    ensures !k.bound
  {
    hide References, Stops;
  }

  /** Once a join has returned a session's status, join and cancel on its handle
      find nothing and change nothing, until the handle comes round again. */
  lemma JoinedHandleIsDead(states: seq<State>, actions: seq<Action>, i: nat, s: nat)
    requires IsRun(states, actions) && i < |states| && s < |states[i].sessions|
    requires states[i].sessions[s].core.result.Some?
    requires var h := HandleOf(states[i].sessions[s]); CanBegin(states[i], BeginJoin(h)) && CanBegin(states[i], BeginCancel(h))
    ensures 1 <= states[i].sessions[s].name.slot <= |states[i].registry.slots|
    ensures Successors(states[i], s) < 2047 ==>
              && Begin(states[i], BeginJoin(HandleOf(states[i].sessions[s]))) == states[i]
              && Begin(states[i], BeginCancel(HandleOf(states[i].sessions[s]))) == states[i]
  {
    var st := states[i];
    var x, d, c := st.sessions[s], DispatchOf(st, s), ControlOf(st, s);
    assert c == Free by { hide IsRun; }
    assert s !in st.registry.active by {
      hide *;
      RunInv(states, actions, i);
      SessionFacts(st, s);
      ListFacts(st, s);
      ReapedCore(x.core, DutyOf(d), c, DueOf(x).inLock, BothDone(x));
    }
    hide IsRun, FindHandle, HandleOf, AllocateSession;
    StaleHandleFindsNothing(states, actions, i, s);
  }

  lemma LastHolder(st: State, s: nat)
    requires Inv(st) && s < |st.sessions| && s !in st.registry.active
    requires var name := st.sessions[s].name; 1 <= name.slot <= |st.registry.slots| && st.registry.slots[name.slot - 1].count == name.ordinal
    ensures st.registry.slots[st.sessions[s].name.slot - 1].session.None?
  {
    hide *;
    InvParts(st);
    TablesParts(st);
    MarksAt(st.sessions, s);
    LastHolderGone(st.registry, BoundMarks(st.sessions), Names(st.sessions), s);
  }

  lemma LastHolderGone(r: Registry, bound: seq<bool>, names: seq<Name>, s: nat)
    requires RegistryInv(r, bound, names) && s < |names| && s !in r.active
    requires 1 <= names[s].slot <= |r.slots| && r.slots[names[s].slot - 1].count == names[s].ordinal
    ensures r.slots[names[s].slot - 1].session.None?
  {
    hide *;
    var session := r.slots[names[s].slot - 1].session;
    if session.Some? {
      HolderIsLast(r, bound, names, s, session.value);
    }
  }

  lemma HolderIsLast(r: Registry, bound: seq<bool>, names: seq<Name>, s: nat, t: nat)
    requires RegistryInv(r, bound, names) && s < |names|
    requires 1 <= names[s].slot <= |r.slots| && r.slots[names[s].slot - 1] == Slot(r.slots[names[s].slot - 1].generation, names[s].ordinal, Some(t))
    ensures t == s && t in r.active
  {
    hide FreeListed, Counted, Mirrors, GenerationAfter, NoDup;
    assert t in r.active && r.home[t] == names[s].slot;
    assert NameCurrent(r, names, t) && NameOk(r, names[t], t) && NameOk(r, names[s], s);
    assert names[t] == names[s];
    if t != s {
      DistinctNames(names, s, t);
    }
  }

  lemma DistinctNames(names: seq<Name>, s: nat, t: nat)
    requires NoDup(names) && s < |names| && t < |names| && s != t
    ensures names[s] != names[t]
  {
  }

  /** The handle of a bound session finds that session, and no two bound
      sessions have the same handle. */
  lemma LiveHandles(states: seq<State>, actions: seq<Action>, i: nat, s: nat, t: nat)
    requires IsRun(states, actions) && i < |states| && s < |states[i].sessions| && t < |states[i].sessions|
    requires s in states[i].registry.active && t in states[i].registry.active
    ensures FindHandle(states[i].registry, HandleOf(states[i].sessions[s])) == Some(s)
    ensures HandleOf(states[i].sessions[s]) == HandleOf(states[i].sessions[t]) ==> s == t
  {
    hide *;
    RunInv(states, actions, i);
    LiveHandleFinds(states[i], s);
    LiveHandleFinds(states[i], t);
  }

  lemma LiveHandleFinds(st: State, s: nat)
    requires Inv(st) && s < |st.sessions| && s in st.registry.active
    ensures FindHandle(st.registry, HandleOf(st.sessions[s])) == Some(s)
  {
    hide *;
    HandleFinds(st, s);
    InvParts(st);
    TablesParts(st);
    MarksAt(st.sessions, s);
    CurrentHolder(st.registry, BoundMarks(st.sessions), Names(st.sessions), s);
  }

  lemma CurrentHolder(r: Registry, bound: seq<bool>, names: seq<Name>, s: nat)
    requires RegistryInv(r, bound, names) && s < |names| && s in r.active
    ensures 1 <= names[s].slot <= |r.slots|
    ensures r.slots[names[s].slot - 1].session == Some(s) && r.slots[names[s].slot - 1].count == names[s].ordinal
  {
    hide FreeListed, Counted, Mirrors, GenerationAfter, NoDup;
    assert NameCurrent(r, names, s) && NameOk(r, names[s], s);
  }

  /** Between any two steps every slot is free-listed once or bound to exactly
      one active session. */
  lemma RegistryPartitioned(states: seq<State>, actions: seq<Action>, i: nat)
    requires IsRun(states, actions) && i < |states|
    ensures Partitioned(states[i].registry)
  {
    hide IsRun, Inv, Partitioned;
    RunInv(states, actions, i);
    InvParts(states[i]);
    hide SessionsInv, Alert, OperationInv, ScarceInv, PositionInv, Mirrors, BudgetInv, NamesInv;
  }

  // ----- cancelling everything -----

  lemma OffFacts(st: State)
    requires OperationInv(st) && st.dispatcher.round == Off
    ensures st.registry.active == [] && st.retired == [] && st.control.at == Free && Spliced(st) == []
  {
    hide CancelInv;
  }

  lemma GoneCore(k: Core, y: Duty, c: ControlAt, inLock: bool, bothDone: bool)
    requires Ownership(k, y, c, inLock, bothDone) && !k.bound && c == Free
    ensures k.retired
  {
    hide Completion, References, Stops;
  }

  lemma NoControl(st: State, s: nat)
    requires st.control.at == Free
    ensures ControlOf(st, s) == Free
  {
  }

  lemma OffIsFreed(st: State, s: nat)
    requires Inv(st) && st.dispatcher.round == Off && s < |st.sessions|
    ensures st.sessions[s].core.freed
  {
    hide *;
    InvParts(st);
    OffFacts(st);
    NoControl(st, s);
    SessionFacts(st, s);
    ListFacts(st, s);
    var x, d := st.sessions[s], DispatchOf(st, s);
    GoneCore(x.core, DutyOf(d), Free, DueOf(x).inLock, BothDone(x));
    UnfreedIs(st);
  }

  lemma UnfreedIs(st: State)
    ensures Unfreed(st) == st.retired + Spliced(st)
  {
  }

  /** Whenever there is no dispatcher thread, as before the first start and
      after tcpcc_bridge_cancel returned, every session ever started has been
      freed, no slot is bound and no buffer is held. */
  lemma CancelLeavesNothing(states: seq<State>, actions: seq<Action>, i: nat)
    requires IsRun(states, actions) && i < |states| && states[i].dispatcher.round == Off
    ensures forall s :: 0 <= s < |states[i].sessions| ==> states[i].sessions[s].core.freed && Unreferenced(states[i], s)
    ensures states[i].registry.active == [] && states[i].bufferBytes == 0
  {
    hide *;
    RunInv(states, actions, i);
    var st := states[i];
    InvParts(st);
    OffFacts(st);
    forall s | 0 <= s < |st.sessions| ensures st.sessions[s].core.freed && Unreferenced(st, s) {
      OffIsFreed(st, s);
      FreedIsUnreferenced(st, s);
    }
    BudgetFacts(st);
    forall s | 0 <= s < |st.sessions| ensures !st.sessions[s].toBackend.held && !st.sessions[s].toPublic.held {
      NothingHeld(st, s);
    }
    NoneHeld(st.sessions);
  }

  lemma NothingHeld(st: State, s: nat)
    requires s < |st.sessions| && Unreferenced(st, s)
    ensures !st.sessions[s].toBackend.held && !st.sessions[s].toPublic.held
  {
    hide Spliced, Lookup, DispatchOf, ControlOf, CallbackLockFree;
  }

  lemma {:induction false} NoneHeld(sessions: seq<Session>)
    requires forall s :: 0 <= s < |sessions| ==> !sessions[s].toBackend.held && !sessions[s].toPublic.held
    ensures HeldCount(sessions) == 0
  {
    if sessions != [] {
      NoneHeld(sessions[..|sessions| - 1]);
    }
  }
}

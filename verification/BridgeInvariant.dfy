/** The inductive invariant of the bridge.

    Most of it is local: it relates one session to what the dispatcher and the
    control thread are doing with that session.  The rest ties the manager's
    lists, budget and registry to the sessions. */
module BridgeInvariant {
  import opened Lists
  import opened Lanes
  import opened SlotRegistry
  import opened Handles
  import opened BridgeState
  import opened BridgeSteps

  // ----- where the dispatcher stands -----

  /** The dispatcher's business with a session, without its place in a lane. */
  datatype Duty =
    | Away
    | DoConnect | DoEventStop(at: StopAt, status: int) | DoEventAdd | DoPut | DoIdle
    | DoTaken | DoPump | DoFail(at: StopAt, status: int) | DoFinish | DoRelease | DoSignal

  function DutyOf(d: DispatchAt): Duty {
    match d
    case Nothing => Away
    case EventConnect => DoConnect
    case EventStop(at, status) => DoEventStop(at, status)
    case EventAdd => DoEventAdd
    case EventPut => DoPut
    case EventIdle => DoIdle
    case Taken => DoTaken
    case Failing(at, status) => DoFail(at, status)
    case Finishing => DoFinish
    case Releasing(_) => DoRelease
    case Signalling => DoSignal
    case _ => DoPump
  }

  predicate HoldsRef(y: Duty) {
    y.DoConnect? || y.DoEventStop? || y.DoEventAdd? || y.DoPut?
  }

  /** Between marking a session finished and signalling it. */
  predicate Ending(y: Duty) {
    y.DoRelease? || y.DoSignal?
  }

  // ----- where the control thread stands -----

  /** Starting or failing to start: the session is still connecting. */
  predicate Setup(c: ControlAt) {
    || c.Opening? || c.Registering? || c.Connecting? || c.Installing? || c.Modifying? || c.Running?
    || c.FailRestore? || (c.Disable? && !c.reap) || c.FailClose? || c.FailUnqueue? || c.FailUnbind? || c.FailClear?
  }

  /** The setup has not failed so far. */
  predicate Healthy(c: ControlAt) {
    c.Opening? || c.Registering? || c.Connecting? || c.Installing? || c.Modifying? || c.Running?
  }

  predicate Reaping(c: ControlAt) {
    || (c.Disable? && c.reap) || c.ReapRestore? || c.ReapUnqueue? || c.ReapClose? || c.ReapClear?
    || c.ReapUnbind? || c.ReapRetire?
  }

  /** Host events are disabled and no event reference is left. */
  predicate Muted(c: ControlAt) {
    || c.FailClose? || c.FailUnqueue? || c.FailUnbind? || c.FailClear? || c.FailRetire?
    || c.ReapRestore? || c.ReapUnqueue? || c.ReapClose? || c.ReapClear? || c.ReapUnbind? || c.ReapRetire?
  }

  /** Socket callbacks have been restored. */
  predicate Restored(c: ControlAt) {
    || (c.Disable? && !c.reap) || c.FailClose? || c.FailUnqueue? || c.FailUnbind? || c.FailClear? || c.FailRetire?
    || c.ReapUnqueue? || c.ReapClose? || c.ReapClear? || c.ReapUnbind? || c.ReapRetire?
  }

  predicate Unqueued(c: ControlAt) {
    || c.FailUnbind? || c.FailClear? || c.FailRetire?
    || c.ReapClose? || c.ReapClear? || c.ReapUnbind? || c.ReapRetire?
  }

  predicate Cleared(c: ControlAt) {
    c.FailRetire? || c.ReapUnbind? || c.ReapRetire?
  }

  // ----- in-flight notifications -----

  predicate HasStage(x: Session, stage: Stage) {
    exists c :: c in x.callbacks && c.stage == stage
  }

  /** Which notifications are on their way to the session: callbacks that have
      yet to set the flags, callbacks inside the callback lock, callbacks about
      to queue the session, and host events not yet polled. */
  datatype Due = Due(readCall: bool, writeCall: bool, closeCall: bool, inLock: bool, marked: bool,
                     readEvent: bool, writeEvent: bool)

  predicate Early(c: Callback) {
    c.stage == Coming || c.stage == Entered
  }

  ghost function DueOf(x: Session): Due {
    Due(exists c :: c in x.callbacks && Early(c) && c.readable,
        exists c :: c in x.callbacks && Early(c) && c.writable,
        exists c :: c in x.callbacks && Early(c) && c.readable && c.writable,
        !CallbackLockFree(x),
        HasStage(x, Marked),
        exists e :: e in x.events && (e.readable || e.hangup),
        exists e :: e in x.events && (e.writable || e.hangup))
  }

  // ----- one session: life cycle -----

  /** Life cycle and references: who may still touch the session. */
  ghost predicate Life(k: Core, y: Duty, c: ControlAt) {
    && (k.freed ==> k.retired && y.Away?)
    && (k.retired ==> !k.inUse && c == Free)
    && (Setup(c) ==> k.inUse && k.connecting)
    && (Healthy(c) ==> k.publicOpen && k.acceptEvents && (c.Opening? || k.hostOpen))
    && (c.Modifying? || c.Running? ==> k.callbacksInstalled)
    && (k.connecting ==> Setup(c) && !k.running && !k.stopping && !k.finishedNotified)
    && (k.inUse && !k.connecting ==> k.running || k.finishedNotified)
    && (k.running ==> k.inUse && !k.finishedNotified)
    && (k.finishedNotified ==> k.stopping)
    && (k.stopping && !k.finishedNotified ==> k.running)
    && (!k.inUse ==> Cleared(c) || k.retired)
    && (Cleared(c) ==> !k.inUse)
    && (c.StartAdd? || c.Joining? || c.Stop? ==> k.inUse && !k.connecting)
    && (k.bound <==> (k.inUse && c != FailClear) || c == ReapUnbind)
    && (k.running ==> k.acceptEvents && k.callbacksInstalled)
    && (k.inUse && !k.connecting && !c.ReapClear? ==> k.hostOpen && k.publicOpen)
    && (k.readyQueued ==> k.inUse && !Unqueued(c))
    && (y.DoPump? || y.DoFail? ==> k.running)
    && (y.DoFinish? ==> k.finishedNotified || k.running)
  }

  /** Completion is signalled once and consumed by one reap. */
  ghost predicate Completion(k: Core, y: Duty, c: ControlAt) {
    && k.finished <= k.signals <= 1
    && k.reaps <= k.signals
    && (k.signals == 1 ==> k.finishedNotified)
    && (k.finishedNotified && k.signals == 0 <==> Ending(y))
    && (Ending(y) ==> k.inUse)
    && (Reaping(c) ==> k.finishedNotified && k.signals == 1 && k.finished == 0)
    && (k.signals == 1 && k.finished == 0 ==> Reaping(c) || k.retired)
    && (k.reaps == 1 <==> k.result.Some?)
    && (k.reaps == 1 ==> c.ReapClear? || c.ReapUnbind? || c.ReapRetire? || k.retired)
  }

  /** Event references and callbacks keep the session from being retired. */
  ghost predicate References(k: Core, y: Duty, c: ControlAt, inLock: bool) {
    && k.eventRefs == (if HoldsRef(y) then 1 else 0)
    && (HoldsRef(y) ==> k.eventIdle == 0 && k.inUse && !Muted(c))
    && (y.DoEventStop? || y.DoEventAdd? ==> !k.connecting)
    && (k.acceptEvents ==> k.inUse && !Muted(c) && !(c.Disable? && !c.phase.Accept?))
    && (c.Disable? && c.phase.AwaitIdle? ==> HoldsRef(y) || y.DoIdle? || k.eventIdle > 0)
    && (inLock ==> k.callbacksInstalled)
    && (k.callbacksInstalled ==> k.inUse && !Restored(c))
  }

  /** Someone will put the session in the dispatcher's hands. */
  predicate StopScheduled(k: Core, y: Duty, c: ControlAt) {
    || k.readyQueued || y.DoTaken? || y.DoFinish?
    || (y.DoEventStop? && y.at.StopAdd?) || (y.DoFail? && !y.at.StopLock?)
    || (c.Stop? && c.at.StopAdd?)
  }

  /** Stops make progress and always carry a status; a session finishes with
      status 0 only when both lanes are done. */
  ghost predicate Stops(k: Core, y: Duty, c: ControlAt, bothDone: bool) {
    && (k.stopping && k.running ==> k.status != 0 && StopScheduled(k, y, c))
    && (k.finishedNotified && k.status == 0 ==> bothDone)
    && (y.DoFinish? && k.running && !k.stopping ==> bothDone)
    && (y.DoFail? || y.DoEventStop? ==> y.status != 0)
    && (y.DoFail? && !y.at.StopLock? ==> k.stopping)
    && (k.result == Some(0) ==> bothDone)
  }

  ghost predicate Ownership(k: Core, y: Duty, c: ControlAt, inLock: bool, bothDone: bool) {
    Life(k, y, c) && Completion(k, y, c) && References(k, y, c, inLock) && Stops(k, y, c, bothDone)
  }

  // ----- one session: its lanes -----

  predicate OnLane(d: DispatchAt, way: Way) {
    && (d.Top? || d.Sending? || d.Sent? || d.NoBuffer? || d.Receiving? || d.Received? || d.Draining?
        || d.HalfClosing? || d.Leaving?)
    && d.way == way
  }

  /** The byte stream of one lane, also in the middle of a pump iteration. */
  ghost predicate Stream(l: Lane, way: Way, d: DispatchAt, running: bool) {
    if d.Sent? && d.way == way then
      && BufferOk(l) && 0 < d.count <= l.length - l.offset
      && l.received == l.sent + l.buffer[l.offset + d.count..l.length]
      && l.bytes + d.count == |l.sent|
    else if d.Received? && d.way == way then
      && BufferOk(l) && l.held && !Pending(l) && 0 < |d.data| <= BUFFER_LIMIT
      && l.received == l.sent + d.data && l.buffer[..|d.data|] == d.data
      && l.bytes == |l.sent|
    else if running then StreamOk(l)
    else Remains(l)
  }

  /** What a lane that no longer runs has sent: all it received, if it got as
      far as the half-close, and a prefix of it otherwise. */
  ghost predicate Remains(l: Lane) {
    l.sent <= l.received && l.bytes == |l.sent| && (l.done ==> l.sent == l.received)
  }

  /** Half-close order, buffer holding and pump position of one lane. */
  ghost predicate Shape(l: Lane, way: Way, d: DispatchAt, running: bool) {
    && (l.done <==> l.shut)
    && (l.shut ==> l.eof)
    && (l.eof ==> !l.held)
    && (l.eof && !l.done && running ==>
          (OnLane(d, way) && (d.HalfClosing? || (d.Draining? && d.eof))) || d.Failing? || d.Finishing?)
    && (l.waiting ==> running && !l.held && l.readable && !l.done && !l.eof)
    && (l.held ==> running || (way == ToPublic && d == Releasing(false)))
    && (l.held && running ==>
          l.readable || (OnLane(d, way) && (d.Receiving? || d.Received?)) || d.Failing? || d.Finishing?)
    && (OnLane(d, way) ==> InLane(l, d))
  }

  /** What the pump knows of the lane it is working on. */
  ghost predicate InLane(l: Lane, d: DispatchAt) {
    match d
    case Top(_, ops) => ops <= 32
    case Sending(_, ops) => ops < 32 && Pending(l) && !l.eof
    case Sent(_, ops, _) => 1 <= ops <= 32 && !l.eof && l.held
    case NoBuffer(_, ops) => ops < 32 && !Pending(l) && !l.held && !l.eof && !l.waiting
    case Receiving(_, ops) => ops < 32 && !Pending(l) && l.held && !l.eof
    case Received(_, ops, _) => 1 <= ops <= 32 && !l.eof
    case Draining(_, ops, eof) => 1 <= ops <= 32 && !Pending(l) && !l.held && eof == l.eof && !l.done && !l.waiting
    case HalfClosing(_, ops) => 1 <= ops <= 32 && l.eof && !l.done
    case Leaving(_, ops) => ops <= 32
    case _ => true
  }

  /** The dispatcher will look at this lane before letting the session go. */
  predicate WillVisit(d: DispatchAt, way: Way) {
    || d.Taken? || d.EventAdd? || d.EventStop? || d.Failing? || d.Finishing?
    || (OnLane(d, ToBackend) && (way == ToPublic || !d.Leaving? || d.ops == 32))
    || (OnLane(d, ToPublic) && way == ToPublic && (!d.Leaving? || d.ops == 32))
  }

  /** As before, without first passing through the ready queue. */
  predicate WillPump(d: DispatchAt, way: Way) {
    WillVisit(d, way) && !d.EventAdd? && !d.EventStop?
  }

  predicate TryingRead(d: DispatchAt, way: Way) {
    (OnLane(d, way) && (d.Receiving? || d.Received? || d.NoBuffer?)) || d.Failing? || d.Finishing?
  }

  predicate TryingWrite(d: DispatchAt, way: Way) {
    (OnLane(d, way) && (d.Sending? || d.Sent?)) || d.Failing? || d.Finishing?
  }

  /** Progress of one lane.  quiet: the session runs, and nobody but the
      dispatcher is about to queue it; idle: it runs and is not queued. */
  ghost predicate Moves(l: Lane, way: Way, d: DispatchAt, running: bool, quiet: bool, idle: bool,
                        readDue: bool, writeDue: bool) {
    // no lost wake-up, in terms of the flags
    && (quiet ==> Blocked(l) || WillVisit(d, way))
    // a flag taken by the pump stays clear until someone announces a change
    && (quiet && OnLane(d, way) && d.Sending? ==> !l.writable)
    && (quiet && OnLane(d, way) && (d.Receiving? || (d.Draining? && !d.eof)) ==> !l.readable)
    // a buffer is held empty only on the way through the pump
    && (idle && l.held && !Pending(l) ==> WillPump(d, way))
    // a socket that has something to offer has its flag set, or a notification
    // under way, or is being tried
    && (running && l.input ==> l.readable || readDue || TryingRead(d, way))
    && (running && l.room ==> l.writable || writeDue || TryingWrite(d, way))
  }

  /** The session runs, and nobody but the dispatcher is about to queue it. */
  predicate Quiet(k: Core, c: ControlAt, marked: bool) {
    k.running && !k.stopping && !k.readyQueued && !c.StartAdd? && !(c.Stop? && c.at.StopAdd?) && !marked
  }

  predicate Unlisted(k: Core) {
    k.running && !k.stopping && !k.readyQueued
  }

  ghost predicate LaneOk(l: Lane, way: Way, d: DispatchAt, running: bool, quiet: bool, idle: bool,
                         readDue: bool, writeDue: bool) {
    && Stream(l, way, d, running)
    && Shape(l, way, d, running)
    && Moves(l, way, d, running, quiet, idle, readDue, writeDue)
  }

  /** The public socket announces by callbacks, the host socket by events. */
  predicate ReadDue(way: Way, due: Due) {
    if way == ToBackend then due.readCall else due.readEvent
  }

  predicate WriteDue(way: Way, due: Due) {
    if way == ToBackend then due.writeEvent else due.writeCall
  }

  ghost predicate LaneInv(l: Lane, way: Way, d: DispatchAt, k: Core, c: ControlAt, due: Due) {
    LaneOk(l, way, d, k.running, Quiet(k, c, due.marked), Unlisted(k), ReadDue(way, due), WriteDue(way, due))
  }

  /** The last transition of a finished pair of streams is not missed: the
      public socket closing, once both lanes are done. */
  ghost predicate Closing(over: bool, d: DispatchAt, k: Core, c: ControlAt, due: Due) {
    Quiet(k, c, due.marked) && over ==>
      due.closeCall || Attends(d)
  }

  /** The dispatcher will check whether the session is over. */
  predicate Attends(d: DispatchAt) {
    WillVisit(d, ToPublic) || OnLane(d, ToPublic) || d.CheckDone?
  }

  predicate BothDone(x: Session) {
    x.toBackend.done && x.toPublic.done
  }

  predicate Over(x: Session) {
    BothDone(x) && x.publicClosed
  }

  predicate Unused(l: Lane) {
    l == Idle.(readable := l.readable, writable := l.writable, input := l.input, room := l.room)
  }

  /** Waiting marks agree with the list mark; a connecting session was never
      pumped. */
  predicate Marks(x: Session) {
    && (x.waitQueued <==> x.toBackend.waiting || x.toPublic.waiting)
    && (x.core.connecting ==> Unused(x.toBackend) && Unused(x.toPublic))
  }

  ghost predicate Flow(x: Session, d: DispatchAt, c: ControlAt, due: Due) {
    && LaneInv(x.toBackend, ToBackend, d, x.core, c, due)
    && LaneInv(x.toPublic, ToPublic, d, x.core, c, due)
    && Closing(Over(x), d, x.core, c, due)
  }

  /** The invariant of one session, given the notifications on their way. */
  ghost predicate Local(x: Session, d: DispatchAt, c: ControlAt, due: Due) {
    Ownership(x.core, DutyOf(d), c, due.inLock, BothDone(x)) && Flow(x, d, c, due) && Marks(x)
  }

  ghost predicate SessionInv(x: Session, d: DispatchAt, c: ControlAt) {
    Local(x, d, c, DueOf(x))
  }

  /** Session s, where the threads stand with it. */
  ghost predicate SessionOk(st: State, s: nat)
    requires s < |st.sessions|
  {
    SessionInv(st.sessions[s], DispatchOf(st, s), ControlOf(st, s))
  }

  ghost predicate SessionsInv(st: State) {
    forall s: nat :: s < |st.sessions| ==> SessionOk(st, s)
  }

  // ----- the manager -----

  function Spliced(st: State): seq<nat> {
    if st.dispatcher.round.Freeing? then st.dispatcher.round.rest else []
  }

  /** A duplicate-free list of exactly the marked indices. */
  ghost predicate Mirrors(list: seq<nat>, marks: seq<bool>) {
    && NoDup(list)
    && (forall s :: s in list ==> s < |marks| && marks[s])
    && (forall s :: 0 <= s < |marks| && marks[s] ==> s in list)
  }

  function ReadyMarks(sessions: seq<Session>): seq<bool> {
    seq(|sessions|, i requires 0 <= i < |sessions| => sessions[i].core.readyQueued)
  }

  function WaitMarks(sessions: seq<Session>): seq<bool> {
    seq(|sessions|, i requires 0 <= i < |sessions| => sessions[i].waitQueued)
  }

  function RetiredMarks(sessions: seq<Session>): seq<bool> {
    seq(|sessions|, i requires 0 <= i < |sessions| => sessions[i].core.retired && !sessions[i].core.freed)
  }

  function BoundMarks(sessions: seq<Session>): seq<bool> {
    seq(|sessions|, i requires 0 <= i < |sessions| => sessions[i].core.bound)
  }

  function Names(sessions: seq<Session>): seq<Name> {
    seq(|sessions|, i requires 0 <= i < |sessions| => sessions[i].name)
  }

  function Unfreed(st: State): seq<nat> {
    st.retired + Spliced(st)
  }

  function Holding(x: Session): nat {
    (if x.toBackend.held then 1 else 0) + (if x.toPublic.held then 1 else 0)
  }

  /** The number of direction buffers held by the given sessions. */
  function HeldCount(sessions: seq<Session>): nat {
    if sessions == [] then 0
    else HeldCount(sessions[..|sessions| - 1]) + Holding(sessions[|sessions| - 1])
  }

  ghost predicate BudgetInv(bufferBytes: nat, held: nat) {
    bufferBytes == BUFFER_LIMIT * held && bufferBytes <= TOTAL_BUFFER_LIMIT
  }

  /** Session s was given its slot when the slot's count was its ordinal. */
  ghost predicate NameOk(r: Registry, name: Name, s: nat) {
    && s in r.home && r.home[s] == name.slot
    && 1 <= name.slot <= |r.slots|
    && 1 <= name.ordinal <= r.slots[name.slot - 1].count
    && name.generation == GenerationAfter(name.ordinal)
  }

  /** ... and the slot has not been given to anyone since. */
  ghost predicate NameCurrent(r: Registry, names: seq<Name>, s: nat) {
    s < |names| && 1 <= names[s].slot <= |r.slots| && names[s].ordinal == r.slots[names[s].slot - 1].count
  }

  ghost predicate NamesInv(r: Registry, names: seq<Name>) {
    && NoDup(names)
    && (forall s :: 0 <= s < |names| ==> NameOk(r, names[s], s))
    && (forall s :: s in r.active ==> NameCurrent(r, names, s))
  }

  ghost predicate RegistryInv(r: Registry, bound: seq<bool>, names: seq<Name>) {
    Partitioned(r) && Mirrors(r.active, bound) && NamesInv(r, names)
  }

  /** The manager's tables agree with the sessions. */
  ghost predicate TablesInv(st: State) {
    && Mirrors(st.ready, ReadyMarks(st.sessions))
    && Mirrors(st.waiters, WaitMarks(st.sessions))
    && Mirrors(Unfreed(st), RetiredMarks(st.sessions))
    && BudgetInv(st.bufferBytes, HeldCount(st.sessions))
    && RegistryInv(st.registry, BoundMarks(st.sessions), Names(st.sessions))
  }

  /** The dispatcher wakes the buffer waiters before doing anything else. */
  predicate Waking(at: DispatchAt) {
    at.Draining? || at.Releasing?
  }

  /** Sessions wait for a buffer only while the budget is used up, or the
      dispatcher is about to wake them; then there is a buffer to spare. */
  ghost predicate ScarceInv(st: State) {
    && (st.waiters != [] || st.dispatcher.at.NoBuffer? ==> st.bufferBytes == TOTAL_BUFFER_LIMIT || Waking(st.dispatcher.at))
    && (Waking(st.dispatcher.at) ==> st.bufferBytes + BUFFER_LIMIT <= TOTAL_BUFFER_LIMIT)
  }

  predicate EventAt(d: DispatchAt) {
    d.EventConnect? || d.EventStop? || d.EventAdd? || d.EventPut? || d.EventIdle?
  }

  ghost predicate PositionInv(st: State) {
    && (st.dispatcher.at != Nothing ==> st.dispatcher.session < |st.sessions|)
    && (st.control.at != Free ==> st.control.session < |st.sessions| && !st.control.wake)
    && (EventAt(st.dispatcher.at) ==> st.dispatcher.round == Polling)
    && (st.dispatcher.at != Nothing && !EventAt(st.dispatcher.at) ==> st.dispatcher.round.Serving?)
  }

  /** Dispatcher rounds that look at the ready queue before sleeping. */
  predicate Looking(round: Round) {
    round.Awake? || (round.Retiring? && !round.last) || (round.Freeing? && !round.last) || round.Polling? || round.Serving?
  }

  /** Dispatcher rounds that poll host events before sleeping, or are over. */
  predicate WillPoll(round: Round) {
    round.Awake? || round.Retiring? || round.Freeing? || round.Polling? || round.Off? || round.Exited?
  }

  ghost predicate HasAdded(sessions: seq<Session>) {
    exists s :: 0 <= s < |sessions| && HasStage(sessions[s], Added)
  }

  predicate ControlWakes(o: Control) {
    o.wake || (o.at.Stop? && o.at.at.StopWake?)
  }

  /** The dispatcher does not sleep on work.  waking: a thread stands between an
      addition to a list and its wake-up call. */
  ghost predicate SleepInv(ready: bool, retired: bool, events: bool, pending: bool, notifying: bool, waking: bool,
                           round: Round) {
    && (ready ==> pending || Looking(round) || waking)
    && (retired ==> pending || round.Awake? || round.Retiring? || waking)
    && (events ==> pending || notifying || WillPoll(round))
  }

  ghost predicate Alert(st: State) {
    SleepInv(st.ready != [], st.retired != [], HasEvents(st), st.pending, st.notifiers > 0,
             ControlWakes(st.control) || HasAdded(st.sessions), st.dispatcher.round)
  }

  predicate LastRound(round: Round) {
    (round.Retiring? && round.last) || (round.Freeing? && round.last) || round.Exited?
  }

  function StopMarks(sessions: seq<Session>): seq<bool> {
    seq(|sessions|, i requires 0 <= i < |sessions| => sessions[i].core.stopping)
  }

  /** tcpcc_bridge_cancel stops and then reaps every active session. */
  ghost predicate CancelInv(o: Control, active: seq<nat>, stops: seq<bool>) {
    && (o.operation.NoOperation? ==> o.at == Free && !o.wake)
    && (o.operation.CancelStop? ==>
          && (o.at == Free || o.at.Stop?)
          && (forall t :: t in o.operation.todo ==> t in active)
          && (forall t :: t in active ==>
                t < |stops| && (t in o.operation.todo || stops[t] || (o.session == t && o.at == Stop(StopLock)))))
    && (o.operation.CancelReap? ==>
          && (o.at == Free || o.at.Joining? || Reaping(o.at))
          && active == (if o.at == Free || o.at.ReapRetire? then o.operation.todo else [o.session] + o.operation.todo)
          && (forall t :: t in active ==> t < |stops| && stops[t]))
  }

  /** The dispatcher is told to stop only once every session is gone. */
  ghost predicate HaltInv(o: Control, round: Round, stopping: bool, active: seq<nat>, retired: seq<nat>) {
    && (o.operation.CancelHalt? ==> stopping && !round.Off? && o.at == Free)
    && (stopping ==> active == [] && (o.operation.CancelHalt? || round.Off?))
    && (LastRound(round) ==> stopping)
    && (round.Exited? || round.Off? ==> retired == [] && active == [] && o.at == Free)
    && (round.Freeing? && round.last ==> retired == [])
  }

  ghost predicate OperationInv(st: State) {
    && CancelInv(st.control, st.registry.active, StopMarks(st.sessions))
    && HaltInv(st.control, st.dispatcher.round, st.stopping, st.registry.active, st.retired)
  }

  ghost predicate Inv(st: State) {
    && SessionsInv(st)
    && TablesInv(st)
    && ScarceInv(st)
    && PositionInv(st)
    && Alert(st)
    && OperationInv(st)
  }
}

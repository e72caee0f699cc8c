/** The steps of the bridge runtime, one actor at a time. */
module BridgeSteps {
  import opened Lists
  import opened Bytes
  import opened Lanes
  import opened SlotRegistry
  import opened Handles
  import opened BridgeState

  // ----- the manager's lists -----

  /** The critical section of tcpcc_bridge_queue_session. */
  function QueueAdd(st: State, s: nat): State
    requires s < |st.sessions|
  {
    var x := st.sessions[s];
    if x.core.inUse && !x.core.readyQueued
    then PutCore(st, s, x.core.(readyQueued := true)).(ready := st.ready + [s])
    else st
  }

  /** queue_session as the dispatcher calls it: the dispatcher is the only
      reader of pending, so its own wake-up joins the critical section. */
  function SelfQueue(st: State, s: nat): State
    requires s < |st.sessions|
  {
    QueueAdd(st, s).(pending := true)
  }

  function Unqueue(st: State, s: nat): State
    requires s < |st.sessions|
  {
    var x := st.sessions[s];
    if x.core.readyQueued
    then PutCore(st, s, x.core.(readyQueued := false)).(ready := Remove(st.ready, s))
    else st
  }

  /** tcpcc_bridge_wait_for_buffer, after the flag was put back. */
  function WaitForBuffer(st: State, s: nat, way: Way): State
    requires s < |st.sessions|
  {
    var x := SetLane(st.sessions[s], way, AwaitBuffer(GetLane(st.sessions[s], way)));
    if x.waitQueued then Put(st, s, x)
    else Put(st, s, x.(waitQueued := true)).(waiters := st.waiters + [s])
  }

  function Woken(x: Session): Session {
    x.(waitQueued := false, toBackend := x.toBackend.(waiting := false), toPublic := x.toPublic.(waiting := false))
  }

  /** One turn of tcpcc_bridge_wake_buffer_waiters. */
  function WakeWaiter(st: State): State
    requires st.waiters != [] && st.waiters[0] < |st.sessions|
  {
    var s := st.waiters[0];
    SelfQueue(Put(st, s, Woken(st.sessions[s])).(waiters := st.waiters[1..]), s)
  }

  /** Drop one lane's buffer; the waiters are woken by the following steps. */
  function DropBuffer(st: State, s: nat, way: Way): State
    requires s < |st.sessions|
  {
    var l := GetLane(st.sessions[s], way);
    if l.held && st.bufferBytes >= BUFFER_LIMIT
    then Put(st, s, SetLane(st.sessions[s], way, Release(l))).(bufferBytes := st.bufferBytes - BUFFER_LIMIT)
    else st
  }

  /** The critical section of tcpcc_bridge_session_stop. */
  function StopMark(k: Core, status: int): Core {
    k.(status := if k.status == 0 then status else k.status, stopping := true)
  }

  // ----- the dispatcher -----

  /** What the world answers to the dispatcher's current action. */
  datatype Reply =
    | Proceed
    | Count(n: nat, more: bool)              // bytes sent; more: room is left
    | Data(bytes: seq<Byte>, more: bool)     // bytes received; more: input is left
    | EndOfFile
    | Again
    | Fault(code: int)                       // a nonzero error
    | Poll(source: nat, event: HostEvent, socketError: int)

  predicate HasEvents(st: State) {
    exists s :: 0 <= s < |st.sessions| && st.sessions[s].events != multiset{}
  }

  /** The session an event with the token of session source is delivered to. */
  function Addressee(st: State, source: nat): Option<nat>
    requires source < |st.sessions|
  {
    var x := st.sessions[source];
    var id := TokenSlot(MakeToken(x.name.slot, x.name.generation));
    match Lookup(st.registry, id)
    case None => None
    case Some(s) =>
      if s < |st.sessions| && st.sessions[s].core.acceptEvents && st.sessions[s].core.inUse
         && MakeToken(st.sessions[s].name.slot, st.sessions[s].name.generation) == MakeToken(x.name.slot, x.name.generation)
      then Some(s) else None
  }

  /** tcpcc_bridge_dispatch_event up to the release of the session lock. */
  function Deliver(st: State, s: nat, e: HostEvent, socketError: int): State
    requires s < |st.sessions|
  {
    Put(st, s, Delivery(st.sessions[s], e))
      .(dispatcher := Dispatcher(st.dispatcher.round, s, DeliveryAt(st.sessions[s], e, socketError)))
  }

  function TakeReference(k: Core): Core {
    k.(eventRefs := k.eventRefs + 1, eventIdle := if k.eventRefs == 0 then 0 else k.eventIdle)
  }

  function Delivery(x: Session, e: HostEvent): Session {
    var held := x.(core := TakeReference(x.core));
    if x.core.connecting then held
    else held.(
      toPublic := if e.readable || e.hangup then x.toPublic.(readable := true) else x.toPublic,
      toBackend := if e.writable || e.hangup then x.toBackend.(writable := true) else x.toBackend)
  }

  function DeliveryAt(x: Session, e: HostEvent, socketError: int): DispatchAt {
    if x.core.connecting then EventConnect
    else if e.error then EventStop(StopLock, if socketError != 0 then socketError else -5)
    else EventAdd
  }

  /** One event is polled; whoever its token now names gets it. */
  function PollEvent(st: State, source: nat, e: HostEvent, socketError: int): State
    requires source < |st.sessions|
  {
    var x := st.sessions[source];
    var polled := Put(st, source, x.(events := x.events - multiset{e}));
    var target := Addressee(st, source);
    if target.Some? then Deliver(polled, target.value, e, socketError) else polled
  }

  /** Between sessions: the main loop of the dispatcher thread. */
  predicate CanLoop(st: State, r: Reply) {
    && st.dispatcher.at == Nothing
    && match st.dispatcher.round
       case Off => false
       case Exited => false
       case Asleep => r == Proceed && (st.pending || st.stopping)
       case Awake => r == Proceed
       case Retiring(_) => r == Proceed
       case Freeing(_, _) => r == Proceed
       case Polling =>
         if r.Poll? then r.source < |st.sessions| && r.event in st.sessions[r.source].events
         else r == Proceed && !HasEvents(st)
       case Serving(_) => r == Proceed
  }

  function ToRound(st: State, round: Round): State {
    st.(dispatcher := st.dispatcher.(round := round))
  }

  function Loop(st: State, r: Reply): State
    requires CanLoop(st, r)
  {
    match st.dispatcher.round
    case Asleep => ToRound(st, Awake).(pending := false)
    case Awake => ToRound(st, Retiring(st.stopping))
    case Retiring(last) => ToRound(st, Freeing(st.retired, last)).(retired := [])
    case Freeing(rest, last) =>
      if rest == [] then ToRound(st, if last then Exited else Polling)
      else if rest[0] < |st.sessions| then
        PutCore(st, rest[0], st.sessions[rest[0]].core.(freed := true))
          .(dispatcher := st.dispatcher.(round := Freeing(rest[1..], last)))
      else st
    case Polling =>
      if r.Poll? then PollEvent(st, r.source, r.event, r.socketError) else ToRound(st, Serving(0))
    case Serving(n) =>
      if n >= DISPATCH_BUDGET then ToRound(st, Asleep).(pending := true)
      else if st.ready == [] then ToRound(st, Asleep)
      else if st.ready[0] < |st.sessions| then
        var s := st.ready[0];
        PutCore(st, s, st.sessions[s].core.(readyQueued := false))
          .(ready := st.ready[1..], dispatcher := Dispatcher(Serving(n + 1), s, Taken))
      else st
    case _ => st
  }

  /** With a session in hand: event delivery and pumping. */
  predicate CanHandle(st: State, r: Reply) {
    && st.dispatcher.session < |st.sessions|
    && match st.dispatcher.at
       case Nothing => false
       case Sending(way, _) =>
         var l := GetLane(st.sessions[st.dispatcher.session], way);
         || (r.Count? && l.offset + r.n <= l.length <= |l.buffer|)
         || (r.Again? && !l.room)
         || (r.Fault? && r.code != 0)
       case Receiving(way, _) =>
         var l := GetLane(st.sessions[st.dispatcher.session], way);
         || (r.Data? && 0 < |r.bytes| <= BUFFER_LIMIT && |r.bytes| <= |l.buffer|)
         || r.EndOfFile?
         || (r.Again? && !l.input)
         || (r.Fault? && r.code != 0)
       case Top(way, _) => r.Proceed? || (r.Fault? && r.code != 0)     // a fault is an allocation failure
       case HalfClosing(_, _) => r.Proceed? || (r.Fault? && r.code != 0)
       case _ => r.Proceed?
  }

  function Handle(st: State, r: Reply): State
    requires CanHandle(st, r)
  {
    var s := st.dispatcher.session;
    var x := st.sessions[s];
    match st.dispatcher.at
    case Nothing => st
    // tcpcc_bridge_dispatch_event after the session lock
    case EventConnect => Dispatch(st, EventPut)
    case EventStop(at, status) => HandleStop(st, at, status, true)
    case EventAdd => Dispatch(SelfQueue(st, s), EventPut)
    case EventPut =>
      if x.core.eventRefs == 0 then st
      else Dispatch(PutCore(st, s, x.core.(eventRefs := x.core.eventRefs - 1)), if x.core.eventRefs == 1 then EventIdle else Nothing)
    case EventIdle => Dispatch(PutCore(st, s, x.core.(eventIdle := x.core.eventIdle + 1)), Nothing)
    // tcpcc_bridge_pump_session
    case Taken =>
      Dispatch(st, if !x.core.inUse || (!x.core.running && !x.core.stopping) then Nothing
                   else if x.core.stopping then Finishing
                   else Top(ToBackend, 0))
    case Top(way, ops) => HandleTop(st, way, ops, r)
    case Sending(way, ops) => HandleSend(st, way, ops, r)
    case Sent(way, ops, n) =>
      Dispatch(Put(st, s, SetLane(x, way, AfterSend(GetLane(x, way), n))), Top(way, ops))
    case NoBuffer(way, ops) => Dispatch(WaitForBuffer(st, s, way), Leaving(way, ops))
    case Receiving(way, ops) => HandleReceive(st, way, ops, r)
    case Received(way, ops, data) =>
      Dispatch(Put(st, s, SetLane(x, way, AfterReceive(GetLane(x, way), |data|))), Top(way, ops))
    case Draining(way, ops, eof) =>
      if st.waiters != [] && st.waiters[0] < |st.sessions| then WakeWaiter(st)
      else Dispatch(st, if eof then HalfClosing(way, ops) else Leaving(way, ops))
    case HalfClosing(way, ops) =>
      if r.Fault? then Dispatch(st, Failing(StopLock, r.code))
      else Dispatch(Put(st, s, SetLane(x, way, HalfClosed(GetLane(x, way)))), Leaving(way, ops))
    case Leaving(way, ops) =>
      Dispatch(if ops == DIRECTION_BUDGET then SelfQueue(st, s) else st,
               if way == ToBackend then Top(ToPublic, 0) else CheckDone)
    case Failing(at, status) => HandleStop(st, at, status, false)
    case CheckDone =>
      Dispatch(st, if x.toBackend.done && x.toPublic.done && x.publicClosed then Finishing else Nothing)
    // tcpcc_bridge_session_finish
    case Finishing =>
      if x.core.inUse && !x.core.finishedNotified then FinishSession(st) else Dispatch(st, Nothing)
    case Releasing(second) =>
      if st.waiters != [] && st.waiters[0] < |st.sessions| then WakeWaiter(st)
      else if !second then ReleaseSecond(st)
      else Dispatch(st, Signalling)
    case Signalling =>
      Dispatch(PutCore(st, s, x.core.(finished := x.core.finished + 1, signals := x.core.signals + 1)), Nothing)
  }

  function FinishMark(x: Session): Session {
    x.(core := x.core.(running := false, stopping := true, finishedNotified := true), waitQueued := false,
       toBackend := x.toBackend.(waiting := false), toPublic := x.toPublic.(waiting := false))
  }

  /** Marking the session finished; the waiting marks and the first buffer are
      the dispatcher's own. */
  function FinishSession(st: State): State
    requires st.dispatcher.session < |st.sessions|
  {
    var s := st.dispatcher.session;
    var x := st.sessions[s];
    var marked := Put(st, s, FinishMark(x)).(waiters := if x.waitQueued then Remove(st.waiters, s) else st.waiters);
    if x.toBackend.held then Dispatch(DropBuffer(marked, s, ToBackend), Releasing(false)) else ReleaseSecond(marked)
  }

  /** The second half of tcpcc_bridge_release_session_buffers. */
  function ReleaseSecond(st: State): State
    requires st.dispatcher.session < |st.sessions|
  {
    var s := st.dispatcher.session;
    if st.sessions[s].toPublic.held then Dispatch(DropBuffer(st, s, ToPublic), Releasing(true))
    else Dispatch(st, Signalling)
  }

  /** One iteration head of the pump loop: flag tests under the session lock and
      the buffer acquisition that follows them. */
  function HandleTop(st: State, way: Way, ops: nat, r: Reply): State
    requires st.dispatcher.session < |st.sessions|
  {
    var s := st.dispatcher.session;
    var x := st.sessions[s];
    var l := GetLane(x, way);
    if ops >= DIRECTION_BUDGET || l.done then Dispatch(st, Leaving(way, ops))
    else if Pending(l) then
      if !l.writable then Dispatch(st, Leaving(way, ops))
      else Dispatch(Put(st, s, SetLane(x, way, TakeWritable(l))), Sending(way, ops))
    else if l.waiting || !l.readable then Dispatch(st, Leaving(way, ops))
    else
      var taken := SetLane(x, way, TakeReadable(l));
      if l.held then Dispatch(Put(st, s, taken), Receiving(way, ops))
      else if st.bufferBytes + BUFFER_LIMIT > TOTAL_BUFFER_LIMIT then Dispatch(Put(st, s, taken), NoBuffer(way, ops))
      else if r.Fault? then Dispatch(Put(st, s, taken), Failing(StopLock, r.code))
      else
        Dispatch(Put(st, s, SetLane(x, way, Acquire(TakeReadable(l)))), Receiving(way, ops))
          .(bufferBytes := st.bufferBytes + BUFFER_LIMIT)
  }

  function HandleSend(st: State, way: Way, ops: nat, r: Reply): State
    requires st.dispatcher.session < |st.sessions|
    requires r.Count? ==> GetLane(st.sessions[st.dispatcher.session], way).offset + r.n
                          <= |GetLane(st.sessions[st.dispatcher.session], way).buffer|
  {
    var s := st.dispatcher.session;
    var x := st.sessions[s];
    match r
    case Count(n, more) =>
      if n == 0 then Dispatch(st, Failing(StopLock, -5))
      else Dispatch(Put(st, s, SetLane(x, way, Send(GetLane(x, way), n, more))), Sent(way, ops + 1, n))
    case Fault(code) => Dispatch(st, Failing(StopLock, code))
    case _ => Dispatch(st, Leaving(way, ops + 1))
  }

  function HandleReceive(st: State, way: Way, ops: nat, r: Reply): State
    requires st.dispatcher.session < |st.sessions|
    requires r.Data? ==> |r.bytes| <= |GetLane(st.sessions[st.dispatcher.session], way).buffer|
  {
    var s := st.dispatcher.session;
    var x := st.sessions[s];
    match r
    case Data(bytes, more) =>
      Dispatch(Put(st, s, SetLane(x, way, Receive(GetLane(x, way), bytes, more))), Received(way, ops + 1, bytes))
    case EndOfFile =>
      Dispatch(DropBuffer(Put(st, s, SetLane(x, way, EndOfStream(GetLane(x, way)))), s, way),
               Draining(way, ops + 1, true))
    case Fault(code) => Dispatch(st, Failing(StopLock, code))
    case _ => Dispatch(DropBuffer(st, s, way), Draining(way, ops + 1, false))
  }

  /** tcpcc_bridge_session_stop as the dispatcher calls it, for a host error
      event or for a failed pump.  The failed pump finishes the session next. */
  function HandleStop(st: State, at: StopAt, status: int, event: bool): State
    requires st.dispatcher.session < |st.sessions|
  {
    var s := st.dispatcher.session;
    var x := st.sessions[s];
    var next := (at': StopAt) => if event then EventStop(at', status) else Failing(at', status);
    var over := if event then EventAdd else Finishing;
    match at
    case StopLock =>
      if !x.core.inUse then Dispatch(st, over)
      else if x.core.connecting then Dispatch(PutCore(st, s, StopMark(x.core, status)), next(StopShut))
      else Dispatch(PutCore(st, s, StopMark(x.core, status)), next(StopAdd))
    case StopAdd => Dispatch(SelfQueue(st, s), next(StopShut))
    case StopWake => Dispatch(st, over)
    case StopShut => Dispatch(st, over)
  }

  // ----- the control thread -----

  /** How far the memory goes when a session is allocated. */
  datatype Memory = Enough | NoSession | NoSlot

  datatype Choice =
    | Go
    | Refuse(socketMade: bool)       // the current setup call fails
    | Expire                     // the join timeout passes
    | Cleanup(code: int)         // status of closing the host descriptor
    | BeginStart(memory: Memory)
    | BeginJoin(handle: int)
    | BeginCancel(handle: int)
    | BeginCancelAll

  /** No callback is inside the socket's callback lock. */
  predicate CallbackLockFree(x: Session) {
    forall c :: c in x.callbacks ==> c.stage == Coming
  }

  predicate CanBegin(st: State, c: Choice) {
    && st.control.at == Free && !st.control.wake && st.control.operation == NoOperation
    && (c.BeginStart? || c.BeginJoin? || c.BeginCancel? || c.BeginCancelAll?)
  }

  /** A control operation up to its first shared action. */
  function Begin(st: State, c: Choice): State
    requires CanBegin(st, c)
  {
    match c
    case BeginStart(memory) =>
      var on := if st.dispatcher.round == Off
                then st.(dispatcher := Dispatcher(Asleep, 0, Nothing), pending := true, stopping := false) else st;
      AllocateSession(on, memory)
    case BeginJoin(handle) =>
      var found := FindHandle(st.registry, handle);
      if found.Some? then st.(control := Control(Join, false, found.value, Joining)) else st
    case BeginCancel(handle) =>
      var found := FindHandle(st.registry, handle);
      if found.Some? then st.(control := Control(CancelOne, false, found.value, Stop(StopLock))) else st
    case BeginCancelAll => st.(control := Control(CancelStop(st.registry.active), false, 0, Free))
    case _ => st
  }

  /** A new slot whose session could not be allocated stays as a spare one. */
  function AllocateSession(st: State, memory: Memory): State {
    var slot := NextSlot(st.registry);
    if slot.None? || (memory == NoSlot && st.registry.free == []) then st
    else if memory == NoSession then
      if st.registry.free == [] then st.(registry := WithSpare(st.registry)) else st
    else if st.registry.free != [] ==> 1 <= st.registry.free[0] <= |st.registry.slots| then
      var s := |st.sessions|;
      var registry := Bind(st.registry, s);
      var entry := registry.slots[slot.value - 1];
      st.(registry := registry,
          sessions := st.sessions + [NewSession(Name(slot.value, entry.generation, entry.count))],
          control := Control(Starting, false, s, Opening))
    else st
  }

  /** Between sessions: waking the dispatcher, and the loops of
      tcpcc_bridge_cancel. */
  predicate CanContinue(st: State, c: Choice) {
    && c == Go && st.control.at == Free
    && (st.control.wake || match st.control.operation
        case CancelStop(_) => true
        case CancelReap(_) => true
        case CancelHalt => st.dispatcher.round == Exited
        case _ => false)
  }

  function AfterWake(operation: Operation): Operation {
    if operation.CancelStop? || operation.CancelReap? || operation.CancelHalt? then operation else NoOperation
  }

  function Continue(st: State, c: Choice): State
    requires CanContinue(st, c)
  {
    if st.control.wake then
      st.(pending := true, control := Control(AfterWake(st.control.operation), false, 0, Free))
    else match st.control.operation
      case CancelStop(todo) =>
        if todo == [] then st.(control := Control(CancelReap(st.registry.active), false, 0, Free))
        else st.(control := Control(CancelStop(todo[1..]), false, todo[0], Stop(StopLock)))
      case CancelReap(todo) =>
        if todo != [] then st.(control := Control(CancelReap(todo[1..]), false, todo[0], Joining))
        else if st.dispatcher.round == Off then st.(control := Control(NoOperation, false, 0, Free))
        else st.(stopping := true, control := Control(CancelHalt, true, 0, Free))
      case CancelHalt =>
        st.(dispatcher := Dispatcher(Off, 0, Nothing), control := Control(NoOperation, false, 0, Free))
      case _ => st
  }

  /** With a session: start, stop and reap. */
  predicate CanControl(st: State, c: Choice) {
    && st.control.session < |st.sessions|
    && var x := st.sessions[st.control.session];
       match st.control.at
       case Free => false
       case Opening => c == Go || c.Refuse?
       case Registering => c == Go || c.Refuse?
       case Connecting => c == Go || c.Refuse?
       case Installing => CallbackLockFree(x) && (c == Go || c.Refuse?)
       case Modifying => c == Go || c.Refuse?
       case FailRestore => c == Go && CallbackLockFree(x)
       case ReapRestore => c == Go && CallbackLockFree(x)
       case Disable(AwaitIdle, _) => c == Go && x.core.eventIdle > 0
       case Joining => (c == Go && x.core.finished > 0) || (c == Expire && st.control.operation == Join)
       case ReapClose => c.Cleanup?
       case _ => c == Go
  }

  function Operate(st: State, c: Choice): State
    requires CanControl(st, c)
  {
    var s := st.control.session;
    var x := st.sessions[s];
    match st.control.at
    case Free => st
    // tcpcc_bridge_start
    case Opening =>
      if c.Refuse? then At(PutCore(st, s, x.core.(hostOpen := c.socketMade)), FailRestore)
      else At(PutCore(st, s, x.core.(hostOpen := true)), Registering)
    case Registering => At(st, if c.Refuse? then FailRestore else Connecting)
    case Connecting => At(st, if c.Refuse? then FailRestore else Installing)
    case Installing =>
      if c.Refuse? then At(st, FailRestore)
      else At(PutCore(st, s, x.core.(callbacksInstalled := true)), Modifying)
    case Modifying => At(st, if c.Refuse? then FailRestore else Running)
    case Running =>
      At(Put(st, s, x.(core := x.core.(connecting := false, running := true),
                       toBackend := x.toBackend.(readable := true, writable := true),
                       toPublic := x.toPublic.(readable := true, writable := true))), StartAdd)
    case StartAdd => LetGo(QueueAdd(st, s))
    // tcpcc_bridge_release_failed_start
    case FailRestore => At(PutCore(st, s, x.core.(callbacksInstalled := false)), Disable(Accept, false))
    case FailClose => At(PutCore(st, s, x.core.(hostOpen := false)), FailUnqueue)
    case FailUnqueue => At(Unqueue(st, s), FailUnbind)
    case FailUnbind => At(UnbindSession(st, s), FailClear)
    case FailClear =>
      At(PutCore(st, s, x.core.(publicOpen := false, connecting := false, running := false, stopping := false,
                                acceptEvents := false, inUse := false)), FailRetire)
    case FailRetire => LetGo(Retire(st, s))
    // tcpcc_bridge_disable_events
    case Disable(Accept, reap) => At(PutCore(st, s, x.core.(acceptEvents := false)), Disable(ReadRefs, reap))
    case Disable(ReadRefs, reap) =>
      At(st, if x.core.eventRefs > 0 then Disable(AwaitIdle, reap) else if reap then ReapRestore else FailClose)
    case Disable(AwaitIdle, reap) =>
      At(PutCore(st, s, x.core.(eventIdle := x.core.eventIdle - 1)), if reap then ReapRestore else FailClose)
    // tcpcc_bridge_join_common and tcpcc_bridge_reap
    case Joining =>
      if c == Expire then st.(control := Control(NoOperation, false, 0, Free))
      else At(PutCore(st, s, x.core.(finished := x.core.finished - 1)), Disable(Accept, true))
    case ReapRestore => At(PutCore(st, s, x.core.(callbacksInstalled := false)), ReapUnqueue)
    case ReapUnqueue => At(Unqueue(st, s), ReapClose)
    case ReapClose =>
      At(PutCore(st, s, x.core.(hostOpen := false, publicOpen := false, reaps := x.core.reaps + 1,
                                result := Some(if x.core.status != 0 then x.core.status else c.code))), ReapClear)
    case ReapClear =>
      At(PutCore(st, s, x.core.(connecting := false, running := false, acceptEvents := false, inUse := false)), ReapUnbind)
    case ReapUnbind => At(UnbindSession(st, s), ReapRetire)
    case ReapRetire => LetGo(Retire(st, s))
    // tcpcc_bridge_session_stop with -ECANCELED
    case Stop(StopLock) =>
      if !x.core.inUse then Done(st)
      else At(PutCore(st, s, StopMark(x.core, -125)), Stop(if x.core.connecting then StopShut else StopAdd))
    case Stop(StopAdd) => At(QueueAdd(st, s), Stop(StopWake))
    case Stop(StopWake) => At(st.(pending := true), Stop(StopShut))
    case Stop(StopShut) => Done(st)
  }

  /** The operation's last touch of its session; it still has to wake the
      dispatcher. */
  function LetGo(st: State): State {
    st.(control := Control(st.control.operation, true, 0, Free))
  }

  function Done(st: State): State {
    st.(control := Control(AfterWake(st.control.operation), false, 0, Free))
  }

  function Retire(st: State, s: nat): State
    requires s < |st.sessions|
  {
    PutCore(st, s, st.sessions[s].core.(retired := true)).(retired := st.retired + [s])
  }

  function UnbindSession(st: State, s: nat): State
    requires s < |st.sessions|
  {
    if s in st.registry.home && 1 <= st.registry.home[s] <= |st.registry.slots|
    then PutCore(st, s, st.sessions[s].core.(bound := false)).(registry := Unbind(st.registry, s))
    else st
  }

  // ----- the environment -----

  datatype Event =
    | Input(s: nat, way: Way, other: bool)       // the source gains bytes or its end
    | Room(s: nat, way: Way, other: bool)        // the destination gains space
    | Close(s: nat)                              // the public socket reaches TCP_CLOSE
    | Knock(s: nat, readable: bool, writable: bool)
    | Post(s: nat, e: HostEvent)
    | Enter(s: nat, c: Callback)
    | Mark(s: nat, c: Callback)
    | Add(s: nat, c: Callback)
    | Wake(s: nat, c: Callback)
    | Notify

  predicate CanHappen(st: State, e: Event) {
    match e
    case Notify => st.notifiers > 0
    case Input(s, _, _) => s < |st.sessions|
    case Room(s, _, _) => s < |st.sessions|
    case Close(s) => s < |st.sessions|
    case Knock(s, _, _) => s < |st.sessions|
    case Post(s, _) => s < |st.sessions|
    case Enter(s, c) => s < |st.sessions| && c in st.sessions[s].callbacks && c.stage == Coming
    case Mark(s, c) => s < |st.sessions| && c in st.sessions[s].callbacks && c.stage == Entered
    case Add(s, c) => s < |st.sessions| && c in st.sessions[s].callbacks && c.stage == Marked
    case Wake(s, c) => s < |st.sessions| && c in st.sessions[s].callbacks && c.stage == Added
  }

  function Call(x: Session, readable: bool, writable: bool): Session {
    x.(callbacks := x.callbacks + multiset{Callback(Coming, readable, writable)})
  }

  function PostTo(st: State, s: nat, x: Session, e: HostEvent): State
    requires s < |st.sessions|
  {
    Put(st, s, x.(events := x.events + multiset{e})).(notifiers := st.notifiers + 1)
  }

  function Move(x: Session, c: Callback, stage: Stage): Session {
    x.(callbacks := x.callbacks - multiset{c} + multiset{c.(stage := stage)})
  }

  function Leave(x: Session, c: Callback): Session {
    x.(callbacks := x.callbacks - multiset{c})
  }

  /** Sockets announce every change: the public socket by a callback, the host
      socket by an edge-triggered event.  Other callbacks and events may come at
      any time, in any order. */
  function Happen(st: State, e: Event): State
    requires CanHappen(st, e)
  {
    match e
    case Notify => st.(notifiers := st.notifiers - 1, pending := true)
    case Input(s, ToBackend, other) =>
      var x := st.sessions[s];
      Put(st, s, Call(x.(toBackend := x.toBackend.(input := true)), true, other))
    case Input(s, ToPublic, other) =>
      var x := st.sessions[s];
      PostTo(st, s, x.(toPublic := x.toPublic.(input := true)), HostEvent(!other, false, other, false))
    case Room(s, ToBackend, other) =>
      var x := st.sessions[s];
      PostTo(st, s, x.(toBackend := x.toBackend.(room := true)), HostEvent(false, !other, other, false))
    case Room(s, ToPublic, other) =>
      var x := st.sessions[s];
      Put(st, s, Call(x.(toPublic := x.toPublic.(room := true)), other, true))
    case Close(s) => Put(st, s, Call(st.sessions[s].(publicClosed := true), true, true))
    case Knock(s, readable, writable) => Put(st, s, Call(st.sessions[s], readable, writable))
    case Post(s, e) => PostTo(st, s, st.sessions[s], e)
    // the callback itself: tcpcc_bridge_public_* and mark_public_ready
    case Enter(s, c) =>
      var x := st.sessions[s];
      Put(st, s, if x.core.callbacksInstalled then Move(x, c, Entered) else Leave(x, c))
    case Mark(s, c) =>
      var x := st.sessions[s];
      Put(st, s,
          if !x.core.inUse then Leave(x, c)
          else Move(x, c, Marked).(
            toBackend := if c.readable then x.toBackend.(readable := true) else x.toBackend,
            toPublic := if c.writable then x.toPublic.(writable := true) else x.toPublic))
    case Add(s, c) => QueueAdd(Put(st, s, Move(st.sessions[s], c, Added)), s)
    case Wake(s, c) => Put(st, s, Leave(st.sessions[s], c)).(pending := true)
  }

  // ----- runs -----

  datatype Action = ByDispatcher(reply: Reply) | ByControl(choice: Choice) | ByWorld(event: Event)

  predicate Can(st: State, a: Action) {
    match a
    case ByDispatcher(r) => CanLoop(st, r) || CanHandle(st, r)
    case ByControl(c) => CanBegin(st, c) || CanContinue(st, c) || CanControl(st, c)
    case ByWorld(e) => CanHappen(st, e)
  }

  function Do(st: State, a: Action): State
    requires Can(st, a)
  {
    match a
    case ByDispatcher(r) => if CanLoop(st, r) then Loop(st, r) else Handle(st, r)
    case ByControl(c) =>
      if CanBegin(st, c) then Begin(st, c) else if CanContinue(st, c) then Continue(st, c) else Operate(st, c)
    case ByWorld(e) => Happen(st, e)
  }

  predicate IsStep(st: State, a: Action, st': State) {
    Can(st, a) && st' == Do(st, a)
  }

  /** states is a run of the bridge from its initial state. */
  ghost predicate IsRun(states: seq<State>, actions: seq<Action>) {
    && |states| == |actions| + 1
    && states[0] == Initial
    && forall i {:trigger actions[i]} :: 0 <= i < |actions| ==> IsStep(states[i], actions[i], states[i + 1])
  }
}

/** The state of the bridge runtime: sessions, the manager's lists, and where
    the dispatcher thread, the control thread and the in-flight socket
    callbacks stand.

    Session s is sessions[s]; freed sessions keep their place with the freed
    mark set, so that a dangling reference can be expressed.  Fields private to
    one thread change together with that thread's next critical section; every
    critical section, atomic operation and socket call is its own step. */
module BridgeState {
  import opened Lists
  import opened Bytes
  import opened Lanes
  import opened SlotRegistry

  const DISPATCH_BUDGET: nat := 64

  /** A public-socket callback: not yet inside the callback lock, inside it,
      flags set, session queued but dispatcher not yet woken. */
  datatype Stage = Coming | Entered | Marked | Added
  datatype Callback = Callback(stage: Stage, readable: bool, writable: bool)

  /** A host event carrying the session's token, posted and not yet polled. */
  datatype HostEvent = HostEvent(readable: bool, writable: bool, hangup: bool, error: bool)

  /** A session's identity: its slot, the generation in its handle and token,
      and how many sessions its slot had had when it was bound. */
  datatype Name = Name(slot: nat, generation: nat, ordinal: nat)

  /** The life-cycle fields of a session.  inUse is the kernel's allocated flag;
      bound says that the slot points to this session.  The last group is
      history: moved to the retired list, freed, complete(&finished) calls,
      reaps, and the status a join returned. */
  datatype Core = Core(
    inUse: bool, bound: bool, readyQueued: bool,
    acceptEvents: bool, connecting: bool, running: bool, stopping: bool,
    finishedNotified: bool, callbacksInstalled: bool,
    hostOpen: bool, publicOpen: bool,
    status: int,
    eventRefs: nat, eventIdle: nat, finished: nat,

    retired: bool, freed: bool, signals: nat, reaps: nat, result: Option<int>)

  /** The last group describes the session's sockets: whether the public one
      reached TCP_CLOSE, and the notifications under way. */
  datatype Session = Session(
    name: Name,
    core: Core,
    waitQueued: bool,
    toBackend: Lane, toPublic: Lane,

    publicClosed: bool,
    callbacks: multiset<Callback>,
    events: multiset<HostEvent>)

  /** Inside tcpcc_bridge_session_stop. */
  datatype StopAt = StopLock | StopAdd | StopWake | StopShut

  /** What the dispatcher is doing with the session in its hands. */
  datatype DispatchAt =
    | Nothing
    | EventConnect                                        // completing connect_ready
    | EventStop(at: StopAt, status: int)
    | EventAdd
    | EventPut
    | EventIdle
    | Taken
    | Top(way: Way, ops: nat)
    | Sending(way: Way, ops: nat)
    | Sent(way: Way, ops: nat, count: nat)
    | NoBuffer(way: Way, ops: nat)
    | Receiving(way: Way, ops: nat)
    | Received(way: Way, ops: nat, data: seq<Byte>)
    | Draining(way: Way, ops: nat, eof: bool)             // waking buffer waiters
    | HalfClosing(way: Way, ops: nat)
    | Leaving(way: Way, ops: nat)
    | Failing(at: StopAt, status: int)
    | CheckDone
    | Finishing
    | Releasing(second: bool)                             // dropping buffers, waking waiters
    | Signalling

  /** The dispatcher's main loop. */
  datatype Round =
    | Off                                                 // no dispatcher thread
    | Asleep
    | Awake                                               // pending taken, stopping not yet read
    | Retiring(last: bool)
    | Freeing(rest: seq<nat>, last: bool)
    | Polling
    | Serving(dispatched: nat)
    | Exited

  datatype Dispatcher = Dispatcher(round: Round, session: nat, at: DispatchAt)

  datatype DisableAt = Accept | ReadRefs | AwaitIdle

  /** What the control thread is doing with its current session. */
  datatype ControlAt =
    | Free
    | Opening | Registering | Connecting | Installing | Modifying | Running | StartAdd
    | FailRestore
    | Disable(phase: DisableAt, reap: bool)
    | FailClose | FailUnqueue | FailUnbind | FailClear | FailRetire
    | Joining
    | ReapRestore | ReapUnqueue | ReapClose | ReapClear | ReapUnbind | ReapRetire
    | Stop(at: StopAt)

  /** The control operation in progress; all hold the control lock. */
  datatype Operation =
    | NoOperation
    | Starting
    | Join
    | CancelOne
    | CancelStop(todo: seq<nat>)         // tcpcc_bridge_cancel, first loop
    | CancelReap(todo: seq<nat>)         // tcpcc_bridge_cancel, second loop
    | CancelHalt                         // waiting for the dispatcher to exit

  /** wake: the operation's next action is to wake the dispatcher. */
  datatype Control = Control(operation: Operation, wake: bool, session: nat, at: ControlAt)

  datatype State = State(
    sessions: seq<Session>,
    registry: Registry,
    ready: seq<nat>, waiters: seq<nat>, retired: seq<nat>,
    bufferBytes: nat,
    pending: bool, stopping: bool,
    notifiers: nat,                      // host notifier calls not yet run
    dispatcher: Dispatcher,
    control: Control)

  const Initial := State([], Empty, [], [], [], 0, false, false, 0,
                         Dispatcher(Off, 0, Nothing), Control(NoOperation, false, 0, Free))

  function GetLane(x: Session, way: Way): Lane {
    if way == ToBackend then x.toBackend else x.toPublic
  }

  function SetLane(x: Session, way: Way, l: Lane): Session {
    if way == ToBackend then x.(toBackend := l) else x.(toPublic := l)
  }

  /** Where the dispatcher, or the control thread, stands with session s. */
  function DispatchOf(st: State, s: nat): DispatchAt {
    if st.dispatcher.session == s then st.dispatcher.at else Nothing
  }

  function ControlOf(st: State, s: nat): ControlAt {
    if st.control.session == s then st.control.at else Free
  }

  function Put(st: State, s: nat, x: Session): State
    requires s < |st.sessions|
  {
    st.(sessions := st.sessions[s := x])
  }

  function Dispatch(st: State, at: DispatchAt): State {
    st.(dispatcher := st.dispatcher.(at := at))
  }

  function At(st: State, at: ControlAt): State {
    st.(control := st.control.(at := at))
  }

  /** kzalloc and the initialisation in tcpcc_bridge_allocate_session. */
  function NewSession(name: Name): Session {
    Session(name,
            Core(true, true, false,
                 true, true, false, false,
                 false, false,
                 false, true,
                 0,
                 0, 0, 0,
                 false, false, 0, 0, None),
            false, Idle, Idle,
            false, multiset{}, multiset{})
  }

  function PutCore(st: State, s: nat, k: Core): State
    requires s < |st.sessions|
  {
    Put(st, s, st.sessions[s].(core := k))
  }
}

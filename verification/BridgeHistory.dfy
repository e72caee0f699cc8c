/** What no step of any thread takes back. */
module BridgeHistory {
  import opened Lists
  import opened Bytes
  import opened Lanes
  import opened SlotRegistry
  import opened BridgeState
  import opened BridgeSteps
  import opened BridgeInvariant
  import opened BridgeAllocating
  import opened BridgeTheorems

  // ----- one session -----

  /** Bytes received stay received and bytes sent stay sent, in order; so do
      the end of the stream and the half-close. */
  ghost predicate LaneGrows(l: Lane, l': Lane) {
    l.sent <= l'.sent && l.received <= l'.received && (l.eof ==> l'.eof) && (l.shut ==> l'.shut) && (l.done ==> l'.done)
  }

  /** The first nonzero status stays, and so does what a join returned. */
  ghost predicate CoreGrows(k: Core, k': Core) {
    && (k.status != 0 ==> k'.status == k.status) && (k.result.Some? ==> k'.result == k.result)
    && k.signals <= k'.signals && k.reaps <= k'.reaps
    && (k.finishedNotified ==> k'.finishedNotified) && (k.retired ==> k'.retired) && (k.freed ==> k'.freed)
  }

  ghost predicate Grows(x: Session, x': Session) {
    && x'.name == x.name && CoreGrows(x.core, x'.core)
    && LaneGrows(x.toBackend, x'.toBackend) && LaneGrows(x.toPublic, x'.toPublic)
  }

  /** Every session grows; new ones may appear. */
  ghost predicate Grown(a: seq<Session>, b: seq<Session>) {
    |a| <= |b| && forall t :: 0 <= t < |a| ==> Grows(a[t], b[t])
  }

  lemma GrowsSelf(x: Session)
    ensures Grows(x, x)
  {
  }

  lemma GrowsOn(x: Session, y: Session, z: Session)
    requires Grows(x, y) && Grows(y, z)
    ensures Grows(x, z)
  {
    LaneGrowsOn(x.toBackend, y.toBackend, z.toBackend);
    LaneGrowsOn(x.toPublic, y.toPublic, z.toPublic);
    hide LaneGrows;
  }

  lemma LaneGrowsOn(a: Lane, b: Lane, c: Lane)
    requires LaneGrows(a, b) && LaneGrows(b, c)
    ensures LaneGrows(a, c)
  {
  }

  lemma GrownSelf(a: seq<Session>)
    ensures Grown(a, a)
  {
    hide Grows;
    forall t | 0 <= t < |a| ensures Grows(a[t], a[t]) { GrowsSelf(a[t]); }
  }

  lemma GrownOn(a: seq<Session>, b: seq<Session>, c: seq<Session>)
    requires Grown(a, b) && Grown(b, c)
    ensures Grown(a, c)
  {
    hide Grows;
    forall t | 0 <= t < |a| ensures Grows(a[t], c[t]) { GrowsOn(a[t], b[t], c[t]); }
  }

  lemma GrownPut(a: seq<Session>, s: nat, y: Session)
    requires s < |a| && Grows(a[s], y)
    ensures Grown(a, a[s := y])
  {
    hide Grows;
    forall t | 0 <= t < |a| ensures Grows(a[t], a[s := y][t]) { GrowsSelf(a[t]); }
  }

  lemma GrownNew(a: seq<Session>, x: Session)
    ensures Grown(a, a + [x])
  {
    hide Grows;
    forall t | 0 <= t < |a| ensures Grows(a[t], (a + [x])[t]) { GrowsSelf(a[t]); }
  }

  /** Only the life-cycle fields change. */
  lemma CoreChange(x: Session, k: Core)
    requires CoreGrows(x.core, k)
    ensures Grows(x, x.(core := k))
  {
  }

  lemma LaneChange(x: Session, way: Way, l: Lane)
    requires LaneGrows(GetLane(x, way), l)
    ensures Grows(x, SetLane(x, way, l))
  {
    LaneSelf(x.toBackend);
    LaneSelf(x.toPublic);
    hide LaneGrows;
  }

  lemma LaneSelf(l: Lane)
    ensures LaneGrows(l, l)
  {
  }

  // ----- shared pieces of steps -----

  lemma CorePut(st: State, s: nat, k: Core)
    requires s < |st.sessions| && CoreGrows(st.sessions[s].core, k)
    ensures Grown(st.sessions, PutCore(st, s, k).sessions)
  {
    hide Grown, Grows, CoreGrows;
    CoreChange(st.sessions[s], k);
    GrownPut(st.sessions, s, st.sessions[s].(core := k));
  }

  lemma LanePut(st: State, s: nat, way: Way, l: Lane)
    requires s < |st.sessions| && LaneGrows(GetLane(st.sessions[s], way), l)
    ensures Grown(st.sessions, Put(st, s, SetLane(st.sessions[s], way, l)).sessions)
  {
    hide Grown, Grows, LaneGrows, SetLane;
    LaneChange(st.sessions[s], way, l);
    GrownPut(st.sessions, s, SetLane(st.sessions[s], way, l));
  }

  lemma QueueGrows(st: State, s: nat)
    requires s < |st.sessions|
    ensures Grown(st.sessions, QueueAdd(st, s).sessions)
  {
    assert CoreGrows(st.sessions[s].core, st.sessions[s].core.(readyQueued := true));
    hide Grown, CoreGrows, PutCore;
    GrownSelf(st.sessions);
    CorePut(st, s, st.sessions[s].core.(readyQueued := true));
  }

  lemma DropGrows(st: State, s: nat, way: Way)
    requires s < |st.sessions|
    ensures Grown(st.sessions, DropBuffer(st, s, way).sessions)
  {
    var l := GetLane(st.sessions[s], way);
    assert LaneGrows(l, Release(l));
    hide Grown, LaneGrows, Release, SetLane, GetLane;
    GrownSelf(st.sessions);
    LanePut(st, s, way, Release(l));
  }

  lemma MarksGrow(x: Session)
    ensures Grows(x, Woken(x)) && Grows(x, FinishMark(x))
  {
  }

  lemma WakeGrows(st: State)
    requires st.waiters != [] && st.waiters[0] < |st.sessions|
    ensures Grown(st.sessions, WakeWaiter(st).sessions)
  {
    hide Grown, Grows, Woken, QueueAdd;
    var s := st.waiters[0];
    var st1 := Put(st, s, Woken(st.sessions[s])).(waiters := st.waiters[1..]);
    MarksGrow(st.sessions[s]);
    GrownPut(st.sessions, s, Woken(st.sessions[s]));
    QueueGrows(st1, s);
    GrownOn(st.sessions, st1.sessions, WakeWaiter(st).sessions);
  }

  lemma ReleaseGrows(st: State)
    requires st.dispatcher.session < |st.sessions|
    ensures Grown(st.sessions, ReleaseSecond(st).sessions)
  {
    hide Grown, DropBuffer;
    GrownSelf(st.sessions);
    DropGrows(st, st.dispatcher.session, ToPublic);
  }

  lemma FinishGrows(st: State)
    requires st.dispatcher.session < |st.sessions|
    ensures Grown(st.sessions, FinishSession(st).sessions)
  {
    hide Grown, Grows, DropBuffer, FinishMark, ReleaseSecond, Remove;
    var s := st.dispatcher.session;
    var x := st.sessions[s];
    var marked := Put(st, s, FinishMark(x)).(waiters := if x.waitQueued then Remove(st.waiters, s) else st.waiters);
    MarksGrow(x);
    GrownPut(st.sessions, s, FinishMark(x));
    DropGrows(marked, s, ToBackend);
    ReleaseGrows(marked);
    GrownOn(st.sessions, marked.sessions, FinishSession(st).sessions);
  }

  lemma LanesGrow(l: Lane, n: nat)
    ensures LaneGrows(l, TakeWritable(l)) && LaneGrows(l, TakeReadable(l)) && LaneGrows(l, Acquire(TakeReadable(l)))
    ensures LaneGrows(l, AfterSend(l, n)) && LaneGrows(l, AfterReceive(l, n)) && LaneGrows(l, AwaitBuffer(l))
    ensures LaneGrows(l, EndOfStream(l)) && LaneGrows(l, HalfClosed(l))
  {
  }

  lemma SendGrows(l: Lane, n: nat, room: bool)
    requires l.offset + n <= |l.buffer|
    ensures LaneGrows(l, Send(l, n, room))
  {
  }

  lemma ReceiveGrows(l: Lane, data: seq<Byte>, input: bool)
    requires |data| <= |l.buffer|
    ensures LaneGrows(l, Receive(l, data, input))
  {
  }

  // ----- the dispatcher -----

  lemma TopGrows(st: State, way: Way, ops: nat, r: Reply)
    requires st.dispatcher.session < |st.sessions|
    ensures Grown(st.sessions, HandleTop(st, way, ops, r).sessions)
  {
    hide Grown, LaneGrows, TakeReadable, TakeWritable, Acquire, SetLane, GetLane, Pending;
    var s := st.dispatcher.session;
    var l := GetLane(st.sessions[s], way);
    GrownSelf(st.sessions);
    LanesGrow(l, 0);
    LanePut(st, s, way, TakeWritable(l));
    LanePut(st, s, way, TakeReadable(l));
    LanePut(st, s, way, Acquire(TakeReadable(l)));
  }

  lemma TransferGrows(st: State, way: Way, ops: nat, r: Reply)
    requires st.dispatcher.session < |st.sessions|
    requires r.Count? ==> GetLane(st.sessions[st.dispatcher.session], way).offset + r.n
                          <= |GetLane(st.sessions[st.dispatcher.session], way).buffer|
    requires r.Data? ==> |r.bytes| <= |GetLane(st.sessions[st.dispatcher.session], way).buffer|
    ensures Grown(st.sessions, HandleSend(st, way, ops, r).sessions)
    ensures Grown(st.sessions, HandleReceive(st, way, ops, r).sessions)
  {
    hide Grown, LaneGrows, Send, Receive, EndOfStream, SetLane, GetLane, DropBuffer;
    var s := st.dispatcher.session;
    var l := GetLane(st.sessions[s], way);
    GrownSelf(st.sessions);
    match r
    case Count(n, more) =>
      SendGrows(l, n, more);
      LanePut(st, s, way, Send(l, n, more));
      DropGrows(st, s, way);
    case Data(bytes, more) =>
      ReceiveGrows(l, bytes, more);
      LanePut(st, s, way, Receive(l, bytes, more));
    case EndOfFile =>
      LanesGrow(l, 0);
      LanePut(st, s, way, EndOfStream(l));
      var st1 := Put(st, s, SetLane(st.sessions[s], way, EndOfStream(l)));
      DropGrows(st1, s, way);
      GrownOn(st.sessions, st1.sessions, DropBuffer(st1, s, way).sessions);
    case _ => DropGrows(st, s, way);
  }

  lemma StopGrows(st: State, at: StopAt, status: int, event: bool)
    requires st.dispatcher.session < |st.sessions|
    ensures Grown(st.sessions, HandleStop(st, at, status, event).sessions)
  {
    var s := st.dispatcher.session;
    StopMarkGrows(st.sessions[s].core, status);
    hide Grown, CoreGrows, StopMark, QueueAdd, PutCore;
    GrownSelf(st.sessions);
    CorePut(st, s, StopMark(st.sessions[s].core, status));
    QueueGrows(st, s);
  }

  lemma StopMarkGrows(k: Core, status: int)
    ensures CoreGrows(k, StopMark(k, status))
  {
  }

  lemma WaitGrows(st: State, s: nat, way: Way)
    requires s < |st.sessions|
    ensures Grown(st.sessions, WaitForBuffer(st, s, way).sessions)
  {
    var x := st.sessions[s];
    LanesGrow(GetLane(x, way), 0);
    WaitMarkGrows(x, way);
    hide Grown, Grows, LaneGrows, AwaitBuffer, SetLane, GetLane;
    GrownPut(st.sessions, s, SetLane(x, way, AwaitBuffer(GetLane(x, way))));
    GrownPut(st.sessions, s, SetLane(x, way, AwaitBuffer(GetLane(x, way))).(waitQueued := true));
  }

  lemma WaitMarkGrows(x: Session, way: Way)
    ensures var y := SetLane(x, way, AwaitBuffer(GetLane(x, way))); Grows(x, y) && Grows(x, y.(waitQueued := true))
  {
    LanesGrow(GetLane(x, way), 0);
    LaneChange(x, way, AwaitBuffer(GetLane(x, way)));
    hide LaneGrows, AwaitBuffer, SetLane, GetLane;
  }

  lemma CountersGrow(k: Core, n: nat)
    ensures CoreGrows(k, k.(eventRefs := n)) && CoreGrows(k, k.(eventIdle := n)) && CoreGrows(k, TakeReference(k))
  {
  }

  lemma ChangesGrow(k: Core)
    ensures CoreGrows(k, k.(finished := k.finished + 1, signals := k.signals + 1)) && CoreGrows(k, k.(freed := true))
    ensures CoreGrows(k, k.(readyQueued := false)) && CoreGrows(k, k.(retired := true)) && CoreGrows(k, k.(bound := false))
  {
  }

  lemma EventGrows(st: State, r: Reply)
    requires CanHandle(st, r) && EventAt(st.dispatcher.at)
    ensures Grown(st.sessions, Handle(st, r).sessions)
  {
    hide Grown, CoreGrows, LaneGrows, HandleStop, QueueAdd, PutCore;
    var s := st.dispatcher.session;
    var k := st.sessions[s].core;
    GrownSelf(st.sessions);
    match st.dispatcher.at
    case EventStop(at, status) => StopGrows(st, at, status, true);
    case EventAdd => QueueGrows(st, s);
    case EventPut =>
      if k.eventRefs > 0 {
        CountersGrow(k, k.eventRefs - 1);
        CorePut(st, s, k.(eventRefs := k.eventRefs - 1));
      }
    case EventIdle =>
      CountersGrow(k, k.eventIdle + 1);
      CorePut(st, s, k.(eventIdle := k.eventIdle + 1));
    case EventConnect =>
  }

  lemma LoopPositionGrows(st: State, r: Reply, way: Way)
    requires CanHandle(st, r) && OnLane(st.dispatcher.at, way)
    ensures Grown(st.sessions, Handle(st, r).sessions)
  {
    hide Grown, CoreGrows, LaneGrows, HandleTop, HandleSend, HandleReceive, WakeWaiter, WaitForBuffer,
         AfterSend, AfterReceive, HalfClosed, SetLane, GetLane, QueueAdd;
    var s := st.dispatcher.session;
    GrownSelf(st.sessions);
    match st.dispatcher.at
    case Top(_, ops) => TopGrows(st, way, ops, r);
    case Sending(_, ops) => TransferGrows(st, way, ops, r);
    case Sent(_, ops, n) =>
      LanesGrow(GetLane(st.sessions[s], way), n);
      LanePut(st, s, way, AfterSend(GetLane(st.sessions[s], way), n));
    case NoBuffer(_, ops) => WaitGrows(st, s, way);
    case Receiving(_, ops) => TransferGrows(st, way, ops, r);
    case Received(_, ops, data) =>
      LanesGrow(GetLane(st.sessions[s], way), |data|);
      LanePut(st, s, way, AfterReceive(GetLane(st.sessions[s], way), |data|));
    case Draining(_, _, _) => if st.waiters != [] && st.waiters[0] < |st.sessions| { WakeGrows(st); }
    case HalfClosing(_, ops) =>
      LanesGrow(GetLane(st.sessions[s], way), 0);
      LanePut(st, s, way, HalfClosed(GetLane(st.sessions[s], way)));
    case Leaving(_, _) => QueueGrows(st, s);
  }

  lemma EndGrows(st: State, r: Reply)
    requires CanHandle(st, r) && !EventAt(st.dispatcher.at) && !OnLane(st.dispatcher.at, ToBackend) && !OnLane(st.dispatcher.at, ToPublic)
    ensures Grown(st.sessions, Handle(st, r).sessions)
  {
    hide Grown, CoreGrows, LaneGrows, HandleStop, WakeWaiter, ReleaseSecond, FinishSession, QueueAdd, PutCore;
    var s := st.dispatcher.session;
    var k := st.sessions[s].core;
    GrownSelf(st.sessions);
    match st.dispatcher.at
    case Failing(at, status) => StopGrows(st, at, status, false);
    case Finishing => FinishGrows(st);
    case Releasing(second) =>
      if st.waiters != [] && st.waiters[0] < |st.sessions| { WakeGrows(st); }
      ReleaseGrows(st);
    case Signalling =>
      ChangesGrow(k);
      CorePut(st, s, k.(finished := k.finished + 1, signals := k.signals + 1));
    case _ =>
  }

  lemma HandleGrows(st: State, r: Reply)
    requires CanHandle(st, r)
    ensures Grown(st.sessions, Handle(st, r).sessions)
  {
    hide *;
    if EventAt(st.dispatcher.at) {
      EventGrows(st, r);
    } else if OnLane(st.dispatcher.at, ToBackend) {
      LoopPositionGrows(st, r, ToBackend);
    } else if OnLane(st.dispatcher.at, ToPublic) {
      LoopPositionGrows(st, r, ToPublic);
    } else {
      EndGrows(st, r);
    }
  }

  lemma DeliveryGrows(x: Session, e: HostEvent)
    ensures Grows(x, Delivery(x, e))
  {
    CountersGrow(x.core, 0);
    hide TakeReference, CoreGrows;
  }

  lemma PollGrows(st: State, source: nat, e: HostEvent, error: int)
    requires source < |st.sessions|
    ensures Grown(st.sessions, PollEvent(st, source, e, error).sessions)
  {
    var x := st.sessions[source];
    var y := x.(events := x.events - multiset{e});
    assert Grows(x, y) by { CoreChange(x, x.core); }
    hide Grown, Grows, Delivery, DeliveryAt;
    GrownPut(st.sessions, source, y);
    var target := Addressee(st, source);
    if target.Some? {
      var st1 := Put(st, source, y);
      DeliveryGrows(st1.sessions[target.value], e);
      GrownPut(st1.sessions, target.value, Delivery(st1.sessions[target.value], e));
      GrownOn(st.sessions, st1.sessions, PollEvent(st, source, e, error).sessions);
    }
  }

  lemma LoopGrows(st: State, r: Reply)
    requires CanLoop(st, r)
    ensures Grown(st.sessions, Loop(st, r).sessions)
  {
    hide Grown, CoreGrows, PollEvent, PutCore;
    GrownSelf(st.sessions);
    match st.dispatcher.round
    case Freeing(rest, last) =>
      if rest != [] && rest[0] < |st.sessions| {
        ChangesGrow(st.sessions[rest[0]].core);
        CorePut(st, rest[0], st.sessions[rest[0]].core.(freed := true));
      }
    case Polling => if r.Poll? { PollGrows(st, r.source, r.event, r.socketError); }
    case Serving(n) =>
      if st.ready != [] && st.ready[0] < |st.sessions| {
        ChangesGrow(st.sessions[st.ready[0]].core);
        CorePut(st, st.ready[0], st.sessions[st.ready[0]].core.(readyQueued := false));
      }
    case _ =>
  }

  // ----- the control thread -----

  lemma BeginGrows(st: State, c: Choice)
    requires CanBegin(st, c)
    ensures Grown(st.sessions, Begin(st, c).sessions)
  {
    hide Grown, FindHandle, Bind, NewSession, WithSpare;
    GrownSelf(st.sessions);
    forall x ensures Grown(st.sessions, st.sessions + [x]) { GrownNew(st.sessions, x); }
  }

  lemma SetupGrows(k: Core, b: bool)
    ensures CoreGrows(k, k.(hostOpen := b)) && CoreGrows(k, k.(callbacksInstalled := b)) && CoreGrows(k, k.(acceptEvents := b))
  {
  }

  lemma ClearsGrow(k: Core)
    ensures CoreGrows(k, k.(publicOpen := false, connecting := false, running := false, stopping := false,
                            acceptEvents := false, inUse := false))
    ensures CoreGrows(k, k.(connecting := false, running := false, acceptEvents := false, inUse := false))
  {
  }

  lemma FinishedGrows(k: Core, n: nat)
    ensures CoreGrows(k, k.(finished := n))
  {
  }

  lemma ReapGrows(k: Core, code: int)
    requires k.result.None?
    ensures CoreGrows(k, k.(hostOpen := false, publicOpen := false, reaps := k.reaps + 1,
                            result := Some(if k.status != 0 then k.status else code)))
  {
  }

  lemma StartedGrows(x: Session)
    ensures Grows(x, x.(core := x.core.(connecting := false, running := true),
                        toBackend := x.toBackend.(readable := true, writable := true),
                        toPublic := x.toPublic.(readable := true, writable := true)))
  {
  }

  lemma UnqueueGrows(st: State, s: nat)
    requires s < |st.sessions|
    ensures Grown(st.sessions, Unqueue(st, s).sessions) && Grown(st.sessions, UnbindSession(st, s).sessions)
    ensures Grown(st.sessions, Retire(st, s).sessions)
  {
    var k := st.sessions[s].core;
    ChangesGrow(k);
    hide Grown, CoreGrows, PutCore, Unbind, Remove;
    GrownSelf(st.sessions);
    CorePut(st, s, k.(readyQueued := false));
    CorePut(st, s, k.(bound := false));
    CorePut(st, s, k.(retired := true));
  }

  /** A session about to be reaped has not been reaped. */
  lemma NotYetReaped(st: State)
    requires Inv(st) && st.control.at == ReapClose && st.control.session < |st.sessions|
    ensures st.sessions[st.control.session].core.result.None?
  {
    hide *;
    var s := st.control.session;
    SessionFacts(st, s);
    AtReapClose(st, s);
    var x, d := st.sessions[s], DispatchOf(st, s);
    NoResult(x.core, DutyOf(d), DueOf(x).inLock, BothDone(x));
  }

  lemma AtReapClose(st: State, s: nat)
    requires st.control.at == ReapClose && s == st.control.session
    ensures ControlOf(st, s) == ReapClose
  {
  }

  lemma NoResult(k: Core, y: Duty, inLock: bool, bothDone: bool)
    requires Ownership(k, y, ReapClose, inLock, bothDone)
    ensures k.result.None?
  {
    hide References, Stops;
  }

  lemma SetupStepsGrow(st: State, c: Choice)
    requires CanControl(st, c)
    requires var at := st.control.at; at.Opening? || at.Registering? || at.Connecting? || at.Installing? || at.Modifying? || at.Running? || at.StartAdd?
    ensures Grown(st.sessions, Operate(st, c).sessions)
  {
    hide Grown, Grows, CoreGrows, PutCore, QueueAdd;
    var s := st.control.session;
    var x := st.sessions[s];
    GrownSelf(st.sessions);
    match st.control.at
    case Opening =>
      SetupGrows(x.core, true);
      CorePut(st, s, x.core.(hostOpen := true));
      if c.Refuse? {
        SetupGrows(x.core, c.socketMade);
        CorePut(st, s, x.core.(hostOpen := c.socketMade));
      }
    case Installing =>
      SetupGrows(x.core, true);
      CorePut(st, s, x.core.(callbacksInstalled := true));
    case Running =>
      StartedGrows(x);
      GrownPut(st.sessions, s, x.(core := x.core.(connecting := false, running := true),
                                  toBackend := x.toBackend.(readable := true, writable := true),
                                  toPublic := x.toPublic.(readable := true, writable := true)));
    case StartAdd => QueueGrows(st, s);
    case _ =>
  }

  lemma OperateGrows(st: State, c: Choice)
    requires Inv(st) && CanControl(st, c)
    ensures Grown(st.sessions, Operate(st, c).sessions)
  {
    hide Inv, Grown, Operate;
    if st.control.at == ReapClose {
      NotYetReaped(st);
    }
    ControlGrows(st, c);
  }

  lemma ControlGrows(st: State, c: Choice)
    requires CanControl(st, c)
    requires st.control.at == ReapClose ==> st.sessions[st.control.session].core.result.None?
    ensures Grown(st.sessions, Operate(st, c).sessions)
  {
    hide Grown, Grows, CoreGrows, PutCore, QueueAdd, Unqueue, UnbindSession, Retire, StopMark;
    var s := st.control.session;
    var k := st.sessions[s].core;
    GrownSelf(st.sessions);
    SetupGrows(k, false);
    ClearsGrow(k);
    UnqueueGrows(st, s);
    match st.control.at
    case FailRestore => CorePut(st, s, k.(callbacksInstalled := false));
    case Disable(phase, reap) =>
      CorePut(st, s, k.(acceptEvents := false));
      if phase == AwaitIdle {
        CountersGrow(k, k.eventIdle - 1);
        CorePut(st, s, k.(eventIdle := k.eventIdle - 1));
      }
    case FailClose => CorePut(st, s, k.(hostOpen := false));
    case FailClear =>
      CorePut(st, s, k.(publicOpen := false, connecting := false, running := false, stopping := false,
                        acceptEvents := false, inUse := false));
    case Joining =>
      if c == Go {
        FinishedGrows(k, k.finished - 1);
        CorePut(st, s, k.(finished := k.finished - 1));
      }
    case ReapRestore => CorePut(st, s, k.(callbacksInstalled := false));
    case ReapClose =>
      ReapGrows(k, c.code);
      CorePut(st, s, k.(hostOpen := false, publicOpen := false, reaps := k.reaps + 1,
                        result := Some(if k.status != 0 then k.status else c.code)));
    case ReapClear => CorePut(st, s, k.(connecting := false, running := false, acceptEvents := false, inUse := false));
    case Stop(at) =>
      QueueGrows(st, s);
      StopMarkGrows(k, -125);
      CorePut(st, s, StopMark(k, -125));
    case FailUnqueue =>
    case FailUnbind =>
    case FailRetire =>
    case ReapUnqueue =>
    case ReapUnbind =>
    case ReapRetire =>
    case Free =>
    case _ => SetupStepsGrow(st, c);
  }

  // ----- the world -----

  predicate SameTrail(l: Lane, l': Lane) {
    l'.sent == l.sent && l'.received == l.received && l'.eof == l.eof && l'.shut == l.shut && l'.done == l.done
  }

  /** The world changes sockets, flags and notifications only. */
  predicate WorldOnly(x: Session, y: Session) {
    y.name == x.name && y.core == x.core && SameTrail(x.toBackend, y.toBackend) && SameTrail(x.toPublic, y.toPublic)
  }

  lemma WorldGrows(x: Session, y: Session)
    requires WorldOnly(x, y)
    ensures Grows(x, y)
  {
  }

  lemma CallTouches(x: Session, readable: bool, writable: bool, a: Callback, stage: Stage)
    ensures WorldOnly(x, Call(x, readable, writable)) && WorldOnly(x, Call(x.(publicClosed := true), readable, writable))
    ensures WorldOnly(x, Move(x, a, stage)) && WorldOnly(x, Leave(x, a))
  {
  }

  lemma InputTouches(x: Session, readable: bool, writable: bool)
    ensures WorldOnly(x, Call(x.(toBackend := x.toBackend.(input := true)), readable, writable))
    ensures WorldOnly(x, Call(x.(toPublic := x.toPublic.(room := true)), readable, writable))
  {
  }

  function PostedTo(x: Session, e: HostEvent): Session {
    x.(events := x.events + multiset{e})
  }

  lemma PostTouches(x: Session, e: HostEvent)
    ensures WorldOnly(x, PostedTo(x, e))
    ensures WorldOnly(x, PostedTo(x.(toPublic := x.toPublic.(input := true)), e))
    ensures WorldOnly(x, PostedTo(x.(toBackend := x.toBackend.(room := true)), e))
  {
  }

  lemma MarkTouches(x: Session, a: Callback)
    ensures WorldOnly(x, Move(x, a, Marked).(
                           toBackend := if a.readable then x.toBackend.(readable := true) else x.toBackend,
                           toPublic := if a.writable then x.toPublic.(writable := true) else x.toPublic))
  {
  }

  lemma WorldPut(st: State, s: nat, y: Session)
    requires s < |st.sessions| && WorldOnly(st.sessions[s], y)
    ensures Grown(st.sessions, Put(st, s, y).sessions)
  {
    hide WorldOnly, Grown, Grows;
    WorldGrows(st.sessions[s], y);
    GrownPut(st.sessions, s, y);
  }

  lemma SocketHappens(st: State, e: Event)
    requires CanHappen(st, e) && (e.Input? || e.Room? || e.Close? || e.Knock? || e.Post?)
    ensures Grown(st.sessions, Happen(st, e).sessions)
  {
    hide WorldOnly, Grown, Call;
    var s := e.s;
    var x := st.sessions[s];
    match e
    case Input(_, way, other) =>
      InputTouches(x, true, other);
      PostTouches(x, HostEvent(!other, false, other, false));
      if way == ToBackend {
        WorldPut(st, s, Call(x.(toBackend := x.toBackend.(input := true)), true, other));
      } else {
        WorldPut(st, s, PostedTo(x.(toPublic := x.toPublic.(input := true)), HostEvent(!other, false, other, false)));
      }
    case Room(_, way, other) =>
      InputTouches(x, other, true);
      PostTouches(x, HostEvent(false, !other, other, false));
      if way == ToBackend {
        WorldPut(st, s, PostedTo(x.(toBackend := x.toBackend.(room := true)), HostEvent(false, !other, other, false)));
      } else {
        WorldPut(st, s, Call(x.(toPublic := x.toPublic.(room := true)), other, true));
      }
    case Close(_) =>
      CallTouches(x, true, true, Callback(Coming, false, false), Coming);
      WorldPut(st, s, Call(x.(publicClosed := true), true, true));
    case Knock(_, readable, writable) =>
      CallTouches(x, readable, writable, Callback(Coming, false, false), Coming);
      WorldPut(st, s, Call(x, readable, writable));
    case Post(_, ev) =>
      PostTouches(x, ev);
      WorldPut(st, s, PostedTo(x, ev));
  }

  lemma CallbackHappens(st: State, e: Event)
    requires CanHappen(st, e) && (e.Enter? || e.Mark? || e.Add? || e.Wake?)
    ensures Grown(st.sessions, Happen(st, e).sessions)
  {
    hide WorldOnly, Grown, Move, Leave, QueueAdd;
    var s := e.s;
    var x := st.sessions[s];
    CallTouches(x, false, false, e.c, Entered);
    CallTouches(x, false, false, e.c, Added);
    MarkTouches(x, e.c);
    WorldPut(st, s, Leave(x, e.c));
    match e
    case Enter(_, a) => WorldPut(st, s, Move(x, a, Entered));
    case Mark(_, a) =>
      WorldPut(st, s, Move(x, a, Marked).(
                        toBackend := if a.readable then x.toBackend.(readable := true) else x.toBackend,
                        toPublic := if a.writable then x.toPublic.(writable := true) else x.toPublic));
    case Add(_, a) =>
      var st1 := Put(st, s, Move(x, a, Added));
      WorldPut(st, s, Move(x, a, Added));
      QueueGrows(st1, s);
      GrownOn(st.sessions, st1.sessions, QueueAdd(st1, s).sessions);
    case Wake(_, a) =>
  }

  lemma HappenGrows(st: State, e: Event)
    requires CanHappen(st, e)
    ensures Grown(st.sessions, Happen(st, e).sessions)
  {
    if e.Notify? {
      GrownSelf(st.sessions);
    } else if e.Enter? || e.Mark? || e.Add? || e.Wake? {
      CallbackHappens(st, e);
    } else {
      SocketHappens(st, e);
    }
  }

  // ----- runs -----

  lemma DoGrows(st: State, a: Action)
    requires Inv(st) && Can(st, a)
    ensures Grown(st.sessions, Do(st, a).sessions)
  {
    hide Inv, Grown, CanLoop, CanHandle, CanBegin, CanContinue, CanControl, CanHappen, Loop, Handle, Begin, Operate, Happen;
    match a
    case ByDispatcher(r) => if CanLoop(st, r) { LoopGrows(st, r); } else { HandleGrows(st, r); }
    case ByControl(c) =>
      if CanBegin(st, c) { BeginGrows(st, c); }
      else if CanContinue(st, c) { ContinueGrows(st, c); }
      else { OperateGrows(st, c); }
    case ByWorld(e) => HappenGrows(st, e);
  }

  lemma ContinueGrows(st: State, c: Choice)
    requires CanContinue(st, c)
    ensures Grown(st.sessions, Continue(st, c).sessions)
  {
    hide Grown;
    GrownSelf(st.sessions);
  }

  /** Along every run, for every session: its name stays, its first nonzero
      status and its join result stay, its signals and reaps only add up, and
      its byte streams only get longer. */
  lemma {:induction false} NothingTakenBack(states: seq<State>, actions: seq<Action>, i: nat, j: nat)
    requires IsRun(states, actions) && i <= j < |states|
    ensures Grown(states[i].sessions, states[j].sessions)
  {
    hide Inv, Can, Do, Grown;
    if i == j {
      GrownSelf(states[i].sessions);
    } else {
      NothingTakenBack(states, actions, i, j - 1);
      RunInv(states, actions, j - 1);
      DoGrows(states[j - 1], actions[j - 1]);
      GrownOn(states[i].sessions, states[j - 1].sessions, states[j].sessions);
    }
  }
}

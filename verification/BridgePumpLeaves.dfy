/** How the dispatcher leaves a lane whose operation budget is not used up: the
    loop of BridgePump, the run, and the flags that others set in it, put
    together. */
module BridgePumpLeaves {
  import opened Lanes
  import opened BridgeState
  import opened BridgeSteps
  import opened BridgeInvariant
  import opened BridgeHandling
  import opened BridgeBystanders
  import opened BridgePumping
  import opened BridgeAllocating
  import opened BridgeTheorems
  import opened BridgePumpTurns
  import opened BridgePumpRuns
  import P = BridgePump

  /** The turn under way and the operations done agree. */
  predicate Counted(at: DispatchAt, turn: nat) {
    match at
    case Top(_, ops) => turn == ops
    case Sending(_, ops) => turn == ops
    case NoBuffer(_, ops) => turn == ops
    case Receiving(_, ops) => turn == ops
    case Sent(_, ops, _) => turn + 1 == ops
    case Received(_, ops, _) => turn + 1 == ops
    case Draining(_, ops, _) => turn + 1 == ops
    case HalfClosing(_, ops) => turn + 1 == ops
    case _ => true
  }

  /** After a step of the dispatcher the count still agrees; if it leaves the
      loop short of the budget, the lane is blocked, or the last turn was an
      operation. */
  ghost predicate Counts(st': State, way: Way, turn: nat, turn': nat) {
    var at := st'.dispatcher.at;
    && (InLoop(at, way) ==> Counted(at, turn'))
    && (at.Leaving? && at.way == way && at.ops < DIRECTION_BUDGET ==>
          && turn' == turn && st'.dispatcher.session < |st'.sessions|
          && (turn + 1 == at.ops || Blocked(LaneOf(st', way))))
  }

  lemma Places(way: Way, ops: nat, eof: bool, n: nat, data: seq<Bytes.Byte>)
    ensures InLoop(Top(way, ops), way) && Counted(Top(way, ops), ops) && Counted(Sending(way, ops), ops) && Counted(Receiving(way, ops), ops)
    ensures Counted(NoBuffer(way, ops), ops) && Counted(Sent(way, ops + 1, n), ops) && Counted(Received(way, ops + 1, data), ops)
    ensures Counted(Draining(way, ops + 1, eof), ops) && Counted(HalfClosing(way, ops + 1), ops)
    ensures forall status :: !InLoop(Failing(StopLock, status), way)
    ensures !InLoop(Leaving(way, ops), way)
  {
  }

  lemma TopCounts(st: State, r: Reply, way: Way, ops: nat)
    requires CanHandle(st, r) && st.dispatcher.at == Top(way, ops) && st.dispatcher.session < |st.sessions|
    ensures Counts(Handle(st, r), way, ops, ops)
  {
    var l := GetLane(st.sessions[st.dispatcher.session], way);
    TopHandled(st, r, way, ops);
    Places(way, ops, false, 0, []);
    StripBlocked(l);
    if ops < 32 && Blocked(l) {
      hide Handle, CanHandle;
      MoveLane(st, way, Leaving(way, ops));
      LaneOfIs(st, way);
    } else {
      hide Handle, CanHandle, LaneOf, Counted, InLoop, Put, SetLane, Blocked;
    }
  }

  lemma SendingCounts(st: State, r: Reply, way: Way, ops: nat)
    requires CanHandle(st, r) && st.dispatcher.at == Sending(way, ops) && st.dispatcher.session < |st.sessions|
    ensures Counts(Handle(st, r), way, ops, ops)
  {
    SendHandled(st, r, way, ops);
    Places(way, ops, false, if r.Count? then r.n else 0, []);
    hide Handle, CanHandle, LaneOf, Counted, InLoop, Put, SetLane, Blocked;
  }

  lemma ReceivingCounts(st: State, r: Reply, way: Way, ops: nat)
    requires CanHandle(st, r) && st.dispatcher.at == Receiving(way, ops) && st.dispatcher.session < |st.sessions|
    requires st.bufferBytes >= BUFFER_LIMIT && LaneOf(st, way).held
    ensures Counts(Handle(st, r), way, ops, ops)
  {
    ReceiveHandled(st, r, way, ops);
    LaneOfIs(st, way);
    Places(way, ops, r.EndOfFile?, 0, if r.Data? then r.bytes else []);
    hide Handle, CanHandle, LaneOf, Counted, InLoop, Put, SetLane, Blocked;
  }

  lemma NoBufferCounts(st: State, r: Reply, way: Way, ops: nat)
    requires CanHandle(st, r) && st.dispatcher.at == NoBuffer(way, ops) && st.dispatcher.session < |st.sessions| && !Pending(LaneOf(st, way))
    ensures Counts(Handle(st, r), way, ops, ops)
  {
    var l := GetLane(st.sessions[st.dispatcher.session], way);
    assert LaneOf(Handle(st, r), way) == Strip(AwaitBuffer(l));
  }

  lemma TurnCounts(st: State, r: Reply, way: Way, turn: nat)
    requires CanHandle(st, r) && st.dispatcher.session < |st.sessions| && Counted(st.dispatcher.at, turn) && OnLane(st.dispatcher.at, way)
    requires st.dispatcher.at.Sent? || st.dispatcher.at.Received? || st.dispatcher.at.HalfClosing?
    ensures Counts(Handle(st, r), way, turn, TurnAfter(st, ByDispatcher(r), turn))
  {
    var at := st.dispatcher.at;
    var at' := if !at.HalfClosing? then Top(way, at.ops) else if r.Fault? then Failing(StopLock, r.code) else Leaving(way, at.ops);
    assert Handle(st, r).dispatcher.at == at' && Handle(st, r).dispatcher.session < |Handle(st, r).sessions|;
    hide Handle, CanHandle, LaneOf, Blocked;
  }

  lemma DrainCounts(st: State, r: Reply, way: Way, ops: nat, eof: bool)
    requires CanHandle(st, r) && st.dispatcher.at == Draining(way, ops, eof) && st.dispatcher.session < |st.sessions| && ops >= 1
    ensures Counts(Handle(st, r), way, ops - 1, ops - 1)
  {
    var at' := if st.waiters != [] && st.waiters[0] < |st.sessions| then Draining(way, ops, eof)
               else if eof then HalfClosing(way, ops) else Leaving(way, ops);
    assert Handle(st, r).dispatcher.at == at' && Handle(st, r).dispatcher.session < |Handle(st, r).sessions|;
    hide Handle, CanHandle, LaneOf, Blocked;
  }

  lemma HandleCounts(st: State, r: Reply, way: Way, turn: nat)
    requires Inv(st) && CanHandle(st, r) && InLoop(st.dispatcher.at, way) && Counted(st.dispatcher.at, turn)
    ensures Counts(Handle(st, r), way, turn, TurnAfter(st, ByDispatcher(r), turn))
  {
    hide Inv, CanHandle, Handle, Counts, LaneOf;
    InvReady(st, way);
    if st.dispatcher.at.Receiving? {
      SendingReady(LaneOf(st, way), way, st.dispatcher.at.ops);
    }
    match st.dispatcher.at
    case Top(_, ops) => TopCounts(st, r, way, ops);
    case Sending(_, ops) => SendingCounts(st, r, way, ops);
    case NoBuffer(_, ops) => NoBufferCounts(st, r, way, ops);
    case Receiving(_, ops) => ReceivingCounts(st, r, way, ops);
    case Draining(_, ops, eof) => DrainCounts(st, r, way, ops, eof);
    case Sent(_, _, _) => TurnCounts(st, r, way, turn);
    case Received(_, _, _) => TurnCounts(st, r, way, turn);
    case HalfClosing(_, _) => TurnCounts(st, r, way, turn);
  }

  lemma StepCounts(st: State, a: Action, way: Way, turn: nat)
    requires Inv(st) && Can(st, a) && InLoop(st.dispatcher.at, way) && Counted(st.dispatcher.at, turn)
    ensures Counts(Do(st, a), way, turn, TurnAfter(st, a, turn))
  {
    hide *;
    InLoopIs(st.dispatcher.at, way);
    if a.ByDispatcher? {
      DispatcherActs(st, a);
      HandleCounts(st, a.reply, way, turn);
    } else {
      NoTurn(st, a, turn);
      InvParts(st);
      OthersAside(st, a);
      AsideCounts(st, Do(st, a), way, turn);
    }
  }

  lemma AsideCounts(st: State, st': State, way: Way, turn: nat)
    requires StandsAside(st, st') && InLoop(st.dispatcher.at, way) && Counted(st.dispatcher.at, turn)
    ensures Counts(st', way, turn, turn)
  {
    hide SessionsAside, LaneOf, Blocked;
  }

  // ----- over the run -----

  lemma {:induction false} TurnAtNext(states: seq<State>, actions: seq<Action>, i: nat, k: nat, turn: nat)
    requires i <= k < |actions| && |states| == |actions| + 1
    ensures TurnAt(states, actions, i, k + 1, turn) == TurnAfter(states[k], actions[k], TurnAt(states, actions, i, k, turn))
    decreases k - i
  {
    hide TurnAfter;
    if i < k {
      TurnAtNext(states, actions, i + 1, k, TurnAfter(states[i], actions[i], turn));
    }
  }

  lemma {:induction false} TurnsGrow(states: seq<State>, actions: seq<Action>, i: nat, k: nat, j: nat, turn: nat)
    requires i <= k <= j < |states| == |actions| + 1
    ensures TurnAt(states, actions, i, k, turn) <= TurnAt(states, actions, i, j, turn)
    decreases j - k
  {
    if k < j {
      TurnAtNext(states, actions, i, k, turn);
      TurnsGrow(states, actions, i, k + 1, j, turn);
    }
  }

  lemma CountedHead(states: seq<State>, actions: seq<Action>, i: nat, way: Way)
    requires i < |states| == |actions| + 1
    ensures Counted(Top(way, 0), TurnAt(states, actions, i, i, 0))
  {
  }

  lemma {:induction false} CountedAll(states: seq<State>, actions: seq<Action>, i: nat, j: nat, way: Way)
    requires IsRun(states, actions) && i <= j < |states| == |actions| + 1 && states[i].dispatcher.at == Top(way, 0)
    requires forall k :: i <= k <= j ==> InLoop(states[k].dispatcher.at, way)
    ensures Counted(states[j].dispatcher.at, TurnAt(states, actions, i, j, 0))
    decreases j - i
  {
    hide *;
    if i == j {
      CountedHead(states, actions, i, way);
    } else {
      CountedAll(states, actions, i, j - 1, way);
      RunInv(states, actions, j - 1);
      StepOfRun(states, actions, j - 1);
      var turn := TurnAt(states, actions, i, j - 1, 0);
      StepCounts(states[j - 1], actions[j - 1], way, turn);
      TurnAtNext(states, actions, i, j - 1, 0);
      CountsParts(states[j], way, turn, TurnAfter(states[j - 1], actions[j - 1], turn));
    }
  }

  lemma CountsParts(st: State, way: Way, turn: nat, turn': nat)
    requires Counts(st, way, turn, turn')
    ensures InLoop(st.dispatcher.at, way) ==> Counted(st.dispatcher.at, turn')
    ensures var at := st.dispatcher.at;
            at.Leaving? && at.way == way && at.ops < DIRECTION_BUDGET ==>
              && turn' == turn && st.dispatcher.session < |st.sessions|
              && (turn + 1 == at.ops || Blocked(LaneOf(st, way)))
  {
    hide InLoop, Counted, LaneOf, Blocked;
  }

  /** What the invariant says of a lane at the head of the loop. */
  lemma HeadOk(st: State, way: Way)
    requires Inv(st) && st.dispatcher.at.Top? && st.dispatcher.at.way == way
    ensures st.dispatcher.session < |st.sessions| && st.bufferBytes <= TOTAL_BUFFER_LIMIT
    ensures var l := LaneOf(st, way); P.LaneOk(l) && BufferOk(l) && (l.eof ==> l.done)
  {
    InvReady(st, way);
    var s, d := st.dispatcher.session, st.dispatcher.at;
    var x := st.sessions[s];
    assert DispatchOf(st, s) == d && st.bufferBytes <= TOTAL_BUFFER_LIMIT;
    hide Inv;
    SessionFacts(st, s);
    GetLanes(x, way);
    HeadLane(GetLane(x, way), way, d, x.core, ControlOf(st, s), DueOf(x));
  }

  lemma HeadLane(l: Lane, way: Way, d: DispatchAt, k: Core, c: ControlAt, due: Due)
    requires LaneInv(l, way, d, k, c, due) && d.Top? && d.way == way && k.running
    ensures P.LaneOk(Strip(l)) && BufferOk(Strip(l)) && (l.eof ==> l.done)
  {
    hide Moves;
  }

  /** A blocked lane is blocked with fewer flags. */
  lemma FewerFlags(l: Lane, h: P.Happening, read: bool, write: bool)
    requires Blocked(P.Sooner(l, h)) && (h.lateReadable ==> read) && (h.lateWritable ==> write)
    ensures Blocked(l.(readable := l.readable && !read, writable := l.writable && !write))
  {
  }

  /** The lane without the flags that others set during the dispatcher's last
      turn on it. */
  ghost function WithoutLate(states: seq<State>, actions: seq<Action>, i: nat, j: nat, way: Way): Lane
    requires i <= j < |states| == |actions| + 1 && states[j].dispatcher.session < |states[j].sessions|
  {
    var l, n := LaneOf(states[j], way), TurnAt(states, actions, i, j, 0);
    l.(readable := l.readable && !SetIn(states, actions, i, j, way, 0, n, false),
       writable := l.writable && !SetIn(states, actions, i, j, way, 0, n, true))
  }

  /** The dispatcher leaves a lane with budget to spare only if it is blocked,
      but for flags that others set during its last turn on it. */
  lemma LeavesBlocked(states: seq<State>, actions: seq<Action>, i: nat, j: nat, way: Way, ops: nat)
    requires IsRun(states, actions) && i < j < |states| && states[i].dispatcher.at == Top(way, 0)
    requires forall k :: i <= k < j ==> InLoop(states[k].dispatcher.at, way)
    requires states[j].dispatcher.at == Leaving(way, ops) && ops < DIRECTION_BUDGET
    ensures states[j].dispatcher.session < |states[j].sessions| && Blocked(WithoutLate(states, actions, i, j, way))
  {
    hide *;
    RunLength(states, actions);
    LeavingIs(way, ops);
    var w := PumpRuns(states, actions, i, j, way);
    RunInv(states, actions, i);
    HeadOk(states[i], way);
    var l, used := LaneOf(states[i], way), states[i].bufferBytes;
    P.PumpsWell(l, used, w, 0, 0);
    var last := P.Last(l, used, w, 0, 0);
    EndsBlocked(states[j], way, ops, l, used, w, last, P.Pumped(l, used, w, 0, 0));
    CountedAll(states, actions, i, j - 1, way);
    RunInv(states, actions, j - 1);
    StepOfRun(states, actions, j - 1);
    var turn := TurnAt(states, actions, i, j - 1, 0);
    StepCounts(states[j - 1], actions[j - 1], way, turn);
    TurnAtNext(states, actions, i, j - 1, 0);
    CountsParts(states[j], way, turn, TurnAfter(states[j - 1], actions[j - 1], turn));
    if turn + 1 == ops {
      OnlyLate(states, actions, i, j, way, ops, w, last);
    } else {
      AllBlocked(states, actions, i, j, way);
    }
  }

  lemma LeavingIs(way: Way, ops: nat)
    ensures CameOut(Leaving(way, ops), way)
  {
  }

  lemma EndsBlocked(st: State, way: Way, ops: nat, l: Lane, used: int, w: nat -> P.Happening, last: nat, p: P.Turned)
    requires st.dispatcher.session < |st.sessions| && st.dispatcher.at == Leaving(way, ops) && ops < DIRECTION_BUDGET
    requires P.PumpedWell(l, used, w, 0, last, p, 0) && CameOut(st.dispatcher.at, way) && Summed(p) == Final(st, way)
    ensures Blocked(P.Sooner(LaneOf(st, way), w(last))) && (last == ops || last + 1 == ops)
  {
    hide LaneOf, P.LaneOk, Blocked, P.Sooner;
  }

  lemma AllBlocked(states: seq<State>, actions: seq<Action>, i: nat, j: nat, way: Way)
    requires i <= j < |states| == |actions| + 1 && states[j].dispatcher.session < |states[j].sessions|
    requires Blocked(LaneOf(states[j], way))
    ensures Blocked(WithoutLate(states, actions, i, j, way))
  {
    hide LaneOf, SetIn, TurnAt;
  }

  /** No flag is late in a turn that was never begun. */
  lemma NeverLate(states: seq<State>, actions: seq<Action>, i: nat, j: nat, way: Way, n: nat, write: bool)
    requires i <= j < |states| == |actions| + 1 && TurnAt(states, actions, i, j, 0) < n
    ensures !SetIn(states, actions, i, j, way, 0, n, write)
  {
    hide Sets;
    if SetIn(states, actions, i, j, way, 0, n, write) {
      var k :| i <= k < j && TurnAt(states, actions, i, k, 0) == n;
      TurnsGrow(states, actions, i, k, j, 0);
      assert false;
    }
  }

  lemma OnlyLate(states: seq<State>, actions: seq<Action>, i: nat, j: nat, way: Way, ops: nat, w: nat -> P.Happening, last: nat)
    requires i <= j < |states| == |actions| + 1 && states[j].dispatcher.session < |states[j].sessions|
    requires Grounded(w, states, actions, i, j, way, 0) && Blocked(P.Sooner(LaneOf(states[j], way), w(last)))
    requires TurnAt(states, actions, i, j, 0) + 1 == ops && (last == ops || last + 1 == ops)
    ensures Blocked(WithoutLate(states, actions, i, j, way))
  {
    hide LaneOf, SetIn, TurnAt, Blocked, P.Sooner;
    var n := TurnAt(states, actions, i, j, 0);
    NeverLate(states, actions, i, j, way, ops, false);
    NeverLate(states, actions, i, j, way, ops, true);
    assert LateFlag(w(last), false) ==> SetIn(states, actions, i, j, way, 0, last, false);
    assert LateFlag(w(last), true) ==> SetIn(states, actions, i, j, way, 0, last, true);
    FewerFlags(LaneOf(states[j], way), w(last), SetIn(states, actions, i, j, way, 0, n, false), SetIn(states, actions, i, j, way, 0, n, true));
  }
}

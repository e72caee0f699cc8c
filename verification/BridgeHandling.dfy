/** Every step of the dispatcher with a session in hand keeps the invariant. */
module BridgeHandling {
  import opened Lanes
  import opened BridgeState
  import opened BridgeSteps
  import opened BridgeInvariant
  import opened BridgeFrames

  lemma InvParts(st: State)
    requires Inv(st)
    ensures SessionsInv(st) && TablesInv(st) && ScarceInv(st) && PositionInv(st) && Alert(st) && OperationInv(st)
  {
    hide SessionsInv, TablesInv, ScarceInv, PositionInv, Alert, OperationInv;
  }

  lemma InvOf(st: State)
    requires SessionsInv(st) && TablesInv(st) && ScarceInv(st) && PositionInv(st) && Alert(st) && OperationInv(st)
    ensures Inv(st)
  {
    hide SessionsInv, TablesInv, ScarceInv, PositionInv, Alert, OperationInv;
  }

  // ----- sessions -----

  /** The dispatcher has, and had, no session but s in its hands, or it did not
      move. */
  predicate DispatcherOn(d: Dispatcher, d': Dispatcher, s: nat) {
    || (d'.session == d.session && d'.at == d.at)
    || ((d.session == s || d.at == Nothing) && (d'.session == s || d'.at == Nothing))
  }

  predicate ControlOn(o: Control, o': Control, s: nat) {
    || (o'.session == o.session && o'.at == o.at)
    || ((o.session == s || o.at == Free) && (o'.session == s || o'.at == Free))
  }

  lemma FrameSessions(st: State, st': State, s: nat, x: Session)
    requires SessionsInv(st) && s < |st.sessions| && st'.sessions == st.sessions[s := x]
    requires DispatcherOn(st.dispatcher, st'.dispatcher, s) && ControlOn(st.control, st'.control, s)
    requires SessionInv(x, DispatchOf(st', s), ControlOf(st', s))
    ensures SessionsInv(st')
  {
    hide SessionInv;
    forall t: nat | t < |st'.sessions| ensures SessionOk(st', t) {
      if t != s {
        assert DispatchOf(st', t) == DispatchOf(st, t) && ControlOf(st', t) == ControlOf(st, t);
        assert SessionOk(st, t);
      }
    }
  }

  lemma SessionAt(st: State, s: nat)
    requires Inv(st) && s < |st.sessions|
    ensures SessionInv(st.sessions[s], DispatchOf(st, s), ControlOf(st, s))
  {
    hide SessionInv, TablesInv, ScarceInv, PositionInv, Alert, OperationInv;
    assert SessionOk(st, s);
  }

  // ----- the dispatcher's wake-ups -----

  predicate SameNotices(x: Session, x': Session) {
    x'.callbacks == x.callbacks && x'.events == x.events
  }

  lemma SameSounds(st: State, s: nat, x: Session, st': State)
    requires s < |st.sessions| && st'.sessions == st.sessions[s := x] && SameNotices(st.sessions[s], x)
    ensures HasEvents(st') == HasEvents(st) && HasAdded(st'.sessions) == HasAdded(st.sessions)
  {
    assert forall t :: 0 <= t < |st.sessions| ==>
        st'.sessions[t].events == st.sessions[t].events && HasStage(st'.sessions[t], Added) == HasStage(st.sessions[t], Added);
  }

  lemma PendingAlert(st: State)
    requires st.pending
    ensures Alert(st)
  {
    hide HasEvents, HasAdded, ControlWakes, Looking, WillPoll;
  }

  lemma SameAlert(st: State, st': State)
    requires Alert(st) && HasEvents(st') == HasEvents(st) && HasAdded(st'.sessions) == HasAdded(st.sessions)
    requires st'.ready == st.ready && st'.retired == st.retired && st'.notifiers == st.notifiers
    requires st.pending ==> st'.pending
    requires st'.control == st.control && st'.dispatcher.round == st.dispatcher.round
    ensures Alert(st')
  {
    hide HasEvents, HasAdded, ControlWakes, Looking, WillPoll;
  }

  // ----- control operations -----

  lemma StopsGrow(o: Control, active: seq<nat>, stops: seq<bool>, stops': seq<bool>)
    requires CancelInv(o, active, stops) && |stops'| == |stops|
    requires forall t :: 0 <= t < |stops| && stops[t] ==> stops'[t]
    ensures CancelInv(o, active, stops')
  {
    hide Reaping;
  }

  lemma FrameOperation(st: State, st': State, s: nat, x: Session)
    requires OperationInv(st) && s < |st.sessions| && st'.sessions == st.sessions[s := x]
    requires st.sessions[s].core.stopping ==> x.core.stopping
    requires st'.control == st.control && st'.registry == st.registry
    requires st'.dispatcher.round == st.dispatcher.round && st'.stopping == st.stopping && st'.retired == st.retired
    ensures OperationInv(st')
  {
    hide CancelInv, HaltInv;
    MarksUpdate(st.sessions, s, x);
    MarksAt(st.sessions, s);
    StopsGrow(st.control, st.registry.active, StopMarks(st.sessions), StopMarks(st'.sessions));
  }

  // ----- one step of the dispatcher -----

  /** The dispatcher stays in the same part of its main loop. */
  predicate SameDesk(at: DispatchAt, at': DispatchAt) {
    at' == Nothing || EventAt(at') == EventAt(at)
  }

  lemma FramePosition(st: State, st': State)
    requires PositionInv(st) && st.dispatcher.at != Nothing && |st'.sessions| == |st.sessions| && st'.control == st.control
    requires st'.dispatcher == st.dispatcher.(at := st'.dispatcher.at) && SameDesk(st.dispatcher.at, st'.dispatcher.at)
    ensures PositionInv(st')
  {
    hide EventAt;
    NothingNoEvent();
  }

  lemma NothingNoEvent()
    ensures !EventAt(Nothing)
  {
  }

  lemma HandsOn(st: State, at: DispatchAt, s: nat)
    requires s == st.dispatcher.session
    ensures DispatcherOn(st.dispatcher, st.dispatcher.(at := at), s) && ControlOn(st.control, st.control, s)
    ensures DispatchOf(st, s) == st.dispatcher.at
  {
  }

  lemma PlaceAt(st: State, at: DispatchAt, s: nat)
    requires s == st.dispatcher.session && st.dispatcher.at == at
    ensures DispatchOf(st, s) == at
  {
  }

  lemma SameControl(st: State, st': State, s: nat)
    requires st'.control == st.control
    ensures ControlOf(st', s) == ControlOf(st, s)
  {
  }

  /** Only session s, the queue and the budget change, and the dispatcher's
      place with s. */
  predicate HandsStep(st: State, st': State, s: nat, x: Session, at: DispatchAt) {
    && s == st.dispatcher.session && s < |st.sessions| && st.dispatcher.at != Nothing
    && st'.sessions == st.sessions[s := x] && st'.dispatcher == st.dispatcher.(at := at)
    && st'.control == st.control && st'.registry == st.registry && st'.retired == st.retired
    && st'.stopping == st.stopping && st'.notifiers == st.notifiers
    && (st'.pending || (st'.pending == st.pending && st'.ready == st.ready))
    && SameDesk(st.dispatcher.at, at) && SameNotices(st.sessions[s], x)
    && (st.sessions[s].core.stopping ==> x.core.stopping)
  }

  lemma HandleAlert(st: State, st': State, s: nat, x: Session, at: DispatchAt)
    requires Alert(st) && HandsStep(st, st', s, x, at)
    ensures Alert(st')
  {
    hide Alert, HasEvents, HasAdded, SameNotices, SameDesk;
    if st'.pending {
      PendingAlert(st');
    } else {
      SameSounds(st, s, x, st');
      SameAlert(st, st');
    }
  }

  lemma HandleInv(st: State, st': State, s: nat, x: Session, at: DispatchAt)
    requires Inv(st) && HandsStep(st, st', s, x, at)
    requires SessionInv(x, at, ControlOf(st, s)) && TablesInv(st') && ScarceInv(st')
    ensures Inv(st')
  {
    hide Inv, SessionsInv, SessionInv, TablesInv, ScarceInv, PositionInv, Alert, OperationInv, DispatcherOn, ControlOn,
         DispatchOf, ControlOf, SameDesk, SameNotices;
    InvParts(st);
    HandsOn(st, at, s);
    PlaceAt(st', at, s);
    SameControl(st, st', s);
    FrameSessions(st, st', s, x);
    FramePosition(st, st');
    HandleAlert(st, st', s, x, at);
    FrameOperation(st, st', s, x);
    InvOf(st');
  }

  lemma ScarceKept(st: State, st': State)
    requires ScarceInv(st) && st'.waiters == st.waiters && st'.bufferBytes == st.bufferBytes
    requires (Waking(st.dispatcher.at) ==> st.waiters == []) && !Waking(st'.dispatcher.at)
    requires st'.dispatcher.at.NoBuffer? ==> st'.bufferBytes == TOTAL_BUFFER_LIMIT
    ensures ScarceInv(st')
  {
  }

  lemma PutSame(st: State, s: nat)
    requires s < |st.sessions|
    ensures Put(st, s, st.sessions[s]) == st
    ensures SameNotices(st.sessions[s], st.sessions[s]) && SameLinks(st.sessions[s], st.sessions[s])
  {
    UpdateSame(st.sessions, s);
  }

  function QueuedSession(x: Session): Session {
    x.(core := x.core.(readyQueued := true))
  }

  lemma QueuedLinks(x: Session)
    ensures SameNotices(x, QueuedSession(x)) && SameLinks(x, QueuedSession(x)) && QueuedSession(x).core.readyQueued
    ensures QueuedSession(x).core.stopping == x.core.stopping
  {
  }

  /** A step that moves no list. */
  lemma PutStep(st: State, s: nat, x: Session, at: DispatchAt)
    requires s == st.dispatcher.session && s < |st.sessions| && st.dispatcher.at != Nothing
    requires SameDesk(st.dispatcher.at, at) && SameNotices(st.sessions[s], x)
    requires st.sessions[s].core.stopping ==> x.core.stopping
    ensures var st' := Dispatch(Put(st, s, x), at);
            && HandsStep(st, st', s, x, at) && SameLists(st, st') && st'.sessions == st.sessions[s := x] && st'.ready == st.ready
            && st'.waiters == st.waiters && st'.bufferBytes == st.bufferBytes && st'.dispatcher.at == at
  {
    hide SameDesk, SameNotices;
  }

  /** A step that queues the session. */
  lemma SelfQueueStep(st: State, s: nat, at: DispatchAt)
    requires s == st.dispatcher.session && s < |st.sessions| && st.dispatcher.at != Nothing
    requires SameDesk(st.dispatcher.at, at) && st.sessions[s].core.inUse
    ensures var st', x := Dispatch(SelfQueue(st, s), at), QueuedSession(st.sessions[s]);
            && HandsStep(st, st', s, x, at) && SameLists(st, st') && st'.sessions == st.sessions[s := x] && x.core.readyQueued
            && st'.ready == Enqueued(st.ready, s, st.sessions[s].core.readyQueued) && SameLinks(st.sessions[s], x)
            && st'.waiters == st.waiters && st'.bufferBytes == st.bufferBytes && st'.dispatcher.at == at
  {
    hide SameDesk, QueueAdd, Enqueued;
    QueueAddIs(st, s);
    QueuedLinks(st.sessions[s]);
  }
}

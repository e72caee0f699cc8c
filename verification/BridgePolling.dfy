/** Polling host events keeps the invariant. */
module BridgePolling {
  import opened Lists
  import opened SlotRegistry
  import opened Handles
  import opened BridgeState
  import opened BridgeSteps
  import opened BridgeInvariant
  import opened BridgeNotices
  import opened BridgeFrames
  import opened BridgeHandling
  import opened BridgeLooping

  // ----- who gets the event -----

  /** A running session gets the events that carry its token. */
  lemma Addressed(st: State, a: nat)
    requires Inv(st) && a < |st.sessions| && st.sessions[a].core.running
    ensures Addressee(st, a) == Some(a)
  {
    assert st.sessions[a].core.bound && st.sessions[a].core.inUse && st.sessions[a].core.acceptEvents by {
      hide *;
      SessionAt(st, a);
      RunningInstalled(st.sessions[a], DispatchOf(st, a), ControlOf(st, a));
    }
    hide *;
    InvParts(st);
    TablesParts(st);
    MarksAt(st.sessions, a);
    BoundIsFound(st.registry, BoundMarks(st.sessions), Names(st.sessions), a);
    AddressedBy(st, a);
  }

  lemma BoundIsFound(r: Registry, bound: seq<bool>, names: seq<Name>, s: nat)
    requires RegistryInv(r, bound, names) && s < |bound| && s < |names| && bound[s]
    ensures Lookup(r, names[s].slot) == Some(s) && ValidSlot(names[s].slot) && ValidGeneration(names[s].generation)
  {
    hide FreeListed;
    assert s in r.active;
    GenerationClosedForm(names[s].ordinal);
  }

  lemma AddressedBy(st: State, a: nat)
    requires a < |st.sessions|
    requires var x := st.sessions[a];
             && x.core.inUse && x.core.acceptEvents && Lookup(st.registry, x.name.slot) == Some(a)
             && ValidSlot(x.name.slot) && ValidGeneration(x.name.generation)
    ensures Addressee(st, a) == Some(a)
  {
    HandleRoundTrip(st.sessions[a].name.slot, st.sessions[a].name.generation);
    hide Lookup, MakeToken, TokenSlot;
  }

  // ----- one session changes, the round goes on -----

  /** The session lost events or gained flags and a reference. */
  predicate Touched(x: Session, y: Session) {
    && SameLinks(x, y) && y.core.readyQueued == x.core.readyQueued && y.core.stopping == x.core.stopping
    && y.callbacks == x.callbacks
  }

  lemma PollAlert(st: State, st': State, b: nat, y: Session)
    requires Alert(st) && st.dispatcher.round == Polling && st'.dispatcher.round == Polling && b < |st.sessions|
    requires y.callbacks == st.sessions[b].callbacks && st'.sessions == st.sessions[b := y]
    requires st'.ready == st.ready && st'.retired == st.retired && st'.pending == st.pending && st'.control == st.control
    ensures Alert(st')
  {
    hide ControlWakes, HasEvents;
    SameAdded(st.sessions, b, y);
    hide HasAdded;
  }

  lemma SameAdded(sessions: seq<Session>, b: nat, y: Session)
    requires b < |sessions| && y.callbacks == sessions[b].callbacks
    ensures HasAdded(sessions[b := y]) == HasAdded(sessions)
  {
    assert forall t :: 0 <= t < |sessions| ==> HasStage(sessions[b := y][t], Added) == HasStage(sessions[t], Added);
  }

  lemma TouchedParts(x: Session, y: Session)
    requires Touched(x, y)
    ensures SameLinks(x, y) && y.core.readyQueued == x.core.readyQueued && y.core.stopping == x.core.stopping
    ensures y.callbacks == x.callbacks
  {
  }

  lemma PollPosition(st: State, st': State, b: nat)
    requires PositionInv(st) && ScarceInv(st) && st.dispatcher.at == Nothing && st.dispatcher.round == Polling && b < |st.sessions|
    requires |st'.sessions| == |st.sessions| && st'.control == st.control
    requires st'.waiters == st.waiters && st'.bufferBytes == st.bufferBytes
    requires st'.dispatcher.round == Polling && (st'.dispatcher.at == Nothing || (EventAt(st'.dispatcher.at) && st'.dispatcher.session == b))
    ensures PositionInv(st') && ScarceInv(st')
  {
  }

  function PolledState(st: State, b: nat, y: Session, d: Dispatcher): State
    requires b < |st.sessions|
  {
    st.(sessions := st.sessions[b := y], dispatcher := d)
  }

  lemma PolledParts(st: State, b: nat, y: Session, d: Dispatcher)
    requires b < |st.sessions| && d.round == st.dispatcher.round
    ensures var st' := PolledState(st, b, y, d);
            && st'.sessions == st.sessions[b := y] && st'.dispatcher == d && st'.control == st.control
            && st'.ready == st.ready && st'.retired == st.retired && st'.pending == st.pending && st'.registry == st.registry
            && st'.waiters == st.waiters && st'.bufferBytes == st.bufferBytes && st'.stopping == st.stopping
            && SameLists(st, st') && ControlOn(st.control, st'.control, b) && ControlOf(st', b) == ControlOf(st, b)
            && (d.session == b ==> DispatchOf(st', b) == d.at) && (d.at == Nothing ==> DispatchOf(st', b) == Nothing)
  {
  }

  lemma PollHands(d: Dispatcher, d': Dispatcher, b: nat)
    requires d.at == Nothing && (d'.at == Nothing || d'.session == b)
    ensures DispatcherOn(d, d', b)
  {
  }

  lemma PollInv(st: State, b: nat, y: Session, d: Dispatcher)
    requires Inv(st) && st.dispatcher.at == Nothing && st.dispatcher.round == Polling && b < |st.sessions| && d.round == Polling
    requires d.at == Nothing || (EventAt(d.at) && d.session == b)
    requires SessionInv(y, d.at, ControlOf(st, b)) && Touched(st.sessions[b], y)
    ensures Inv(PolledState(st, b, y, d))
  {
    hide *;
    var st' := PolledState(st, b, y, d);
    InvParts(st);
    PolledParts(st, b, y, d);
    TouchedParts(st.sessions[b], y);
    PollHands(st.dispatcher, d, b);
    FrameSessions(st, st', b, y);
    ReadyKept(st, b, y);
    FrameTables(st, st', b, y);
    PollPosition(st, st', b);
    PollAlert(st, st', b, y);
    FrameOperation(st, st', b, y);
    InvOf(st');
  }

  // ----- the step -----

  lemma PolledLinks(x: Session, e: HostEvent)
    ensures Touched(x, Polled(x, e)) && Touched(x, Delivery(x, e)) && Touched(x, Delivery(Polled(x, e), e))
    ensures Polled(x, e).core == x.core
  {
    assert Touched(x, Polled(x, e));
    hide Polled;
    DeliveryLinks(x, e);
    DeliveryLinks(Polled(x, e), e);
    hide Delivery;
  }

  lemma DeliveryLinks(x: Session, e: HostEvent)
    ensures Touched(x, Delivery(x, e))
  {
    hide TakeReference;
    ReferenceLinks(x.core);
  }

  lemma ReferenceLinks(k: Core)
    ensures var k' := TakeReference(k);
            && k'.retired == k.retired && k'.freed == k.freed && k'.bound == k.bound
            && k'.readyQueued == k.readyQueued && k'.stopping == k.stopping
  {
  }

  lemma DeliveryPlace(x: Session, e: HostEvent, error: int)
    ensures EventAt(DeliveryAt(x, e, error)) && DeliveryAt(Polled(x, e), e, error) == DeliveryAt(x, e, error)
  {
  }

  lemma DropEvent(st: State, a: nat, e: HostEvent)
    requires Inv(st) && st.dispatcher.at == Nothing && st.dispatcher.round == Polling && a < |st.sessions|
    requires e in st.sessions[a].events && !st.sessions[a].core.running
    ensures Inv(PolledState(st, a, Polled(st.sessions[a], e), st.dispatcher))
  {
    hide *;
    SessionAt(st, a);
    IdleHands(st, a);
    PolledLinks(st.sessions[a], e);
    DropSession(st.sessions[a], e, Nothing, ControlOf(st, a));
    PollInv(st, a, Polled(st.sessions[a], e), st.dispatcher);
  }

  /** The event reaches session b: its own, taken off its events, or another's. */
  lemma DeliverEvent(st: State, b: nat, e: HostEvent, error: int, own: bool)
    requires Inv(st) && st.dispatcher.at == Nothing && st.dispatcher.round == Polling && b < |st.sessions|
    requires (own ==> e in st.sessions[b].events) && st.sessions[b].core.inUse && st.sessions[b].core.acceptEvents
    ensures var x := st.sessions[b];
            Inv(PolledState(st, b, Delivery(if own then Polled(x, e) else x, e), Dispatcher(Polling, b, DeliveryAt(x, e, error))))
  {
    hide *;
    var x := st.sessions[b];
    SessionAt(st, b);
    IdleHands(st, b);
    PolledLinks(x, e);
    DeliveryPlace(x, e, error);
    if own {
      DeliverSession(x, e, error, ControlOf(st, b));
    } else {
      MisdeliverSession(x, e, error, ControlOf(st, b));
    }
    PollInv(st, b, Delivery(if own then Polled(x, e) else x, e), Dispatcher(Polling, b, DeliveryAt(x, e, error)));
  }

  lemma AddresseeParts(st: State, a: nat)
    requires a < |st.sessions| && Addressee(st, a).Some?
    ensures var b := Addressee(st, a).value;
            b < |st.sessions| && st.sessions[b].core.inUse && st.sessions[b].core.acceptEvents
  {
  }

  lemma PollStep(st: State, a: nat, e: HostEvent, error: int)
    requires Inv(st) && st.dispatcher.at == Nothing && st.dispatcher.round == Polling && a < |st.sessions|
    requires e in st.sessions[a].events
    ensures Inv(PollEvent(st, a, e, error))
  {
    hide *;
    if st.sessions[a].core.running {
      Addressed(st, a);
    }
    var target := Addressee(st, a);
    if target.Some? {
      AddresseeParts(st, a);
      if target.value == a {
        DeliverEvent(st, a, e, error, true);
        OwnOutcome(st, a, e, error);
      } else {
        DropEvent(st, a, e);
        OtherOutcome(st, a, target.value, e, error);
        DeliverEvent(PolledState(st, a, Polled(st.sessions[a], e), st.dispatcher), target.value, e, error, false);
      }
    } else {
      DropEvent(st, a, e);
      NoOutcome(st, a, e, error);
    }
  }

  lemma NoOutcome(st: State, a: nat, e: HostEvent, error: int)
    requires a < |st.sessions| && Addressee(st, a).None?
    ensures PollEvent(st, a, e, error) == PolledState(st, a, Polled(st.sessions[a], e), st.dispatcher)
  {
    hide Addressee;
  }

  lemma OwnOutcome(st: State, a: nat, e: HostEvent, error: int)
    requires a < |st.sessions| && Addressee(st, a) == Some(a) && st.dispatcher.round == Polling
    ensures var x := st.sessions[a];
            PollEvent(st, a, e, error) ==
            PolledState(st, a, Delivery(Polled(x, e), e), Dispatcher(Polling, a, DeliveryAt(x, e, error)))
  {
    hide Addressee, Delivery, DeliveryAt;
    var x := st.sessions[a];
    DeliveryPlace(x, e, error);
    UpdateTwice(st.sessions, a, Polled(x, e), Delivery(Polled(x, e), e));
  }

  lemma OtherOutcome(st: State, a: nat, b: nat, e: HostEvent, error: int)
    requires a < |st.sessions| && b < |st.sessions| && a != b && Addressee(st, a) == Some(b) && st.dispatcher.round == Polling
    ensures var st1 := PolledState(st, a, Polled(st.sessions[a], e), st.dispatcher);
            && st1.sessions[b] == st.sessions[b] && |st1.sessions| == |st.sessions| && st1.dispatcher == st.dispatcher
            && PollEvent(st, a, e, error) ==
               PolledState(st1, b, Delivery(st.sessions[b], e), Dispatcher(Polling, b, DeliveryAt(st.sessions[b], e, error)))
  {
    hide Addressee, Delivery, DeliveryAt;
  }
}

/** Every step of the dispatcher keeps the invariant: all cases together, and
    the main loop between sessions. */
module BridgeRounds {
  import opened BridgeState
  import opened BridgeSteps
  import opened BridgeInvariant
  import opened BridgeDispatching
  import opened BridgePumping
  import opened BridgeFinishing
  import opened BridgeLooping
  import opened BridgePolling

  // ----- with a session in hand -----

  lemma InHandOf(st: State)
    requires Inv(st) && st.dispatcher.session < |st.sessions| && st.dispatcher.at != Nothing
    ensures var s := st.dispatcher.session; InHand(st, s, st.sessions[s], st.dispatcher.at, ControlOf(st, s))
  {
    hide Inv, ControlOf;
  }

  lemma HandPlaces(st: State, r: Reply)
    requires CanHandle(st, r)
    ensures st.dispatcher.session < |st.sessions| && st.dispatcher.at != Nothing
    ensures st.dispatcher.at.Draining? || st.dispatcher.at.Releasing? ==> Waking(st.dispatcher.at)
  {
  }

  lemma HandleKeeps(st: State, r: Reply)
    requires Inv(st) && CanHandle(st, r)
    ensures Inv(Handle(st, r))
  {
    hide *;
    HandPlaces(st, r);
    var s, at := st.dispatcher.session, st.dispatcher.at;
    var x := st.sessions[s];
    var c := ControlOf(st, s);
    InHandOf(st);
    if at.EventStop? {
      EventStopStep(st, s, x, r, at.at, at.status, c);
    } else if at.Top? {
      TopStep(st, s, x, r, at.way, at.ops, c);
    } else if at.Sending? {
      SendStep(st, s, x, r, at.way, at.ops, c);
    } else if at.NoBuffer? {
      NoBufferStep(st, s, x, r, at.way, at.ops, c);
    } else if at.Receiving? {
      ReceiveStep(st, s, x, r, at.way, at.ops, c);
    } else if at.Failing? {
      FailStep(st, s, x, r, at.at, at.status, c);
    } else if at == Finishing {
      FinishStep(st, s, x, r, c);
    } else if Waking(at) && st.waiters != [] {
      WakeStep(st);
      EndHandled(st, r);
    } else if at.Sent? || at.Received? || at.Draining? || at.HalfClosing? {
      TurnStep(st, s, x, r, at.way, at, c);
    } else if at == Signalling || at.Releasing? {
      PartStep(st, s, x, r, at, c);
    } else if at == Taken {
      TakenStep(st, s, x, r, c);
    } else if at.Leaving? || at == CheckDone {
      PassStep(st, s, x, r, at, c);
    } else {
      EventStep(st, s, x, r, at, c);
    }
  }

  // ----- between sessions -----

  lemma LoopHandled(st: State, r: Reply)
    requires CanLoop(st, r)
    ensures var round := st.dispatcher.round;
            && st.dispatcher.at == Nothing && !round.Off? && !round.Exited?
            && (round.Freeing? && round.rest != [] && round.rest[0] < |st.sessions| ==>
                  var x := st.sessions[round.rest[0]];
                  Loop(st, r) == st.(sessions := st.sessions[round.rest[0] := x.(core := x.core.(freed := true))],
                                     dispatcher := st.dispatcher.(round := Freeing(round.rest[1..], round.last))))
            && (round == Polling && r.Poll? ==> r.source < |st.sessions| && r.event in st.sessions[r.source].events)
            && (round == Polling && r.Poll? ==> Loop(st, r) == PollEvent(st, r.source, r.event, r.socketError))
            && (round.Serving? && round.dispatched < DISPATCH_BUDGET && st.ready != [] && st.ready[0] < |st.sessions| ==>
                  Loop(st, r) == TakenState(st, round.dispatched))
  {
    hide PollEvent;
  }

  lemma LoopKeeps(st: State, r: Reply)
    requires Inv(st) && CanLoop(st, r)
    ensures Inv(Loop(st, r))
  {
    hide *;
    LoopHandled(st, r);
    var round := st.dispatcher.round;
    if round.Freeing? && round.rest != [] {
      FreeingStep(st, round.rest, round.last);
    } else if round == Polling && r.Poll? {
      PollStep(st, r.source, r.event, r.socketError);
    } else if round.Serving? && round.dispatched < DISPATCH_BUDGET && st.ready != [] {
      TakeStep(st, round.dispatched);
    } else {
      BetweenStep(st, r);
    }
  }
}

/** The service runtime: accepting connections, handing them to bridges,
    joining, draining and shutting down, whatever the hosted kernel answers. */
module ServiceRuntime {
  import opened Lists
  import opened HostedProcess

  /** Control operations the runtime sends. */
  datatype Op =
    | AttachL3
    | Socket
    | SetCc(handle: int)
    | Bind(handle: int)
    | Listen(handle: int)
    | Accept
    | GetCc(handle: int)
    | BridgeStart(handle: int)
    | CloseHandle(handle: int)
    | JoinResult(handle: int)
    | Cancel(handle: int)
    | Shutdown

  /** A transaction answers, returns a status that is not allowed, or raises
      something else.  sound: the payload is what the operation promises. */
  datatype Reply = Answer(handle: int, sound: bool) | Status(code: int) | Broken(error: int)

  datatype Exchange = Exchange(op: Op, reply: Reply)

  const EAGAIN: int := -11
  const ETIMEDOUT: int := -110

  /** The hosted kernel at the other end of the control pipes. */
  class Kernel {
    var log: seq<Exchange>
    const answers: nat -> Reply

    constructor (answers: nat -> Reply)
      ensures log == [] && this.answers == answers
    {
      log, this.answers := [], answers;
    }

    method Transact(op: Op) returns (reply: Reply)
      modifies this`log
      ensures log == old(log) + [Exchange(op, reply)] && reply == answers(|old(log)|)
    {
      reply := answers(|log|);
      log := log + [Exchange(op, reply)];
    }
  }

  // ----- accounting, read off the log -----

  /** A connection was accepted under this handle. */
  predicate Accepts(e: Exchange) {
    e.op == Accept && e.reply.Answer? && e.reply.handle > 0
  }

  /** The handle was handed to a bridge, or a close was sent for it. */
  predicate Settles(e: Exchange, handle: int) {
    || e.op == CloseHandle(handle)
    || (e.op == BridgeStart(handle) && e.reply.Answer? && e.reply.handle > 0)
  }

  /** Every accepted handle has been settled since. */
  ghost predicate Accounted(log: seq<Exchange>) {
    forall i :: 0 <= i < |log| && Accepts(log[i]) ==> SettledAfter(log, i)
  }

  ghost predicate SettledAfter(log: seq<Exchange>, i: nat)
    requires i < |log| && Accepts(log[i])
  {
    exists j :: i < j < |log| && Settles(log[j], log[i].reply.handle)
  }

  /** ... except possibly the last accepted one. */
  ghost predicate AccountedBut(log: seq<Exchange>, last: nat) {
    forall i :: 0 <= i < |log| && Accepts(log[i]) && i != last ==> SettledAfter(log, i)
  }

  lemma AccountedGrows(log: seq<Exchange>, e: Exchange)
    requires Accounted(log)
    ensures Accepts(e) ==> AccountedBut(log + [e], |log|)
    ensures !Accepts(e) ==> Accounted(log + [e])
  {
    var grown := log + [e];
    forall i | 0 <= i < |log| && Accepts(log[i]) ensures SettledAfter(grown, i) {
      assert SettledAfter(log, i);
      var j :| i < j < |log| && Settles(log[j], log[i].reply.handle);
      assert grown[i] == log[i] && grown[j] == log[j];
    }
    assert forall i :: 0 <= i < |log| ==> grown[i] == log[i];
  }

  lemma AccountedButGrows(log: seq<Exchange>, last: nat, e: Exchange)
    requires last < |log| && Accepts(log[last]) && AccountedBut(log, last) && !Accepts(e)
    ensures (log + [e])[last] == log[last]
    ensures if Settles(e, log[last].reply.handle) then Accounted(log + [e]) else AccountedBut(log + [e], last)
  {
    var grown := log + [e];
    assert forall i :: 0 <= i < |log| ==> grown[i] == log[i];
    forall i | 0 <= i < |log| && Accepts(log[i]) && i != last ensures SettledAfter(grown, i) {
      assert SettledAfter(log, i);
      var j :| i < j < |log| && Settles(log[j], log[i].reply.handle);
      assert grown[j] == log[j];
    }
    if Settles(e, log[last].reply.handle) {
      assert grown[|log|] == e;
      assert SettledAfter(grown, last);
    }
  }

  /** The bridges started and not yet seen to end, read off the log. */
  function Live(log: seq<Exchange>): set<nat> {
    if log == [] then {} else Moved(Live(log[..|log| - 1]), log[|log| - 1])
  }

  function Moved(live: set<nat>, e: Exchange): set<nat> {
    match e.op
    case BridgeStart(_) => if e.reply.Answer? && e.reply.handle > 0 then live + {e.reply.handle} else live
    case JoinResult(handle) => if handle >= 0 && Terminal(e.reply) then live - {handle} else live
    case _ => live
  }

  lemma LiveGrows(log: seq<Exchange>, e: Exchange)
    ensures Live(log + [e]) == Moved(Live(log), e)
  {
    assert (log + [e])[..|log|] == log;
  }

  datatype Failure =
    | Protocol                     // a malformed answer
    | Operation(code: int)         // a status that was not allowed
    | Raised(error: int)           // anything else
    | StillRunning(handle: int)
    | BadTunFd
    | NotListening
    | Exited(status: int)          // the hosted kernel ended with this status
    | WontStop                     // ... or did not end in time

  /** The answer ends a bridge: its result, or any status but a timeout. */
  predicate Terminal(reply: Reply) {
    (reply.Status? && reply.code != ETIMEDOUT) || (reply.Answer? && reply.sound)
  }

  datatype Joined = Gone | NotYet | JoinFailed(failure: Failure)

  // ----- what a stretch of the log was answered with -----

  datatype Kind = Answered | Ended | EndedOrLate

  predicate Fits(kind: Kind, reply: Reply) {
    match kind
    case Answered => reply.Answer?
    case Ended => Terminal(reply)
    case EndedOrLate => Terminal(reply) || reply == Status(ETIMEDOUT)
  }

  /** Every exchange from one position of the log up to another fits. */
  predicate AllFit(log: seq<Exchange>, from: nat, to: nat, kind: Kind) {
    forall i :: from <= i < to && i < |log| ==> Fits(kind, log[i].reply)
  }

  /** What an exchange that does not fit is reported as. */
  function Complaint(kind: Kind, e: Exchange): Failure {
    if kind == Ended && e.op.JoinResult? && e.reply == Status(ETIMEDOUT) then StillRunning(e.op.handle) else Refused(e.reply)
  }

  /** The complaints about a stretch of the log, in order. */
  function Complaints(log: seq<Exchange>, from: nat, to: nat, kind: Kind): seq<Failure>
    requires to <= |log|
  {
    if to <= from then []
    else Complaints(log, from, to - 1, kind) + if Fits(kind, log[to - 1].reply) then [] else [Complaint(kind, log[to - 1])]
  }

  lemma {:induction false} ComplaintsStay(log: seq<Exchange>, from: nat, to: nat, kind: Kind, grown: seq<Exchange>)
    requires log <= grown && to <= |log|
    ensures Complaints(grown, from, to, kind) == Complaints(log, from, to, kind)
  {
    if to > from {
      ComplaintsStay(log, from, to - 1, kind, grown);
    }
  }

  lemma ComplaintsGrow(log: seq<Exchange>, from: nat, e: Exchange, kind: Kind)
    requires from <= |log|
    ensures Complaints(log + [e], from, |log + [e]|, kind) ==
            Complaints(log, from, |log|, kind) + if Fits(kind, e.reply) then [] else [Complaint(kind, e)]
  {
    ComplaintsStay(log, from, |log|, kind, log + [e]);
  }

  lemma {:induction false} ComplaintsJoin(log: seq<Exchange>, from: nat, mid: nat, to: nat, kind: Kind)
    requires from <= mid <= to <= |log|
    ensures Complaints(log, from, to, kind) == Complaints(log, from, mid, kind) + Complaints(log, mid, to, kind)
  {
    if to > mid {
      ComplaintsJoin(log, from, mid, to - 1, kind);
    }
  }

  /** Nothing is complained about exactly when everything fits. */
  lemma {:induction false} ComplaintsNone(log: seq<Exchange>, from: nat, to: nat, kind: Kind)
    requires to <= |log|
    ensures Complaints(log, from, to, kind) == [] <==> AllFit(log, from, to, kind)
  {
    if to > from {
      ComplaintsNone(log, from, to - 1, kind);
      assert AllFit(log, from, to, kind) ==> Fits(kind, log[to - 1].reply);
    }
  }

  function Listed(failure: Option<Failure>): seq<Failure> {
    if failure.Some? then [failure.value] else []
  }

  /** The bridges a shutdown joined while draining, cancelled, and joined at
      the end. */
  datatype Teardown = Teardown(drained: seq<nat>, cancelled: seq<nat>, joined: seq<nat>)

  function TeardownOps(listener: Option<int>, t: Teardown): seq<Op> {
    ListenerOps(listener) + Joins(t.drained) + Cancels(t.cancelled) + Joins(t.joined) + [Shutdown]
  }

  function TeardownEnd(from: nat, listener: Option<int>, t: Teardown): nat {
    from + |ListenerOps(listener)| + |t.drained| + |t.cancelled| + |t.joined| + 1
  }

  /** What the answers of the five phases of a shutdown are reported as: closing
      the listener, draining, cancelling, joining, and stopping the kernel. */
  function PhaseFailures(log: seq<Exchange>, from: nat, a: nat, b: nat, c: nat, d: nat): seq<Failure>
    requires from <= a <= b <= c <= d < |log|
  {
    InOrder(Complaints(log, from, a, Answered), Complaints(log, a, b, EndedOrLate), Complaints(log, b, c, Answered),
            Complaints(log, c, d, Ended), Complaints(log, d, d + 1, Answered))
  }

  function InOrder(a: seq<Failure>, b: seq<Failure>, c: seq<Failure>, d: seq<Failure>, e: seq<Failure>): seq<Failure> {
    a + b + c + d + e
  }

  /** Every phase went well. */
  predicate PhasesFit(log: seq<Exchange>, from: nat, a: nat, b: nat, c: nat, d: nat) {
    && AllFit(log, from, a, Answered) && AllFit(log, a, b, EndedOrLate) && AllFit(log, b, c, Answered)
    && AllFit(log, c, d, Ended) && AllFit(log, d, d + 1, Answered)
  }

  lemma PhasesFitIff(log: seq<Exchange>, from: nat, a: nat, b: nat, c: nat, d: nat)
    requires from <= a <= b <= c <= d < |log|
    ensures PhaseFailures(log, from, a, b, c, d) == [] <==> PhasesFit(log, from, a, b, c, d)
  {
    hide AllFit, Complaints, InOrder;
    ComplaintsNone(log, from, a, Answered);
    ComplaintsNone(log, a, b, EndedOrLate);
    ComplaintsNone(log, b, c, Answered);
    ComplaintsNone(log, c, d, Ended);
    ComplaintsNone(log, d, d + 1, Answered);
    SumEmpty(Complaints(log, from, a, Answered), Complaints(log, a, b, EndedOrLate), Complaints(log, b, c, Answered),
             Complaints(log, c, d, Ended), Complaints(log, d, d + 1, Answered));
  }

  /** The same for a shutdown that began at position from. */
  function TeardownFailures(log: seq<Exchange>, from: nat, listener: Option<int>, t: Teardown): seq<Failure>
    requires |log| == TeardownEnd(from, listener, t)
  {
    var a := from + |ListenerOps(listener)|;
    var b := a + |t.drained|;
    var c := b + |t.cancelled|;
    PhaseFailures(log, from, a, b, c, c + |t.joined|)
  }

  predicate Smooth(log: seq<Exchange>, from: nat, listener: Option<int>, t: Teardown) {
    var a := from + |ListenerOps(listener)|;
    var b := a + |t.drained|;
    var c := b + |t.cancelled|;
    PhasesFit(log, from, a, b, c, c + |t.joined|)
  }

  lemma SmoothIff(log: seq<Exchange>, from: nat, listener: Option<int>, t: Teardown)
    requires |log| == TeardownEnd(from, listener, t)
    ensures TeardownFailures(log, from, listener, t) == [] <==> Smooth(log, from, listener, t)
    ensures Smooth(log, from, listener, t) ==> log[|log| - 1].reply.Answer?
  {
    hide PhaseFailures, PhasesFit, ListenerOps;
    var a := from + |ListenerOps(listener)|;
    var b := a + |t.drained|;
    var c := b + |t.cancelled|;
    var d := c + |t.joined|;
    PhasesFitIff(log, from, a, b, c, d);
    if PhasesFit(log, from, a, b, c, d) {
      LastAnswered(log, from, a, b, c, d);
    }
  }

  lemma LastAnswered(log: seq<Exchange>, from: nat, a: nat, b: nat, c: nat, d: nat)
    requires d + 1 == |log| && PhasesFit(log, from, a, b, c, d)
    ensures log[d].reply.Answer?
  {
    assert Fits(Answered, log[d].reply);
  }

  lemma SumEmpty(a: seq<Failure>, b: seq<Failure>, c: seq<Failure>, d: seq<Failure>, e: seq<Failure>)
    ensures InOrder(a, b, c, d, e) == [] <==> a == [] && b == [] && c == [] && d == [] && e == []
  {
    assert |a + b + c + d + e| == |a| + |b| + |c| + |d| + |e|;
  }

  /** What the exit status is reported as, once SHUTDOWN was answered. */
  function ExitFailures(reply: Reply, seen: Option<int>): seq<Failure> {
    if !reply.Answer? || seen == Some(0) then []
    else if seen.None? then [WontStop]
    else [Exited(seen.value)]
  }

  datatype Outcome = Clean | Reported(failures: seq<Failure>) | Escaped(failure: Failure)

  class Runtime {
    const maxConnections: nat      // 0 means no limit
    var started: bool
    var attached: bool
    var listener: Option<int>
    var active: set<nat>
    var closed: bool

    constructor (maxConnections: nat)
      ensures this.maxConnections == maxConnections && active == {}
      ensures !started && !attached && listener == None && !closed
    {
      this.maxConnections := maxConnections;
      started, attached, listener, active, closed := false, false, None, {}, false;
    }

    /** The configured limit bounds the active bridges. */
    ghost predicate Within()
      reads this`active
    {
      maxConnections > 0 ==> |active| <= maxConnections
    }

    /** What every run keeps: the limit, every accepted connection settled, and
        the active set exact. */
    ghost predicate Sound(k: Kernel)
      reads this`active, k`log
    {
      Within() && Accounted(k.log) && active == Live(k.log)
    }

    /** start; spawn is what the process factory raises, if anything. */
    method Start(k: Kernel, tunFd: int, spawn: Option<int>) returns (failure: Option<Failure>)
      requires !started && !attached && listener == None && active == {} && k.log == []
      modifies this, k`log
      ensures Sound(k) && active == {} && closed == old(closed)
      ensures forall i :: 0 <= i < |k.log| ==> k.log[i].reply == k.answers(i)
      ensures started <==> tunFd >= 3 && spawn.None?
      ensures attached <==> k.log != [] && k.log[0].reply.Answer? && k.log[0].reply.handle > 0
      ensures listener.Some? <==> |k.log| > 1 && k.log[1].reply.Answer? && k.log[1].reply.handle > 0
      ensures listener.Some? ==> listener.value == k.log[1].reply.handle
      ensures listener.Some? ==> OpsOf(k.log) <= StartOps(listener.value)
      ensures listener.None? ==> OpsOf(k.log) <= [AttachL3, Socket]
      ensures failure.None? <==> |k.log| == 6 && AllFit(k.log, 0, 6, Answered) && listener.Some? && k.log[3].reply.sound
      ensures failure.None? ==> started && attached
    {
      hide Accounted, SettledAfter, Live;
      Quiet(k.log);
      if tunFd < 3 {
        return Some(BadTunFd);
      }
      if spawn.Some? {
        return Some(Raised(spawn.value));
      }
      started := true;
      var reply := k.Transact(AttachL3);
      Quiet(k.log);
      if !reply.Answer? || reply.handle <= 0 {
        return Some(Refused(reply));
      }
      attached := true;
      reply := k.Transact(Socket);
      Quiet(k.log);
      if !reply.Answer? || reply.handle <= 0 {
        return Some(Refused(reply));
      }
      listener := Some(reply.handle);
      failure := Prepare(k, reply.handle);
      StartQuiet(k.log, reply.handle);
    }

    /** Configures, verifies, binds and listens on the new listener. */
    method Prepare(k: Kernel, handle: int) returns (failure: Option<Failure>)
      requires |k.log| == 2 && k.log[0].op == AttachL3 && k.log[1].op == Socket
      modifies k`log
      ensures 2 < |k.log| <= 6 && old(k.log) <= k.log && OpsOf(k.log) <= StartOps(handle)
      ensures forall i :: 2 <= i < |k.log| ==> k.log[i].reply == k.answers(i)
      ensures failure.None? <==> |k.log| == 6 && AllFit(k.log, 2, 6, Answered) && k.log[3].reply.sound
    {
      var reply := k.Transact(SetCc(handle));
      if !reply.Answer? {
        return Some(Refused(reply));
      }
      reply := k.Transact(GetCc(handle));
      if !reply.Answer? || !reply.sound {
        return Some(Refused(reply));
      }
      reply := k.Transact(Bind(handle));
      if !reply.Answer? {
        return Some(Refused(reply));
      }
      reply := k.Transact(Listen(handle));
      if !reply.Answer? {
        assert !Fits(Answered, k.log[5].reply);
        return Some(Refused(reply));
      }
      return None;
    }

    /** One accepted connection: check it, hand it to a bridge, or close it. */
    method Settle(k: Kernel, accepted: int) returns (failure: Option<Failure>)
      requires accepted > 0 && Within() && (maxConnections > 0 ==> |active| < maxConnections)
      requires k.log != [] && k.log[|k.log| - 1].op == Accept && k.log[|k.log| - 1].reply.Answer?
      requires k.log[|k.log| - 1].reply.handle == accepted && AccountedBut(k.log, |k.log| - 1)
      requires active == Live(k.log)
      modifies this`active, k`log
      ensures Sound(k) && old(k.log) <= k.log
      ensures OpsOf(k.log) == OpsOf(old(k.log)) + SettleOps(accepted, k.answers(|old(k.log)|), k.answers(|old(k.log)| + 1))
      ensures failure == SettleFailure(k.answers(|old(k.log)|), k.answers(|old(k.log)| + 1))
      ensures failure.Some? ==> Blamed(failure, k.log, |old(k.log)|)
      ensures active == if Handed(k.answers(|old(k.log)|), k.answers(|old(k.log)| + 1))
                        then old(active) + {k.answers(|old(k.log)| + 1).handle} else old(active)
    {
      hide Accounted, AccountedBut, SettledAfter, Live, Terminal;
      ghost var at, log := |k.log| - 1, k.log;
      var reply := k.Transact(GetCc(accepted));
      Note(log, at, Exchange(GetCc(accepted), reply));
      failure := None;
      var transferred := false;
      if !reply.Answer? || !reply.sound {
        failure := Some(Refused(reply));
      } else {
        log := k.log;
        reply := k.Transact(BridgeStart(accepted));
        Note(log, at, Exchange(BridgeStart(accepted), reply));
        if reply.Broken? || (reply.Answer? && reply.handle <= 0) {
          failure := Some(Refused(reply));
        } else if reply.Answer? {
          active := active + {reply.handle};
          transferred := true;
        }
      }
      if !transferred {
        log := k.log;
        var ignored := k.Transact(CloseHandle(accepted));
        Note(log, at, Exchange(CloseHandle(accepted), ignored));
      }
      assert k.log[at + 1].op == GetCc(accepted) && k.log[at + 1].reply == k.answers(at + 1);
      if k.answers(at + 1).Answer? && k.answers(at + 1).sound {
        assert k.log[at + 2].op == BridgeStart(accepted) && k.log[at + 2].reply == k.answers(at + 2);
      }
    }

    /** _accept_available; turns is how many connections can be waiting.  It stops
        at the limit, when nothing is waiting, at a failure, or after turns
        accepts. */
    method AcceptAvailable(k: Kernel, turns: nat) returns (failure: Option<Failure>, ghost accepts: nat)
      requires Sound(k)
      modifies this`active, k`log
      ensures Sound(k) && old(active) <= active && old(k.log) <= k.log
      ensures AcceptCount(OpsOf(k.log)) == AcceptCount(OpsOf(old(k.log))) + accepts && accepts <= turns
      ensures listener.None? ==> failure == Some(NotListening) && accepts == 0
      ensures listener.Some? && failure.Some? ==> Blamed(failure, k.log, |old(k.log)|)
      ensures failure.None? ==> AtLimit() || NoneWaiting(k.log) || accepts == turns
    {
      hide Accounted, AccountedBut, SettledAfter, Live, Terminal, OpsOf, AcceptCount, Blamed, SettleOps;
      accepts := 0;
      if listener.None? {
        return Some(NotListening), accepts;
      }
      var turn := 0;
      while turn < turns && (maxConnections == 0 || |active| < maxConnections)
        invariant Sound(k) && old(active) <= active && old(k.log) <= k.log && accepts == turn <= turns
        invariant AcceptCount(OpsOf(k.log)) == AcceptCount(OpsOf(old(k.log))) + accepts
      {
        turn, accepts := turn + 1, accepts + 1;
        ghost var log := k.log;
        var reply := k.Transact(Accept);
        ghost var e := Exchange(Accept, reply);
        AccountedGrows(log, e);
        LiveGrows(log, e);
        OpsGrow(log, e);
        CountAccept(OpsOf(log));
        if reply.Status? && reply.code == EAGAIN {
          return None, accepts;
        }
        if !reply.Answer? || reply.handle <= 0 {
          BlameLast(log, e, |old(k.log)|);
          return Some(Refused(reply)), accepts;
        }
        log := k.log;
        failure := Settle(k, reply.handle);
        CountSettle(OpsOf(log), reply.handle, k.answers(|log|), k.answers(|log| + 1));
        if failure.Some? {
          BlameSooner(failure, k.log, |log|, |old(k.log)|);
          return failure, accepts;
        }
      }
      return None, accepts;
    }

    ghost predicate AtLimit()
      reads this`active
    {
      maxConnections > 0 && |active| == maxConnections
    }

    /** _join_bridge_result. */
    method Join(k: Kernel, handle: nat) returns (r: Joined)
      modifies this`active, k`log
      ensures k.log == old(k.log) + [Exchange(JoinResult(handle), k.answers(|old(k.log)|))]
      ensures r.Gone? <==> Terminal(k.answers(|old(k.log)|))
      ensures r.NotYet? <==> k.answers(|old(k.log)|) == Status(ETIMEDOUT)
      ensures r.JoinFailed? ==> r.failure == Refused(k.answers(|old(k.log)|))
      ensures active == if r.Gone? then old(active) - {handle} else old(active)
      ensures old(Sound(k)) ==> Sound(k)
    {
      hide Accounted, AccountedBut, SettledAfter, Live;
      ghost var log := k.log;
      var reply := k.Transact(JoinResult(handle));
      LiveGrows(log, Exchange(JoinResult(handle), reply));
      if Accounted(log) {
        AccountedGrows(log, Exchange(JoinResult(handle), reply));
      }
      r := JoinFailed(Refused(reply));
      if reply == Status(ETIMEDOUT) {
        r := NotYet;
      } else if reply.Status? || (reply.Answer? && reply.sound) {
        Fewer(active, handle);
        active := active - {handle};
        r := Gone;
      }
    }

    /** One pass over the bridges active at its start: all of _reap_bridges, and
        the inner loop of _drain_bridges.  limit is how many joins fit before
        the deadline; a pass without a deadline has none. */
    method Pass(k: Kernel, limit: Option<nat>) returns (joins: seq<nat>, failure: Option<Failure>)
      requires Sound(k) && (limit.Some? ==> limit.value > 0)
      modifies this`active, k`log
      ensures Sound(k) && old(k.log) <= k.log && |k.log| == |old(k.log)| + |joins|
      ensures OpsOf(k.log) == OpsOf(old(k.log)) + Joins(joins)
      ensures active <= old(active) && NoDup(joins) && forall h :: h in joins ==> h in old(active)
      ensures forall h :: h in old(active) ==> h in active || h in joins
      ensures limit.Some? ==> |joins| <= limit.value
      ensures old(active) != {} ==> joins != []
      ensures Listed(failure) == Complaints(k.log, |old(k.log)|, |k.log|, EndedOrLate)
      ensures failure.None? ==> (limit.Some? && |joins| == limit.value) || (forall h :: h in old(active) ==> h in joins)
    {
      hide OpsOf, Joins, Cancels, Accounted, Live, Terminal, Complaints, NoDup;
      joins, failure := [], None;
      NoOps(k.log);
      NoneFit(k.log, EndedOrLate);
      Distinct();
      var pass := active;
      while pass != {} && !(limit.Some? && |joins| >= limit.value) && failure.None?
        invariant Sound(k) && old(k.log) <= k.log && |k.log| == |old(k.log)| + |joins|
        invariant OpsOf(k.log) == OpsOf(old(k.log)) + Joins(joins) && active <= old(active)
        invariant limit.Some? ==> |joins| <= limit.value
        invariant NoDup(joins) && pass <= old(active) && forall h :: h in joins <==> h in old(active) && h !in pass
        invariant forall h :: h in old(active) ==> h in active || h in joins
        invariant |joins| == 0 ==> pass == old(active) && failure.None?
        invariant Listed(failure) == Complaints(k.log, |old(k.log)|, |k.log|, EndedOrLate)
        decreases |pass|
      {
        var handle := Pick(pass);
        pass := pass - {handle};
        ghost var e := Exchange(JoinResult(handle), k.answers(|k.log|));
        Grow(k.log, |old(k.log)|, e, EndedOrLate, joins, handle);
        AppendNoDup(joins, handle);
        FitsPatient(e.reply);
        var r := Join(k, handle);
        joins := joins + [handle];
        if r.JoinFailed? {
          failure := Some(r.failure);
        }
      }
    }

    /** _reap_bridges: every active bridge is asked once. */
    method Reap(k: Kernel) returns (failure: Option<Failure>, ghost joins: seq<nat>)
      requires Sound(k)
      modifies this`active, k`log
      ensures Sound(k) && active <= old(active) && old(k.log) <= k.log
      ensures OpsOf(k.log) == OpsOf(old(k.log)) + Joins(joins) && NoDup(joins) && forall h :: h in joins ==> h in old(active)
      ensures Listed(failure) == Complaints(k.log, |old(k.log)|, |k.log|, EndedOrLate)
      ensures failure.None? ==> forall h :: h in old(active) ==> h in joins
    {
      var asked;
      asked, failure := Pass(k, None);
      joins := asked;
    }

    /** serve: poll the process, reap, accept, until a stop is requested after
        rounds rounds.  waiting(i) connections can be waiting in round i. */
    method Serve(k: Kernel, p: Process, rounds: nat, waiting: nat -> nat)
      returns (failure: Option<Failure>, ghost done: seq<Round>)
      requires Sound(k)
      modifies this`active, k`log, p`status, p`log
      ensures Sound(k) && old(k.log) <= k.log
      ensures old(p.log) <= p.log && forall i :: |old(p.log)| <= i < |p.log| ==> p.log[i] == Poll
      ensures Rounds(done, old(k.log), maxConnections, waiting) && ReachedBy(done, old(k.log)) <= k.log
      ensures failure.None? <==> |done| == rounds
      ensures failure.None? ==>
                && |p.log| == |old(p.log)| + rounds && (rounds > 0 ==> p.status.None?)
                && k.log == ReachedBy(done, old(k.log))
      ensures failure.Some? ==>
                && |done| < rounds && |p.log| == |old(p.log)| + |done| + 1
                && Explained(failure.value, p.status, listener, k.log, |ReachedBy(done, old(k.log))|)
    {
      hide Sound, Rounds, ReachedBy, Explained;
      failure, done := None, [];
      NoRoundsYet(k.log, maxConnections, waiting);
      for round := 0 to rounds
        invariant Sound(k) && old(p.log) <= p.log && |p.log| == |old(p.log)| + round && failure.None?
        invariant forall i :: |old(p.log)| <= i < |p.log| ==> p.log[i] == Poll
        invariant round > 0 ==> p.status.None?
        invariant |done| == round && Rounds(done, old(k.log), maxConnections, waiting)
        invariant k.log == ReachedBy(done, old(k.log)) && old(k.log) <= k.log
      {
        var seen := p.Observe(Poll);
        if seen.Some? {
          ExitExplains(seen.value, listener, k.log);
          return Some(Exited(seen.value)), done;
        }
        ghost var r;
        failure, r := ServeRound(k, waiting(round));
        if failure.Some? {
          StillExplained(failure.value, p.status, listener, k.log, |ReachedBy(done, old(k.log))|);
          return;
        }
        OneMoreRound(done, r, old(k.log), maxConnections, waiting);
        done := done + [r];
      }
    }

    /** The rest of a round, after the poll. */
    method ServeRound(k: Kernel, turns: nat) returns (failure: Option<Failure>, ghost r: Round)
      requires Sound(k)
      modifies this`active, k`log
      ensures Sound(k) && old(k.log) <= k.log
      ensures failure.None? ==> RoundDone(r, maxConnections, turns) && r.before == old(k.log) && r.after == k.log
      ensures failure.Some? ==> Explained(failure.value, None, listener, k.log, |old(k.log)|)
    {
      hide Sound, Live, Accounted, OpsOf, Joins, AcceptCount, NoDup, Complaints, Blamed;
      SoundIs(k);
      ghost var joins, accepts;
      failure, joins := Reap(k);
      ghost var reaped := k.log;
      r := Round(old(k.log), joins, reaped, 0, reaped);
      if failure.Some? {
        ComplaintRefuses(failure.value, k.log, |old(k.log)|, |k.log|);
        return;
      }
      failure, accepts := AcceptAvailable(k, turns);
      if failure.Some? {
        BlameRefuses(failure.value, k.log, |reaped|, |old(k.log)|);
        return;
      }
      SoundIs(k);
      r := Round(old(k.log), joins, reaped, accepts, k.log);
    }

    lemma SoundIs(k: Kernel)
      requires Sound(k)
      ensures active == Live(k.log)
    {
    }

    /** _drain_bridges; patience is how many joins fit before the deadline. */
    method Drain(k: Kernel, patience: nat) returns (joins: seq<nat>, failure: Option<Failure>)
      requires Sound(k)
      modifies this`active, k`log
      ensures Sound(k) && old(k.log) <= k.log && |k.log| == |old(k.log)| + |joins|
      ensures OpsOf(k.log) == OpsOf(old(k.log)) + Joins(joins)
      ensures active <= old(active) && |joins| <= patience && forall h :: h in joins ==> h in old(active)
      ensures forall h :: h in old(active) ==> h in active || h in joins
      ensures Listed(failure) == Complaints(k.log, |old(k.log)|, |k.log|, EndedOrLate)
      ensures failure.None? ==> active == {} || |joins| == patience
    {
      hide OpsOf, Joins, Cancels, Sound, Complaints, NoDup;
      joins, failure := [], None;
      NoOps(k.log);
      NoneFit(k.log, EndedOrLate);
      while active != {} && |joins| < patience && failure.None?
        invariant Sound(k) && old(k.log) <= k.log && |k.log| == |old(k.log)| + |joins|
        invariant OpsOf(k.log) == OpsOf(old(k.log)) + Joins(joins) && active <= old(active) && |joins| <= patience
        invariant forall h :: h in joins ==> h in old(active)
        invariant forall h :: h in old(active) ==> h in active || h in joins
        invariant Listed(failure) == Complaints(k.log, |old(k.log)|, |k.log|, EndedOrLate)
        decreases patience - |joins|
      {
        ghost var log := k.log;
        var pass;
        pass, failure := Pass(k, Some(patience - |joins|));
        JoinsConcat(joins, pass);
        ComplaintsStay(log, |old(k.log)|, |log|, EndedOrLate, k.log);
        ComplaintsJoin(k.log, |old(k.log)|, |log|, |k.log|, EndedOrLate);
        joins := joins + pass;
      }
    }

    /** The cancel loop of shutdown: every active bridge, once. */
    method CancelAll(k: Kernel) returns (order: seq<nat>, failures: seq<Failure>)
      modifies k`log
      ensures old(k.log) <= k.log && |k.log| == |old(k.log)| + |order|
      ensures OpsOf(k.log) == OpsOf(old(k.log)) + Cancels(order)
      ensures NoDup(order) && forall h :: h in order <==> h in active
      ensures failures == Complaints(k.log, |old(k.log)|, |k.log|, Answered)
    {
      hide OpsOf, Joins, Cancels, NoDup, Complaints;
      order, failures := [], [];
      NoOps(k.log);
      NoneFit(k.log, Answered);
      Distinct();
      var pending := active;
      while pending != {}
        invariant old(k.log) <= k.log && |k.log| == |old(k.log)| + |order|
        invariant OpsOf(k.log) == OpsOf(old(k.log)) + Cancels(order) && NoDup(order)
        invariant pending <= active && (forall h :: h in order <==> h in active && h !in pending)
        invariant failures == Complaints(k.log, |old(k.log)|, |k.log|, Answered)
        decreases |pending|
      {
        var handle := Pick(pending);
        pending := pending - {handle};
        ghost var e := Exchange(Cancel(handle), k.answers(|k.log|));
        Grow(k.log, |old(k.log)|, e, Answered, order, handle);
        AppendNoDup(order, handle);
        var reply := k.Transact(Cancel(handle));
        order := order + [handle];
        if !reply.Answer? {
          failures := failures + [Refused(reply)];
        }
      }
    }

    /** The join loop of shutdown: every bridge leaves the active set. */
    method JoinAll(k: Kernel) returns (order: seq<nat>, failures: seq<Failure>)
      modifies this`active, k`log
      ensures old(k.log) <= k.log && |k.log| == |old(k.log)| + |order|
      ensures OpsOf(k.log) == OpsOf(old(k.log)) + Joins(order)
      ensures NoDup(order) && (forall h :: h in order <==> h in old(active)) && active == {}
      ensures failures == Complaints(k.log, |old(k.log)|, |k.log|, Ended)
    {
      hide OpsOf, Joins, Cancels, NoDup, Complaints, Sound, Terminal;
      order, failures := [], [];
      NoOps(k.log);
      NoneFit(k.log, Ended);
      Distinct();
      var pending := active;
      while pending != {}
        invariant old(k.log) <= k.log && |k.log| == |old(k.log)| + |order|
        invariant OpsOf(k.log) == OpsOf(old(k.log)) + Joins(order) && NoDup(order)
        invariant active == pending <= old(active) && (forall h :: h in order <==> h in old(active) && h !in pending)
        invariant failures == Complaints(k.log, |old(k.log)|, |k.log|, Ended)
        decreases |pending|
      {
        var handle := Pick(pending);
        pending := pending - {handle};
        ghost var e := Exchange(JoinResult(handle), k.answers(|k.log|));
        Grow(k.log, |old(k.log)|, e, Ended, order, handle);
        AppendNoDup(order, handle);
        var r := Join(k, handle);
        order := order + [handle];
        if r.NotYet? {
          failures := failures + [StillRunning(handle)];
        } else if r.JoinFailed? {
          failures := failures + [r.failure];
        }
        active := active - {handle};
      }
    }

    /** Closing the listener at shutdown; it is forgotten whatever happens. */
    method CloseListener(k: Kernel) returns (failures: seq<Failure>)
      requires Sound(k)
      modifies this`listener, k`log
      ensures Sound(k) && listener.None? && old(k.log) <= k.log
      ensures OpsOf(k.log) == OpsOf(old(k.log)) + ListenerOps(old(listener))
      ensures |k.log| == |old(k.log)| + |ListenerOps(old(listener))|
      ensures failures == Complaints(k.log, |old(k.log)|, |k.log|, Answered)
    {
      hide Accounted, Live, OpsOf, Complaints, Terminal;
      failures := [];
      NoneFit(k.log, Answered);
      if listener.Some? {
        var handle := listener.value;
        listener := None;
        ghost var log := k.log;
        var reply := k.Transact(CloseHandle(handle));
        ghost var e := Exchange(CloseHandle(handle), reply);
        AccountedGrows(log, e);
        LiveGrows(log, e);
        ComplaintsGrow(log, |log|, e, Answered);
        OpsGrow(log, e);
        if !reply.Answer? {
          failures := [Refused(reply)];
        }
      }
    }

    /** The last step with a live kernel: SHUTDOWN, then the exit status. */
    method StopKernel(k: Kernel, p: Process) returns (failures: seq<Failure>)
      requires p.status.None?
      modifies k`log, p`status, p`log
      ensures old(k.log) <= k.log && |k.log| == |old(k.log)| + 1
      ensures OpsOf(k.log) == OpsOf(old(k.log)) + [Shutdown]
      ensures failures == Complaints(k.log, |old(k.log)|, |k.log|, Answered) + ExitFailures(k.log[|old(k.log)|].reply, p.exits(|old(p.log)|))
      ensures failures == [] ==> p.status == Some(0)
      ensures p.log == old(p.log) || p.log == old(p.log) + [Wait]
    {
      hide OpsOf;
      ghost var log := k.log;
      var reply := k.Transact(Shutdown);
      OpsGrow(log, Exchange(Shutdown, reply));
      ComplaintsGrow(log, |log|, Exchange(Shutdown, reply), Answered);
      NoneFit(log, Answered);
      hide Complaints;
      failures := [];
      if !reply.Answer? {
        return [Refused(reply)];
      }
      var seen := p.Observe(Wait);
      if seen.None? {
        failures := [WontStop];
      } else if seen.value != 0 {
        failures := [Exited(seen.value)];
      }
    }

    /** Shutdown with a live, attached kernel: close the listener, drain, cancel
        what is left, join it, and stop the kernel, whatever each step raises. */
    method Unwind(k: Kernel, p: Process, patience: nat) returns (failures: seq<Failure>, ghost t: Teardown)
      requires Sound(k) && p.status.None?
      modifies this`listener, this`active, k`log, p`status, p`log
      ensures listener.None? && active == {} && old(k.log) <= k.log
      ensures OpsOf(k.log) == OpsOf(old(k.log)) + TeardownOps(old(listener), t)
      ensures Covers(t, old(active))
      ensures |k.log| == TeardownEnd(|old(k.log)|, old(listener), t)
      ensures failures == TeardownFailures(k.log, |old(k.log)|, old(listener), t)
                          + ExitFailures(k.log[|k.log| - 1].reply, p.exits(|old(p.log)|))
      ensures failures == [] ==> p.status == Some(0)
      ensures p.log == old(p.log) || p.log == old(p.log) + [Wait]
    {
      hide Sound, OpsOf, Joins, Cancels, Complaints, NoDup, Listed, ExitFailures, TeardownFailures, PhaseFailures, TeardownEnd, ListenerOps;
      ghost var from := |k.log|;
      var closing := CloseListener(k);
      ghost var log1 := k.log;
      var drained, failure := Drain(k, patience);
      var draining := Listed(failure);
      ghost var log2 := k.log;
      var cancelled, cancelling := CancelAll(k);
      ghost var log3 := k.log;
      var joined, joining := JoinAll(k);
      ghost var log4 := k.log;
      var stopping := StopKernel(k, p);
      failures := closing + draining + cancelling + joining + stopping;
      t := Teardown(drained, cancelled, joined);
      TeardownOpsSum(old(k.log), old(listener), t, OpsOf(log1), OpsOf(log2), OpsOf(log3), OpsOf(log4), OpsOf(k.log));
      FailuresSum(from, old(listener), t, log1, log2, log3, log4, k.log);
      ComplaintsStay(log1, from, |log1|, Answered, k.log);
      ComplaintsStay(log2, |log1|, |log2|, EndedOrLate, k.log);
      ComplaintsStay(log3, |log2|, |log3|, Answered, k.log);
      ComplaintsStay(log4, |log3|, |log4|, Ended, k.log);
      PhaseSum(k.log, from, |log1|, |log2|, |log3|, |log4|, closing, draining, cancelling, joining, stopping,
               ExitFailures(k.log[|log4|].reply, p.exits(|old(p.log)|)));
    }

    method ClosePipes(p: Process) returns (failures: seq<Failure>)
      modifies p`log
      ensures p.log == old(p.log) + [CloseStdin, CloseStdout]
      ensures failures == PipeFailures(p.closing)
    {
      failures := [];
      var raised := p.ClosePipe(CloseStdin);
      if raised.Some? {
        failures := [Raised(raised.value)];
      }
      raised := p.ClosePipe(CloseStdout);
      if raised.Some? {
        failures := failures + [Raised(raised.value)];
      }
    }

    /** The finally block: stop a process still running, close both pipes. */
    method Finish(p: Process) returns (failures: seq<Failure>)
      modifies p`status, p`log
      ensures old(p.status).Some? ==> p.status == old(p.status)
      ensures old(p.log) <= p.log && ClosedOnce(p.log[|old(p.log)|..])
      ensures failures == FinishFailures(p.status, p.closing)
    {
      hide Closes, ClosedOnce, PipeFailures;
      failures := [];
      var seen := p.Observe(Poll);
      ghost var log := p.log;
      NothingClosed();
      assert log[|log|..] == [];
      if seen.None? {
        var stuck := p.ForceStop();
        if stuck {
          failures := [WontStop];
        }
      }
      ghost var before := p.log;
      OnceClosed([Poll], before[|log|..]);
      var more := ClosePipes(p);
      assert p.log[|old(p.log)|..] == [Poll] + before[|log|..] + [CloseStdin, CloseStdout];
      failures := failures + more;
    }

    /** The try block: how the process is brought down depends on what it is
        still able to do.  escaped: the exception leaves the block. */
    method Halt(k: Kernel, p: Process, patience: nat)
      returns (failures: seq<Failure>, escaped: bool, ghost t: Teardown)
      requires Sound(k)
      modifies this`listener, this`active, k`log, p`status, p`log
      ensures old(p.log) <= p.log && !Closes(p.log[|old(p.log)|..])
      ensures old(Alive(p)) && attached ==>
                && !escaped && listener.None? && active == {} && old(k.log) <= k.log
                && OpsOf(k.log) == OpsOf(old(k.log)) + TeardownOps(old(listener), t)
                && Covers(t, old(active))
                && |k.log| == TeardownEnd(|old(k.log)|, old(listener), t)
                && failures == TeardownFailures(k.log, |old(k.log)|, old(listener), t)
                               + ExitFailures(k.log[|k.log| - 1].reply, p.exits(|old(p.log)| + 1))
                && (failures == [] ==> p.status.Some?)
      ensures !(old(Alive(p)) && attached) ==> k.log == old(k.log) && active == old(active) && (escaped || p.status.Some?)
      ensures old(Alive(p)) && !attached ==> failures == [] && (escaped <==> !p.Stops(|old(p.log)| + 1))
      ensures !old(Alive(p)) ==> !escaped && p.status.Some? && failures == DeadFailures(p.status.value)
    {
      hide Sound, OpsOf, TeardownFailures, TeardownEnd, TeardownOps, Covers, ExitFailures;
      failures, escaped, t := [], false, Teardown([], [], []);
      var seen := p.Observe(Poll);
      assert p.log[|old(p.log)|..] == [Poll];
      ghost var log := p.log;
      if seen.None? && attached {
        failures, t := Unwind(k, p, patience);
      } else if seen.None? {
        escaped := p.ForceStop();
      } else {
        seen := p.Observe(Poll);
        failures := if seen.value != 0 then [Exited(seen.value)] else [];
      }
      assert p.log[|old(p.log)|..] == [Poll] + p.log[|log|..];
    }

    /** shutdown. */
    method ShutDown(k: Kernel, p: Process, patience: nat) returns (outcome: Outcome, ghost t: Teardown)
      requires Sound(k)
      modifies this`closed, this`listener, this`active, k`log, p`status, p`log
      ensures closed
      ensures old(closed) || !started ==> outcome.Clean? && Untouched(k, p)
      ensures !old(closed) && started ==> old(p.log) <= p.log && ClosedOnce(p.log[|old(p.log)|..])
      ensures outcome.Escaped? <==>
              !old(closed) && started && old(Alive(p)) && !attached && !p.Stops(|old(p.log)| + 1)
      ensures outcome.Escaped? ==> outcome.failure == WontStop
      ensures outcome.Reported? ==> outcome.failures != []
      ensures !old(closed) && started && p.status.None? ==> Reports(outcome, WontStop)
      ensures !old(closed) && started && outcome.Clean? ==> FinishFailures(p.status, p.closing) == []
      ensures !old(closed) && started && old(Alive(p)) && attached ==>
                && listener.None? && active == {} && old(k.log) <= k.log
                && OpsOf(k.log) == OpsOf(old(k.log)) + TeardownOps(old(listener), t)
                && Covers(t, old(active))
                && |k.log| == TeardownEnd(|old(k.log)|, old(listener), t)
                && Reasons(outcome) == TeardownFailures(k.log, |old(k.log)|, old(listener), t)
                                       + ExitFailures(k.log[|k.log| - 1].reply, p.exits(|old(p.log)| + 1))
                                       + FinishFailures(p.status, p.closing)
      ensures !old(closed) && started && !(old(Alive(p)) && attached) ==> k.log == old(k.log) && active == old(active)
      ensures !old(closed) && started && old(Alive(p)) && !attached && !outcome.Escaped? ==>
                Reasons(outcome) == FinishFailures(p.status, p.closing)
      ensures !old(closed) && started && !old(Alive(p)) ==>
                p.status.Some? && Reasons(outcome) == DeadFailures(p.status.value) + FinishFailures(p.status, p.closing)
    {
      hide Sound, OpsOf, TeardownOps, TeardownFailures, TeardownEnd, ExitFailures, DeadFailures, FinishFailures, Covers, Closes, ClosedOnce, Alive;
      outcome, t := Clean, Teardown([], [], []);
      if closed {
        return;
      }
      closed := true;
      if !started {
        return;
      }
      var failures, escaped;
      failures, escaped, t := Halt(k, p, patience);
      ghost var log := p.log;
      var more := Finish(p);
      StuckIsReported(p.status, p.closing);
      failures := failures + more;
      ClosedOnceAfter(p.log[|old(p.log)|..], log[|old(p.log)|..], p.log[|log|..]);
      if escaped {
        outcome := Escaped(WontStop);
      } else if failures != [] {
        outcome := Reported(failures);
      }
    }

    twostate predicate Untouched(k: Kernel, p: Process)
      reads this, k, p
    {
      k.log == old(k.log) && p.log == old(p.log) && p.status == old(p.status) && active == old(active)
    }
  }

  function ListenerOps(listener: Option<int>): seq<Op> {
    if listener.Some? then [CloseHandle(listener.value)] else []
  }

  /** Every bridge is joined; what the drain leaves is cancelled once and joined
      once. */
  ghost predicate Covers(t: Teardown, active: set<nat>) {
    && NoDup(t.cancelled) && NoDup(t.joined)
    && (forall h :: h in t.cancelled <==> h in t.joined)
    && (forall h :: h in active ==> h in t.drained || h in t.joined)
    && (forall h :: h in t.drained || h in t.joined ==> h in active)
  }

  /** Both pipes are closed, once, at the end. */
  predicate ClosedOnce(acts: seq<Act>) {
    |acts| >= 2 && acts[|acts| - 2..] == [CloseStdin, CloseStdout] && !Closes(acts[..|acts| - 2])
  }

  lemma NothingClosed()
    ensures !Closes([]) && !Closes([Poll])
  {
  }

  lemma OnceClosed(a: seq<Act>, b: seq<Act>)
    requires !Closes(a) && !Closes(b)
    ensures ClosedOnce(a + b + [CloseStdin, CloseStdout])
  {
    var all := a + b + [CloseStdin, CloseStdout];
    assert all[..|all| - 2] == a + b;
  }

  lemma ClosedOnceAfter(all: seq<Act>, acts: seq<Act>, rest: seq<Act>)
    requires all == acts + rest && !Closes(acts) && ClosedOnce(rest)
    ensures ClosedOnce(all)
  {
    assert all[..|all| - 2] == acts + rest[..|rest| - 2];
    assert all[|all| - 2..] == rest[|rest| - 2..];
  }

  /** What the next poll will find: still running. */
  ghost predicate Alive(p: Process)
    reads p
  {
    p.status.None? && p.exits(|p.log|).None?
  }

  /** A kernel that had ended before the shutdown. */
  function DeadFailures(status: int): seq<Failure> {
    if status == 0 then [] else [Exited(status)]
  }

  function PipeFailures(closing: Act -> Option<int>): seq<Failure> {
    (if closing(CloseStdin).Some? then [Raised(closing(CloseStdin).value)] else [])
    + (if closing(CloseStdout).Some? then [Raised(closing(CloseStdout).value)] else [])
  }

  /** What the finally block adds: a process that will not stop, and pipes that
      will not close. */
  function FinishFailures(status: Option<int>, closing: Act -> Option<int>): seq<Failure> {
    (if status.None? then [WontStop] else []) + PipeFailures(closing)
  }

  lemma StuckIsReported(status: Option<int>, closing: Act -> Option<int>)
    ensures status.None? ==> WontStop in FinishFailures(status, closing)
  {
  }

  /** The failures an outcome carries; the one that escaped carries no others. */
  function Reasons(outcome: Outcome): seq<Failure> {
    if outcome.Reported? then outcome.failures else []
  }

  /** A clean outcome, exactly: every answer was good and the kernel exited with
      status 0; and both pipes closed. */
  lemma CleanIff(log: seq<Exchange>, from: nat, listener: Option<int>, t: Teardown, exit: Option<int>,
                 status: Option<int>, closing: Act -> Option<int>)
    requires |log| == TeardownEnd(from, listener, t)
    ensures TeardownFailures(log, from, listener, t) + ExitFailures(log[|log| - 1].reply, exit) + FinishFailures(status, closing) == [] <==>
            && Smooth(log, from, listener, t) && exit == Some(0)
            && status.Some? && closing(CloseStdin).None? && closing(CloseStdout).None?
  {
    SmoothIff(log, from, listener, t);
    var a, b := TeardownFailures(log, from, listener, t), ExitFailures(log[|log| - 1].reply, exit);
    SumEmpty(a, b, FinishFailures(status, closing), [], []);
    assert a + b + FinishFailures(status, closing) == a + b + FinishFailures(status, closing) + [] + [];
    hide TeardownFailures, Smooth, TeardownEnd;
  }

  predicate Reports(outcome: Outcome, failure: Failure) {
    match outcome
    case Clean => false
    case Reported(failures) => failure in failures
    case Escaped(escaped) => escaped == failure
  }

  lemma TeardownOpsSum(log: seq<Exchange>, listener: Option<int>, t: Teardown,
                       ops1: seq<Op>, ops2: seq<Op>, ops3: seq<Op>, ops4: seq<Op>, ops5: seq<Op>)
    requires ops1 == OpsOf(log) + ListenerOps(listener) && ops2 == ops1 + Joins(t.drained)
    requires ops3 == ops2 + Cancels(t.cancelled) && ops4 == ops3 + Joins(t.joined) && ops5 == ops4 + [Shutdown]
    ensures ops5 == OpsOf(log) + TeardownOps(listener, t)
  {
    hide OpsOf, Joins, Cancels;
  }

  lemma FailuresSum(from: nat, listener: Option<int>, t: Teardown, log1: seq<Exchange>, log2: seq<Exchange>,
                    log3: seq<Exchange>, log4: seq<Exchange>, log: seq<Exchange>)
    requires |log1| == from + |ListenerOps(listener)| && |log2| == |log1| + |t.drained|
    requires |log3| == |log2| + |t.cancelled| && |log4| == |log3| + |t.joined| && |log| == |log4| + 1
    ensures |log| == TeardownEnd(from, listener, t)
    ensures TeardownFailures(log, from, listener, t) == PhaseFailures(log, from, |log1|, |log2|, |log3|, |log4|)
  {
    hide PhaseFailures, ListenerOps;
  }

  lemma PhaseSum(log: seq<Exchange>, from: nat, n1: nat, n2: nat, n3: nat, n4: nat,
                 a: seq<Failure>, b: seq<Failure>, c: seq<Failure>, d: seq<Failure>, e: seq<Failure>, exit: seq<Failure>)
    requires from <= n1 <= n2 <= n3 <= n4 && |log| == n4 + 1
    requires a == Complaints(log, from, n1, Answered) && b == Complaints(log, n1, n2, EndedOrLate)
    requires c == Complaints(log, n2, n3, Answered) && d == Complaints(log, n3, n4, Ended)
    requires e == Complaints(log, n4, |log|, Answered) + exit
    ensures a + b + c + d + e == PhaseFailures(log, from, n1, n2, n3, n4) + exit
  {
    hide Complaints;
  }

  // ----- accepting -----

  /** The accepted connection is checked and handed to a bridge. */
  predicate Handed(checked: Reply, started: Reply) {
    checked.Answer? && checked.sound && started.Answer? && started.handle > 0
  }

  function SettleOps(accepted: int, checked: Reply, started: Reply): seq<Op> {
    if !checked.Answer? || !checked.sound then [GetCc(accepted), CloseHandle(accepted)]
    else if Handed(checked, started) then [GetCc(accepted), BridgeStart(accepted)]
    else [GetCc(accepted), BridgeStart(accepted), CloseHandle(accepted)]
  }

  /** A backend that refuses the bridge is no failure; anything else is. */
  function SettleFailure(checked: Reply, started: Reply): Option<Failure> {
    if !checked.Answer? || !checked.sound then Some(Refused(checked))
    else if started.Status? || Handed(checked, started) then None
    else Some(Refused(started))
  }

  /** The failure is what an exchange since then was answered. */
  ghost predicate Blamed(failure: Option<Failure>, log: seq<Exchange>, from: nat) {
    exists i :: from <= i < |log| && (log[i].op.Accept? || log[i].op.GetCc? || log[i].op.BridgeStart?)
                && failure == Some(Refused(log[i].reply))
  }

  /** One round of serving: the log before it, the bridges asked, the log after
      the reaping, the number of accepts, and the log after those. */
  datatype Round = Round(before: seq<Exchange>, joins: seq<nat>, reaped: seq<Exchange>, accepts: nat, after: seq<Exchange>)

  /** The round asked every live bridge once, and then accepted until the limit
      was reached, nothing was waiting, or the round's connections were through. */
  ghost predicate RoundDone(r: Round, maxConnections: nat, turns: nat) {
    && r.before <= r.reaped <= r.after
    && OpsOf(r.reaped) == OpsOf(r.before) + Joins(r.joins) && NoDup(r.joins) && (forall h :: h in r.joins <==> h in Live(r.before))
    && AcceptCount(OpsOf(r.after)) == AcceptCount(OpsOf(r.reaped)) + r.accepts && r.accepts <= turns
    && ((maxConnections > 0 && |Live(r.after)| == maxConnections) || NoneWaiting(r.after) || r.accepts == turns)
  }

  ghost predicate Rounds(done: seq<Round>, start: seq<Exchange>, maxConnections: nat, waiting: nat -> nat) {
    forall i :: 0 <= i < |done| ==>
      RoundDone(done[i], maxConnections, waiting(i)) && done[i].before == ReachedBy(done[..i], start)
  }

  function ReachedBy(done: seq<Round>, start: seq<Exchange>): seq<Exchange> {
    if done == [] then start else done[|done| - 1].after
  }

  lemma NoRoundsYet(start: seq<Exchange>, maxConnections: nat, waiting: nat -> nat)
    ensures Rounds([], start, maxConnections, waiting) && ReachedBy([], start) == start
  {
  }

  lemma OneMoreRound(done: seq<Round>, r: Round, start: seq<Exchange>, maxConnections: nat, waiting: nat -> nat)
    requires Rounds(done, start, maxConnections, waiting)
    requires RoundDone(r, maxConnections, waiting(|done|)) && r.before == ReachedBy(done, start)
    ensures Rounds(done + [r], start, maxConnections, waiting) && ReachedBy(done + [r], start) == r.after
  {
    hide RoundDone, ReachedBy;
    var more := done + [r];
    forall i | 0 <= i < |more|
      ensures RoundDone(more[i], maxConnections, waiting(i)) && more[i].before == ReachedBy(more[..i], start)
    {
      if i < |done| {
        assert more[i] == done[i] && more[..i] == done[..i];
      } else {
        assert more[..i] == done;
      }
    }
    ReachedLast(done, r, start);
  }

  lemma ReachedLast(done: seq<Round>, r: Round, start: seq<Exchange>)
    ensures ReachedBy(done + [r], start) == r.after
  {
  }

  lemma ExitExplains(status: int, listener: Option<int>, log: seq<Exchange>)
    ensures forall from: nat :: Explained(Exited(status), Some(status), listener, log, from)
  {
  }

  lemma StillExplained(failure: Failure, status: Option<int>, listener: Option<int>, log: seq<Exchange>, from: nat)
    requires Explained(failure, None, listener, log, from)
    ensures Explained(failure, status, listener, log, from)
  {
  }

  /** Why serving failed: the process exited, nobody listens, or an answer since
      that place in the log was refused. */
  ghost predicate Explained(failure: Failure, status: Option<int>, listener: Option<int>, log: seq<Exchange>, from: nat) {
    || (status.Some? && failure == Exited(status.value))
    || (listener.None? && failure == NotListening)
    || exists i :: from <= i < |log| && failure == Refused(log[i].reply)
  }

  lemma {:induction false} ComplaintRefuses(failure: Failure, log: seq<Exchange>, from: nat, to: nat)
    requires to <= |log| && Complaints(log, from, to, EndedOrLate) == [failure]
    ensures exists i :: from <= i < |log| && failure == Refused(log[i].reply)
  {
    if Fits(EndedOrLate, log[to - 1].reply) {
      ComplaintRefuses(failure, log, from, to - 1);
    } else {
      var rest := Complaints(log, from, to - 1, EndedOrLate);
      assert (rest + [Complaint(EndedOrLate, log[to - 1])])[|rest|] == Refused(log[to - 1].reply);
    }
  }

  lemma BlameRefuses(failure: Failure, log: seq<Exchange>, from: nat, sooner: nat)
    requires sooner <= from
    ensures Blamed(Some(failure), log, from) ==> exists i :: sooner <= i < |log| && failure == Refused(log[i].reply)
  {
  }

  predicate NoneWaiting(log: seq<Exchange>) {
    log != [] && log[|log| - 1] == Exchange(Accept, Status(EAGAIN))
  }

  lemma BlameLast(log: seq<Exchange>, e: Exchange, from: nat)
    requires from <= |log| && e.op.Accept?
    ensures Blamed(Some(Refused(e.reply)), log + [e], from)
  {
    assert (log + [e])[|log|] == e;
  }

  lemma BlameSooner(failure: Option<Failure>, log: seq<Exchange>, from: nat, sooner: nat)
    requires Blamed(failure, log, from) && sooner <= from
    ensures Blamed(failure, log, sooner)
  {
  }

  function AcceptCount(ops: seq<Op>): nat {
    if ops == [] then 0 else AcceptCount(ops[..|ops| - 1]) + if ops[|ops| - 1].Accept? then 1 else 0
  }

  lemma CountOne(ops: seq<Op>, op: Op)
    ensures AcceptCount(ops + [op]) == AcceptCount(ops) + if op.Accept? then 1 else 0
  {
    assert (ops + [op])[..|ops|] == ops;
  }

  lemma CountAccept(ops: seq<Op>)
    ensures AcceptCount(ops + [Accept]) == AcceptCount(ops) + 1
  {
    CountOne(ops, Accept);
  }

  lemma CountSettle(ops: seq<Op>, accepted: int, checked: Reply, started: Reply)
    ensures AcceptCount(ops + SettleOps(accepted, checked, started)) == AcceptCount(ops)
  {
    hide AcceptCount;
    var a, b, c := GetCc(accepted), BridgeStart(accepted), CloseHandle(accepted);
    CountOne(ops, a);
    CountOne(ops + [a], b);
    CountOne(ops + [a], c);
    CountOne(ops + [a] + [b], c);
    assert ops + [a, c] == ops + [a] + [c] && ops + [a, b] == ops + [a] + [b] && ops + [a, b, c] == ops + [a] + [b] + [c];
  }

  /** A failure that is lost: the process survives being stopped before the L3
      attach, so the pipe that would not close is not reported. */
  method PipeFailureLost() returns (p: Process, outcome: Outcome)
    ensures fresh(p) && p.closing(CloseStdin) == Some(7) && outcome == Escaped(WontStop)
  {
    var k := new Kernel(_ => Broken(1));
    p := new Process(_ => None, _ => Some(7));
    var runtime := new Runtime(0);
    var failure := runtime.Start(k, 3, None);
    ghost var t;
    outcome, t := runtime.ShutDown(k, p, 0);
  }

  /** What an answer that is not good enough raises. */
  function Refused(reply: Reply): Failure {
    match reply
    case Status(code) => Operation(code)
    case Broken(error) => Raised(error)
    case Answer(_, _) => Protocol
  }

  function StartOps(listener: int): seq<Op> {
    [AttachL3, Socket, SetCc(listener), GetCc(listener), Bind(listener), Listen(listener)]
  }

  /** Preparing the listener accepts nothing and starts no bridge. */
  lemma {:induction false} Quiet(log: seq<Exchange>)
    requires forall i :: 0 <= i < |log| ==> !(log[i].op.Accept? || log[i].op.BridgeStart? || log[i].op.JoinResult?)
    ensures Accounted(log) && Live(log) == {}
  {
    if log != [] {
      Quiet(log[..|log| - 1]);
    }
  }

  lemma StartQuiet(log: seq<Exchange>, listener: int)
    requires OpsOf(log) <= StartOps(listener)
    ensures Accounted(log) && Live(log) == {}
  {
    forall i | 0 <= i < |log|
      ensures !(log[i].op.Accept? || log[i].op.BridgeStart? || log[i].op.JoinResult?)
    {
      assert OpsOf(log)[i] == StartOps(listener)[i];
    }
    Quiet(log);
  }

  /** A step of settling an accepted connection, noted in both accounts. */
  lemma Note(log: seq<Exchange>, at: nat, e: Exchange)
    requires at < |log| && Accepts(log[at]) && AccountedBut(log, at) && !Accepts(e)
    ensures (log + [e])[at] == log[at] && Live(log + [e]) == Moved(Live(log), e)
    ensures if Settles(e, log[at].reply.handle) then Accounted(log + [e]) else AccountedBut(log + [e], at)
  {
    AccountedButGrows(log, at, e);
    LiveGrows(log, e);
  }

  lemma Grow(log: seq<Exchange>, from: nat, e: Exchange, kind: Kind, handles: seq<nat>, handle: nat)
    requires from <= |log|
    ensures Complaints(log + [e], from, |log + [e]|, kind) ==
            Complaints(log, from, |log|, kind) + if Fits(kind, e.reply) then [] else [Complaint(kind, e)]
    ensures OpsOf(log + [e]) == OpsOf(log) + [e.op]
    ensures Joins(handles + [handle]) == Joins(handles) + [JoinResult(handle)]
    ensures Cancels(handles + [handle]) == Cancels(handles) + [Cancel(handle)]
  {
    ComplaintsGrow(log, from, e, kind);
    OpsGrow(log, e);
  }

  lemma NoneFit(log: seq<Exchange>, kind: Kind)
    ensures Complaints(log, |log|, |log|, kind) == []
  {
  }

  lemma FitsPatient(reply: Reply)
    ensures Fits(EndedOrLate, reply) <==> Terminal(reply) || reply == Status(ETIMEDOUT)
  {
  }

  lemma Fewer(s: set<nat>, x: nat)
    ensures |s - {x}| <= |s|
  {
    if x !in s {
      assert s - {x} == s;
    }
  }

  method Pick(s: set<nat>) returns (x: nat)
    requires s != {}
    ensures x in s
  {
    x :| x in s;
  }

  lemma Distinct()
    ensures NoDup<nat>([])
  {
  }

  lemma JoinsConcat(a: seq<nat>, b: seq<nat>)
    ensures Joins(a + b) == Joins(a) + Joins(b)
  {
  }

  function OpsOf(log: seq<Exchange>): seq<Op> {
    seq(|log|, i requires 0 <= i < |log| => log[i].op)
  }

  function Joins(handles: seq<nat>): seq<Op> {
    seq(|handles|, i requires 0 <= i < |handles| => JoinResult(handles[i]))
  }

  function Cancels(handles: seq<nat>): seq<Op> {
    seq(|handles|, i requires 0 <= i < |handles| => Cancel(handles[i]))
  }

  lemma NoOps(log: seq<Exchange>)
    ensures OpsOf(log) + Joins([]) == OpsOf(log) && OpsOf(log) + Cancels([]) == OpsOf(log)
  {
  }

  lemma OpsGrow(log: seq<Exchange>, e: Exchange)
    ensures OpsOf(log + [e]) == OpsOf(log) + [e.op]
  {
  }
}

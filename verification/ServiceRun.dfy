/** run_service: acquire the host network, run the hosted kernel, and unwind in
    strict order whatever fails. */
module ServiceRun {
  import opened Lists
  import opened HostedProcess
  import opened ServiceRuntime
  import HostCleanup
  import HostNetwork

  /** The configuration, what the process factory raises, when stop requests
      come (before start, before serving, or after so many rounds), how many
      connections wait in each round, and how many joins fit the grace period. */
  datatype Plan = Plan(
    maxConnections: nat, tunFd: int, spawn: Option<int>,
    stopBeforeStart: bool, stopBeforeServe: bool, rounds: nat, waiting: nat -> nat, patience: nat)

  datatype Primary = Acquiring(outcome: HostNetwork.Outcome) | Running(failure: Failure)

  datatype Cleanup = FromRuntime(outcome: Outcome) | FromLease(failures: seq<HostCleanup.Failure>)

  datatype Result =
    | Stopped
    | Failed(primary: Primary)
    | CleanupFailed(cause: Option<Primary>, failures: seq<Cleanup>)

  /** The process was spawned. */
  predicate Spawned(plan: Plan, s: HostNetwork.Script, open: bool) {
    HostNetwork.Succeeds(s, open) && !plan.stopBeforeStart && plan.tunFd >= 3 && plan.spawn.None?
  }

  /** Every failure of the two cleanups, the runtime's first. */
  function Collected(runtime: Outcome, lease: seq<HostCleanup.Failure>): seq<Cleanup> {
    (if runtime.Clean? then [] else [FromRuntime(runtime)]) + (if lease == [] then [] else [FromLease(lease)])
  }

  function Conclude(primary: Option<Primary>, failures: seq<Cleanup>): Result {
    if failures != [] then CleanupFailed(primary, failures)
    else if primary.Some? then Failed(primary.value)
    else Stopped
  }

  /** How long the log was after the start, the finished rounds of serving, and
      where the runtime stood when its shutdown began: whether the process was
      seen running and the interface attached, how long both logs were, the
      listener; and how the shutdown went. */
  datatype Stage = Stage(begun: nat, done: seq<Round>, alive: bool, attached: bool, exchanges: nat, acts: nat,
                         listener: Option<int>, teardown: Teardown)

  const NotRun := Stage(0, [], false, false, 0, 0, None, Teardown([], [], []))

  /** All six calls of the start were made and answered as they should be. */
  predicate Began(log: seq<Exchange>, begun: nat) {
    begun == 6 <= |log| && AllFit(log, 0, 6, Answered) && log[1].reply.handle > 0 && log[3].reply.sound
  }

  /** The service did what it was asked until it was told to stop. */
  predicate Completed(plan: Plan, log: seq<Exchange>, g: Stage) {
    Began(log, g.begun) && (plan.stopBeforeServe || |g.done| == plan.rounds)
  }

  /** The outcome is exactly what the answers, the exit status and the pipes
      made of it. */
  ghost predicate Accounts(outcome: Outcome, log: seq<Exchange>, p: Process, g: Stage)
    reads p`status
  {
    && (outcome.Escaped? <==> g.alive && !g.attached && !p.Stops(g.acts + 1))
    && (outcome.Reported? ==> outcome.failures != [])
    && (g.alive && g.attached ==>
          && |log| == TeardownEnd(g.exchanges, g.listener, g.teardown)
          && Reasons(outcome) == TeardownFailures(log, g.exchanges, g.listener, g.teardown)
                                 + ExitFailures(log[|log| - 1].reply, p.exits(g.acts + 1))
                                 + FinishFailures(p.status, p.closing))
    && (g.alive && !g.attached && !outcome.Escaped? ==> Reasons(outcome) == FinishFailures(p.status, p.closing))
    && (!g.alive ==>
          p.status.Some? && Reasons(outcome) == DeadFailures(p.status.value) + FinishFailures(p.status, p.closing))
  }

  /** The hosted kernel from creation to shutdown, inside the lease. */
  method RunHosted(plan: Plan, k: Kernel, p: Process) returns (primary: Option<Primary>, outcome: Outcome, ghost stage: Stage)
    requires k.log == [] && p.log == [] && p.status.None?
    modifies k`log, p`status, p`log
    ensures primary.None? <==> Completed(plan, k.log, stage)
    ensures primary.Some? ==> primary.value.Running?
    ensures stage.begun <= |k.log| && Rounds(stage.done, k.log[..stage.begun], plan.maxConnections, plan.waiting)
    ensures if plan.tunFd >= 3 && plan.spawn.None? then ClosedOnce(p.log) else p.log == [] && outcome.Clean?
    ensures p.log != [] ==> Accounts(outcome, k.log, p, stage)
    ensures p.log != [] && p.status.None? ==> Reports(outcome, WontStop)
    ensures p.log != [] && outcome.Clean? ==> FinishFailures(p.status, p.closing) == []
  {
    hide OpsOf, TeardownOps, TeardownFailures, TeardownEnd, ExitFailures, DeadFailures, FinishFailures, Covers,
         ClosedOnce, Closes, Began, Rounds, Runtime.Sound;
    var runtime := new Runtime(plan.maxConnections);
    ghost var begun, done;
    primary, begun, done := StartAndServe(plan, runtime, k, p);
    ghost var log, polls := k.log, p.log;
    PollsCloseNothing(polls);
    stage := Stage(begun, done, Alive(p), runtime.attached, |log|, |polls|, runtime.listener, Teardown([], [], []));
    ghost var t;
    outcome, t := runtime.ShutDown(k, p, plan.patience);
    stage := stage.(teardown := t);
    assert k.log[..begun] == log[..begun];
    BeganKept(log, k.log, begun);
    if runtime.started {
      ClosedOnceAfter(p.log, polls, p.log[|polls|..]);
      ClosedSomething(p.log);
    }
  }

  /** The part of run_service that can be the primary failure. */
  method StartAndServe(plan: Plan, runtime: Runtime, k: Kernel, p: Process)
    returns (primary: Option<Primary>, ghost begun: nat, ghost done: seq<Round>)
    requires runtime.maxConnections == plan.maxConnections && k.log == [] && p.log == [] && p.status.None?
    requires !runtime.started && !runtime.attached && runtime.listener == None && runtime.active == {} && !runtime.closed
    modifies runtime, k`log, p`status, p`log
    ensures runtime.Sound(k) && !runtime.closed && (runtime.started <==> plan.tunFd >= 3 && plan.spawn.None?)
    ensures begun <= |k.log| && Rounds(done, k.log[..begun], plan.maxConnections, plan.waiting)
    ensures primary.None? <==> Began(k.log, begun) && (plan.stopBeforeServe || |done| == plan.rounds)
    ensures primary.Some? ==> primary.value.Running?
    ensures (forall i :: 0 <= i < |p.log| ==> p.log[i] == Poll) && (!runtime.started ==> p.log == [])
  {
    hide OpsOf, Live, Accounted, AllFit, Began, Rounds, ReachedBy, StartOps, Explained;
    primary, done := None, [];
    var failure := runtime.Start(k, plan.tunFd, plan.spawn);
    ghost var start := k.log;
    begun := |start|;
    BeganIs(start);
    NoRounds(start, plan.maxConnections, plan.waiting);
    if failure.None? && !plan.stopBeforeServe {
      failure, done := runtime.Serve(k, p, plan.rounds, plan.waiting);
    }
    if failure.Some? {
      primary := Some(Running(failure.value));
    }
    assert k.log[..begun] == start;
    BeganKept(start, k.log, begun);
  }

  /** run_service.  seen in the world is what the process had done when each
      cleanup callback ran. */
  method RunService(plan: Plan, s: HostNetwork.Script, journal: HostCleanup.OwnershipJournal, w: HostCleanup.World,
                    k: Kernel, p: Process) returns (result: Result, ghost outcome: Outcome, ghost stage: Stage)
    requires journal.Valid() && k.log == [] && p.log == [] && p.status.None? && w.process == p
    modifies journal, w, k`log, p`status, p`log
    ensures HostNetwork.Succeeds(s, !old(journal.closed)) ==>
              && journal.closed
              && w.ran == old(w.ran) + [s.dnat.value.resource, s.tun.value.resource]
                          + HostCleanup.Resources(HostCleanup.Reversed(old(journal.entries)))
              && HostCleanup.Witnessed(w, old(w.seen))
    ensures !HostNetwork.Succeeds(s, !old(journal.closed)) ==>
              && w.ran == old(w.ran) + HostCleanup.Resources(HostNetwork.Undone(s, !old(journal.closed), old(journal.entries)))
              && k.log == [] && result.Failed?
    ensures if Spawned(plan, s, !old(journal.closed)) then ClosedOnce(p.log) else p.log == [] && outcome.Clean?
    ensures p.log != [] ==> Accounts(outcome, k.log, p, stage)
    ensures p.log != [] && p.status.None? ==> Reports(outcome, WontStop)
    ensures p.log != [] && outcome.Clean? ==> FinishFailures(p.status, p.closing) == []
    ensures HostNetwork.Succeeds(s, !old(journal.closed)) ==>
              var lease := HostCleanup.Failures([HostNetwork.LeaseEntry(s.dnat.value), HostNetwork.TunEntry(s.tun.value)]
                                                + HostCleanup.Reversed(old(journal.entries)), w.raises);
              var well := plan.stopBeforeStart || Completed(plan, k.log, stage);
              && (result.Stopped? <==> well && Collected(outcome, lease) == [])
              && (result.Failed? <==> !well && Collected(outcome, lease) == [])
              && (result.CleanupFailed? <==> Collected(outcome, lease) != [])
              && (result.CleanupFailed? ==> result.failures == Collected(outcome, lease) && (result.cause.None? <==> well))
              && (result.Failed? ==> result.primary.Running?)
    ensures result.Stopped? ==> HostNetwork.Succeeds(s, !old(journal.closed)) && outcome.Clean?
  {
    hide ClosedOnce, Accounts, FinishFailures, Completed, Rounds,
         HostCleanup.Failures, HostCleanup.Reversed, HostCleanup.Resources, HostNetwork.Undone,
         HostNetwork.Succeeds, HostNetwork.TunEntry, HostNetwork.LeaseEntry, HostNetwork.FirstError, HostNetwork.Ended, HostNetwork.Taken;
    ghost var held := journal.entries;
    var acquired := HostNetwork.Acquire(s, journal, w);
    outcome, stage := Clean, NotRun;
    if !acquired.Acquired? {
      return Failed(Acquiring(acquired)), outcome, stage;
    }
    var primary, ended := None, Clean;
    if !plan.stopBeforeStart {
      primary, ended, stage := RunHosted(plan, k, p);
    }
    var failures := HostNetwork.CloseLease(journal, w, acquired.tun, acquired.dnat, held);
    outcome := ended;
    result := Conclude(primary, Collected(ended, failures));
  }

  lemma BeganIs(log: seq<Exchange>)
    ensures Began(log, |log|) <==>
            |log| == 6 && AllFit(log, 0, 6, Answered) && log[1].reply.Answer? && log[1].reply.handle > 0 && log[3].reply.sound
  {
  }

  lemma BeganKept(log: seq<Exchange>, grown: seq<Exchange>, begun: nat)
    requires begun <= |log| && log <= grown
    ensures Began(grown, begun) <==> Began(log, begun)
  {
  }

  lemma NoRounds(start: seq<Exchange>, maxConnections: nat, waiting: nat -> nat)
    ensures Rounds([], start, maxConnections, waiting)
  {
  }

  lemma PollsCloseNothing(acts: seq<Act>)
    requires forall i :: 0 <= i < |acts| ==> acts[i] == Poll
    ensures !Closes(acts)
  {
  }

  lemma ClosedSomething(acts: seq<Act>)
    requires ClosedOnce(acts)
    ensures acts != []
  {
  }
}

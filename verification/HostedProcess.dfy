/** The hosted kernel's process, as its parent sees it: polled, waited for,
    signalled, and its control pipes closed. */
module HostedProcess {
  import opened Lists

  datatype Act = Poll | Wait | Terminate | Kill | CloseStdin | CloseStdout

  /** exits(n) is the exit status there is to see at the n-th call, if any;
      closing(a) is what closing that pipe raises, if anything. */
  class Process {
    var status: Option<int>
    var log: seq<Act>
    const exits: nat -> Option<int>
    const closing: Act -> Option<int>

    constructor (exits: nat -> Option<int>, closing: Act -> Option<int>)
      ensures status == None && log == [] && this.exits == exits && this.closing == closing
    {
      status, log, this.exits, this.closing := None, [], exits, closing;
    }

    /** poll, or a wait that can run out of time: an exit once seen stays. */
    method Observe(act: Act) returns (r: Option<int>)
      modifies this`status, this`log
      ensures log == old(log) + [act] && r == status
      ensures status == if old(status).Some? then old(status) else exits(|old(log)|)
    {
      if status.None? {
        status := exits(|log|);
      }
      log := log + [act];
      return status;
    }

    method Signal(act: Act)
      modifies this`log
      ensures log == old(log) + [act]
    {
      log := log + [act];
    }

    method ClosePipe(act: Act) returns (r: Option<int>)
      modifies this`log
      ensures log == old(log) + [act] && r == closing(act)
    {
      log := log + [act];
      return closing(act);
    }

    /** An attempt to stop the process, begun at the n-th call, finds it ended:
        at once, after the terminate, or after the kill. */
    predicate Stops(n: nat) {
      exits(n).Some? || exits(n + 2).Some? || exits(n + 4).Some?
    }

    /** _force_stop: terminate, then kill, unless it has ended; true when the
        process has not ended even then. */
    method ForceStop() returns (stuck: bool)
      modifies this`status, this`log
      ensures old(log) <= log && !Closes(log[|old(log)|..])
      ensures stuck <==> status.None?
      ensures old(status).None? ==> (stuck <==> !Stops(|old(log)|))
      ensures old(status).Some? ==> status == old(status)
      ensures stuck ==> log == old(log) + [Poll, Terminate, Wait, Kill, Wait]
    {
      var seen := Observe(Poll);
      if seen.Some? {
        return false;
      }
      Signal(Terminate);
      seen := Observe(Wait);
      if seen.Some? {
        return false;
      }
      Signal(Kill);
      seen := Observe(Wait);
      return seen.None?;
    }
  }

  predicate Closes(acts: seq<Act>) {
    CloseStdin in acts || CloseStdout in acts
  }
}

/** The ownership journal: cleanup callbacks, each run once, newest first. */
module HostCleanup {
  import opened Lists
  import HostedProcess

  /** An exception, named by a number. */
  type Error = int

  datatype Failure = Failure(tag: string, error: Error)

  /** A resource is named by a number; so is its cleanup callback. */
  datatype Entry = Entry(tag: string, resource: nat)

  datatype DeferError = JournalClosed | EmptyLabel | AppendFailed(error: Error)

  /** The world acquisitions and callbacks happen in: what was acquired and which
      callbacks were run so far, in order, what each raises, if anything, and
      what the hosted process had done when each was run. */
  class World {
    var taken: seq<Entry>
    var ran: seq<nat>
    var seen: seq<seq<HostedProcess.Act>>
    const raises: nat -> Option<Error>
    const process: HostedProcess.Process

    constructor (raises: nat -> Option<Error>, process: HostedProcess.Process)
      ensures taken == [] && ran == [] && seen == [] && this.raises == raises && this.process == process
    {
      taken, ran, seen := [], [], [];
      this.raises, this.process := raises, process;
    }

    method Take(entry: Entry)
      modifies this`taken
      ensures taken == old(taken) + [entry]
    {
      taken := taken + [entry];
    }

    method Run(resource: nat) returns (r: Option<Error>)
      modifies this`ran, this`seen
      ensures ran == old(ran) + [resource] && seen == old(seen) + [process.log] && r == raises(resource)
    {
      ran, seen := ran + [resource], seen + [process.log];
      r := raises(resource);
    }
  }

  /** The callbacks run since then all ran with the process's log as it is now. */
  ghost predicate Witnessed(w: World, seen: seq<seq<HostedProcess.Act>>)
    reads w, w.process
  {
    seen <= w.seen && forall i :: |seen| <= i < |w.seen| ==> w.seen[i] == w.process.log
  }

  function Reversed<T>(s: seq<T>): seq<T> {
    if s == [] then [] else [s[|s| - 1]] + Reversed(s[..|s| - 1])
  }

  function Resources(entries: seq<Entry>): seq<nat> {
    seq(|entries|, i requires 0 <= i < |entries| => entries[i].resource)
  }

  /** The failures of running the given entries in the given order. */
  function Failures(entries: seq<Entry>, raises: nat -> Option<Error>): seq<Failure> {
    if entries == [] then []
    else
      var last := entries[|entries| - 1];
      Failures(entries[..|entries| - 1], raises)
      + if raises(last.resource).Some? then [Failure(last.tag, raises(last.resource).value)] else []
  }

  lemma {:induction false} ReversedAt<T>(s: seq<T>, i: nat)
    requires i < |s|
    ensures |Reversed(s)| == |s| && Reversed(s)[i] == s[|s| - 1 - i]
  {
    if i > 0 {
      ReversedAt(s[..|s| - 1], i - 1);
    } else if |s| > 1 {
      ReversedAt(s[..|s| - 1], 0);
    }
  }

  lemma {:induction false} ReversedLength<T>(s: seq<T>)
    ensures |Reversed(s)| == |s|
  {
    if s != [] {
      ReversedAt(s, 0);
    }
  }

  /** Every failing callback is reported, and nothing else. */
  lemma {:induction false} FailuresExactly(entries: seq<Entry>, raises: nat -> Option<Error>, f: Failure)
    ensures f in Failures(entries, raises) <==>
            exists i :: 0 <= i < |entries| && entries[i].tag == f.tag && raises(entries[i].resource) == Some(f.error)
  {
    if entries != [] {
      var last := |entries| - 1;
      FailuresExactly(entries[..last], raises, f);
      assert forall i :: 0 <= i < last ==> entries[..last][i] == entries[i];
    }
  }

  lemma NoneYet(order: seq<Entry>, raises: nat -> Option<Error>)
    ensures Resources(order[..0]) == [] && Failures(order[..0], raises) == []
  {
  }

  lemma OneMore(order: seq<Entry>, n: nat, raises: nat -> Option<Error>)
    requires n < |order|
    ensures Resources(order[..n + 1]) == Resources(order[..n]) + [order[n].resource]
    ensures Failures(order[..n + 1], raises) ==
            Failures(order[..n], raises)
            + if raises(order[n].resource).Some? then [Failure(order[n].tag, raises(order[n].resource).value)] else []
  {
    assert order[..n + 1][..n] == order[..n];
  }

  class OwnershipJournal {
    var entries: seq<Entry>
    var closed: bool

    ghost predicate Valid()
      reads this
    {
      closed ==> entries == []
    }

    constructor ()
      ensures Valid() && entries == [] && !closed
    {
      entries, closed := [], false;
    }

    /** append says whether growing the list itself raises. */
    method Defer(tag: string, resource: nat, append: Option<Error>) returns (r: Option<DeferError>)
      requires Valid()
      modifies this`entries
      ensures Valid()
      ensures r.None? <==> !closed && tag != "" && append.None?
      ensures r.None? ==> entries == old(entries) + [Entry(tag, resource)]
      ensures r.Some? ==> entries == old(entries)
      ensures closed ==> r == Some(JournalClosed)
      ensures !closed && tag != "" && append.Some? ==> r == Some(AppendFailed(append.value))
    {
      if closed {
        return Some(JournalClosed);
      }
      if tag == "" {
        return Some(EmptyLabel);
      }
      if append.Some? {
        return Some(AppendFailed(append.value));
      }
      entries := entries + [Entry(tag, resource)];
      return None;
    }

    /** Runs every callback once, newest first, whatever each of them raises, and
        reports every failure in that order; a closed journal does nothing. */
    method Close(w: World) returns (failures: seq<Failure>)
      requires Valid()
      modifies this, w`ran, w`seen
      ensures Valid() && closed && Witnessed(w, old(w.seen))
      ensures old(closed) ==> w.ran == old(w.ran) && failures == []
      ensures !old(closed) ==>
                && w.ran == old(w.ran) + Resources(Reversed(old(entries)))
                && failures == Failures(Reversed(old(entries)), w.raises)
    {
      failures := [];
      if closed {
        return;
      }
      closed := true;
      var pending := entries;
      entries := [];
      ghost var order := Reversed(pending);
      ReversedLength(pending);
      var i := |pending|;
      NoneYet(order, w.raises);
      hide Reversed, Resources, Failures;
      while i > 0
        invariant 0 <= i <= |pending| && |order| == |pending|
        invariant closed && entries == [] && Witnessed(w, old(w.seen))
        invariant w.ran == old(w.ran) + Resources(order[..|pending| - i])
        invariant failures == Failures(order[..|pending| - i], w.raises)
      {
        i := i - 1;
        ghost var done := |pending| - i;
        ReversedAt(pending, done - 1);
        var entry := pending[i];
        OneMore(order, done - 1, w.raises);
        var raised := w.Run(entry.resource);
        if raised.Some? {
          failures := failures + [Failure(entry.tag, raised.value)];
        }
      }
      assert order[..|pending|] == order;
    }
  }
}

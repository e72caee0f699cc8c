/** Acquiring the host network as one transaction: preflight, stale scan, TUN,
    then DNAT, with a failure possible at every point. */
module HostNetwork {
  import opened Lists
  import opened HostCleanup
  import HostedProcess

  /** What a collector call yields. */
  datatype Collected = Raised(error: Error) | NotAReport | Report(good: bool)

  datatype Tun = Tun(name: string, resource: nat)

  datatype Lease = Lease(backendIsText: bool, backend: string, name: string, resource: nat)

  datatype Made<T> = Failed(error: Error) | Made(value: T)

  /** Everything the injected collectors, acquirers and the list growth do. */
  datatype Script = Script(
    preflight: Collected, ownership: Collected, compatibility: Option<Error>,
    isJournal: bool,
    tun: Made<Tun>, tunAppend: Option<Error>,
    identity: Option<Error>,
    dnat: Made<Lease>, dnatAppend: Option<Error>)

  datatype StartupError =
    | Preflight | StaleOwnership | InvalidReport | InvalidJournal | InvalidLease
    | Thrown(error: Error) | NotDeferred(reason: DeferError)

  datatype Outcome =
    | Acquired(tun: Tun, dnat: Lease)
    | Refused(error: StartupError)
    | RolledBack(error: StartupError, failures: seq<Failure>)

  function TunEntry(t: Tun): Entry {
    Entry("tun:" + t.name, t.resource)
  }

  function LeaseEntry(l: Lease): Entry {
    Entry(l.backend + ":" + l.name, l.resource)
  }

  predicate WellFormed(l: Lease) {
    l.backendIsText && l.name != ""
  }

  /** The checks before the first acquisition pass. */
  predicate Cleared(s: Script) {
    s.preflight == Report(true) && s.ownership == Report(true) && s.compatibility.None? && s.isJournal
  }

  /** The TUN was acquired and journaled. */
  predicate TunKept(s: Script, open: bool) {
    Cleared(s) && s.tun.Made? && open && s.tunAppend.None?
  }

  /** The DNAT lease was acquired. */
  predicate DnatMade(s: Script, open: bool) {
    TunKept(s, open) && s.identity.None? && s.dnat.Made?
  }

  predicate Succeeds(s: Script, open: bool) {
    DnatMade(s, open) && WellFormed(s.dnat.value) && s.dnatAppend.None?
  }

  /** What a script acquires, in order. */
  function Taken(s: Script, open: bool): seq<Entry> {
    if !Cleared(s) || s.tun.Failed? then []
    else if !DnatMade(s, open) then [TunEntry(s.tun.value)]
    else [TunEntry(s.tun.value), LeaseEntry(s.dnat.value)]
  }

  /** What a failing script closes, in order of acquisition. */
  function Covered(s: Script, open: bool): seq<Entry> {
    if DnatMade(s, open) && !WellFormed(s.dnat.value) then [TunEntry(s.tun.value)] else Taken(s, open)
  }

  /** The first thing that goes wrong. */
  function FirstError(s: Script, open: bool): StartupError
    requires !Succeeds(s, open)
  {
    if s.preflight != Report(true) then CollectError(s.preflight, Preflight)
    else if s.ownership != Report(true) then CollectError(s.ownership, StaleOwnership)
    else if s.compatibility.Some? then Thrown(s.compatibility.value)
    else if !s.isJournal then InvalidJournal
    else if s.tun.Failed? then Thrown(s.tun.error)
    else if !open then NotDeferred(JournalClosed)
    else if s.tunAppend.Some? then NotDeferred(AppendFailed(s.tunAppend.value))
    else if s.identity.Some? then Thrown(s.identity.value)
    else if s.dnat.Failed? then Thrown(s.dnat.error)
    else if !WellFormed(s.dnat.value) then InvalidLease
    else NotDeferred(AppendFailed(s.dnatAppend.value))
  }

  /** _rollback_unregistered_resource: the new resource first, then the journal. */
  method RollBack(journal: OwnershipJournal, entry: Entry, w: World) returns (failures: seq<Failure>)
    requires journal.Valid()
    modifies journal, w`ran, w`seen
    ensures journal.Valid() && journal.closed
    ensures old(journal.closed) ==> w.ran == old(w.ran) + [entry.resource] && failures == Failures([entry], w.raises)
    ensures !old(journal.closed) ==>
              && w.ran == old(w.ran) + Resources([entry] + Reversed(old(journal.entries)))
              && failures == Failures([entry] + Reversed(old(journal.entries)), w.raises)
  {
    hide Reversed, Failures, Resources;
    failures := [];
    OneResource(entry);
    var raised := w.Run(entry.resource);
    if raised.Some? {
      failures := [Failure(entry.tag, raised.value)];
    }
    FailuresOne(entry, w.raises);
    var rest := journal.Close(w);
    failures := failures + rest;
    FailuresConcat([entry], Reversed(old(journal.entries)), w.raises);
    ResourcesConcat([entry], Reversed(old(journal.entries)));
  }

  lemma FailuresOne(entry: Entry, raises: nat -> Option<Error>)
    ensures Failures([entry], raises) ==
            if raises(entry.resource).Some? then [Failure(entry.tag, raises(entry.resource).value)] else []
  {
    assert [entry][..0] == [];
    assert Failures([], raises) == [];
  }

  lemma {:induction false} FailuresConcat(a: seq<Entry>, b: seq<Entry>, raises: nat -> Option<Error>)
    ensures Failures(a + b, raises) == Failures(a, raises) + Failures(b, raises)
  {
    if b == [] {
      assert a + b == a;
    } else {
      assert (a + b)[..|a + b| - 1] == a + b[..|b| - 1];
      FailuresConcat(a, b[..|b| - 1], raises);
    }
  }

  lemma ResourcesConcat(a: seq<Entry>, b: seq<Entry>)
    ensures Resources(a + b) == Resources(a) + Resources(b)
  {
  }

  function Ended(error: StartupError, failures: seq<Failure>): Outcome {
    if failures == [] then Refused(error) else RolledBack(error, failures)
  }

  /** What a failing acquisition runs, in order: once it has asked for a journal
      it closes whatever that already held as well. */
  function Undone(s: Script, open: bool, held: seq<Entry>): seq<Entry> {
    if Cleared(s) then Reversed(held + Covered(s, open)) else []
  }

  /** acquire_host_network.  The journal the factory returns may already be
      closed, or hold entries; a fresh one is open and empty. */
  method Acquire(s: Script, journal: OwnershipJournal, w: World) returns (r: Outcome)
    requires journal.Valid()
    modifies journal, w
    ensures journal.Valid()
    ensures r.Acquired? <==> Succeeds(s, !old(journal.closed))
    ensures r.Acquired? ==>
              && r == Acquired(s.tun.value, s.dnat.value) && w.ran == old(w.ran) && w.seen == old(w.seen) && !journal.closed
              && journal.entries == old(journal.entries) + [TunEntry(r.tun), LeaseEntry(r.dnat)]
    ensures !r.Acquired? ==>
              var order := Undone(s, !old(journal.closed), old(journal.entries));
              && w.ran == old(w.ran) + Resources(order)
              && r == Ended(FirstError(s, !old(journal.closed)), Failures(order, w.raises))
    ensures w.taken == old(w.taken) + Taken(s, !old(journal.closed))
    ensures !r.Acquired? ==>
              var held := if Cleared(s) then old(journal.entries) else [];
              (w.ran == old(w.ran) + Resources(Reversed(held + w.taken[|old(w.taken)|..])) <==>
               !(DnatMade(s, !old(journal.closed)) && !WellFormed(s.dnat.value)))
    ensures !r.Acquired? && Cleared(s) ==> journal.closed
    ensures !Cleared(s) ==> journal.entries == old(journal.entries) && journal.closed == old(journal.closed)
  {
    ReversedShort(Entry("", 0), Entry("", 0));
    NoEntries(w.raises);
    LeakIff(s, !journal.closed, if Cleared(s) then journal.entries else [], w.ran, w.taken);
    hide Reversed, Resources, Failures;
    if s.preflight != Report(true) {
      return Refused(CollectError(s.preflight, Preflight));
    }
    if s.ownership != Report(true) {
      return Refused(CollectError(s.ownership, StaleOwnership));
    }
    if s.compatibility.Some? {
      return Refused(Thrown(s.compatibility.value));
    }
    if !s.isJournal {
      return Refused(InvalidJournal);
    }
    r := AcquireBoth(s, journal, w);
  }

  /** All or nothing, exactly: what a failing acquisition closed is what it took,
      in reverse, if and only if it did not end at a malformed firewall lease. */
  lemma LeakIff(s: Script, open: bool, held: seq<Entry>, ran: seq<nat>, taken: seq<Entry>)
    requires !Cleared(s) ==> held == []
    ensures ran + Resources(Undone(s, open, held)) == ran + Resources(Reversed(held + (taken + Taken(s, open))[|taken|..])) <==>
            !(DnatMade(s, open) && !WellFormed(s.dnat.value))
  {
    assert (taken + Taken(s, open))[|taken|..] == Taken(s, open);
    if DnatMade(s, open) && !WellFormed(s.dnat.value) {
      ReversedLength(held + Covered(s, open));
      ReversedLength(held + Taken(s, open));
    }
    assert held + [] == held;
    hide Reversed;
  }

  function CollectError(c: Collected, bad: StartupError): StartupError {
    match c
    case Raised(error) => Thrown(error)
    case NotAReport => InvalidReport
    case Report(_) => bad
  }

  lemma ReversedShort(a: Entry, b: Entry)
    ensures Reversed<Entry>([]) == [] && Reversed([a]) == [a] && Reversed([a, b]) == [b, a]
  {
    assert [a][..0] == [] && [a, b][..1] == [a];
    assert Reversed([a]) == [a];
  }

  lemma ReversedMore(held: seq<Entry>, e: Entry)
    ensures Reversed(held + [e]) == [e] + Reversed(held)
  {
    assert (held + [e])[..|held|] == held;
  }

  /** The try block and its handlers, up to the journaled TUN. */
  method AcquireBoth(s: Script, journal: OwnershipJournal, w: World) returns (r: Outcome)
    requires journal.Valid() && Cleared(s)
    modifies journal, w
    ensures journal.Valid()
    ensures r.Acquired? <==> Succeeds(s, !old(journal.closed))
    ensures r.Acquired? ==>
              && r == Acquired(s.tun.value, s.dnat.value) && w.ran == old(w.ran) && w.seen == old(w.seen) && !journal.closed
              && journal.entries == old(journal.entries) + [TunEntry(r.tun), LeaseEntry(r.dnat)]
    ensures !r.Acquired? ==>
              var order := Reversed(old(journal.entries) + Covered(s, !old(journal.closed)));
              && w.ran == old(w.ran) + Resources(order)
              && r == Ended(FirstError(s, !old(journal.closed)), Failures(order, w.raises))
    ensures !r.Acquired? ==> journal.closed
    ensures w.taken == old(w.taken) + Taken(s, !old(journal.closed))
  {
    hide Reversed, Failures, Resources, TunEntry, LeaseEntry;
    ghost var held := journal.entries;
    ReversedShort(Entry("", 0), Entry("", 0));
    NoEntries(w.raises);
    assert held + [] == held;
    if s.tun.Failed? {
      var failures := journal.Close(w);
      return Ended(Thrown(s.tun.error), failures);
    }
    var tun := s.tun.value;
    var entry := TunEntry(tun);
    ReversedMore(held, entry);
    TunTag(tun);
    w.Take(entry);
    var refused := journal.Defer(entry.tag, entry.resource, s.tunAppend);
    if refused.Some? {
      var failures := RollBack(journal, entry, w);
      assert [entry] + [] == [entry];
      OneResource(entry);
      return Ended(NotDeferred(refused.value), failures);
    }
    r := AcquireDnat(s, journal, w, held);
  }

  lemma TunTag(t: Tun)
    ensures TunEntry(t).tag != "" && TunEntry(t) == Entry(TunEntry(t).tag, t.resource)
  {
    assert TunEntry(t).tag[0] == 't';
  }

  lemma LeaseTag(l: Lease)
    ensures LeaseEntry(l).tag != "" && LeaseEntry(l) == Entry(LeaseEntry(l).tag, l.resource)
  {
    assert LeaseEntry(l).tag[|l.backend|] == ':';
  }

  lemma OneResource(e: Entry)
    ensures Resources([e]) == [e.resource]
  {
  }

  lemma NoEntries(raises: nat -> Option<Error>)
    ensures Failures([], raises) == [] && Resources([]) == []
  {
  }

  /** The rest of the try block, once the TUN is journaled. */
  method AcquireDnat(s: Script, journal: OwnershipJournal, w: World, ghost held: seq<Entry>) returns (r: Outcome)
    requires journal.Valid() && TunKept(s, true) && !journal.closed && journal.entries == held + [TunEntry(s.tun.value)]
    modifies journal, w
    ensures journal.Valid()
    ensures r.Acquired? <==> Succeeds(s, true)
    ensures r.Acquired? ==>
              && r == Acquired(s.tun.value, s.dnat.value) && w.ran == old(w.ran) && w.seen == old(w.seen) && !journal.closed
              && journal.entries == held + [TunEntry(r.tun), LeaseEntry(r.dnat)]
    ensures !r.Acquired? ==>
              var order := Reversed(held + Covered(s, true));
              && w.ran == old(w.ran) + Resources(order)
              && r == Ended(FirstError(s, true), Failures(order, w.raises))
    ensures w.taken == old(w.taken) + if DnatMade(s, true) then [LeaseEntry(s.dnat.value)] else []
    ensures !r.Acquired? ==> journal.closed
  {
    hide Reversed, Failures, Resources, TunEntry, LeaseEntry;
    var tun := TunEntry(s.tun.value);
    if s.identity.Some? {
      var failures := journal.Close(w);
      return Ended(Thrown(s.identity.value), failures);
    }
    if s.dnat.Failed? {
      var failures := journal.Close(w);
      return Ended(Thrown(s.dnat.error), failures);
    }
    var dnat := s.dnat.value;
    w.Take(LeaseEntry(dnat));
    if !dnat.backendIsText || dnat.name == "" {
      var failures := journal.Close(w);
      return Ended(InvalidLease, failures);
    }
    var entry := LeaseEntry(dnat);
    ReversedMore(held + [tun], entry);
    assert held + [tun] + [entry] == held + [tun, entry];
    LeaseTag(dnat);
    var refused := journal.Defer(entry.tag, entry.resource, s.dnatAppend);
    if refused.Some? {
      var failures := RollBack(journal, entry, w);
      return Ended(NotDeferred(refused.value), failures);
    }
    return Acquired(s.tun.value, dnat);
  }

  /** An acquisition whose lease comes back without a resource name takes it and
      never closes it. */
  method MalformedLeaseLeaks(process: HostedProcess.Process) returns (w: World, r: Outcome)
    ensures fresh(w) && r == Refused(InvalidLease)
    ensures |w.taken| == 2 && w.taken[1].resource == 1 && w.ran == [0]
  {
    w := new World(_ => None, process);
    var journal := new OwnershipJournal();
    var s := Malformed();
    MalformedFacts();
    hide *;
    r := Acquire(s, journal, w);
    assert [] + [0] == [0];
  }

  function Malformed(): Script {
    Script(Report(true), Report(true), None, true, Made(Tun("t", 0)), None, None, Made(Lease(true, "nft", "", 1)), None)
  }

  lemma MalformedFacts()
    ensures var s := Malformed();
            && !Succeeds(s, true) && FirstError(s, true) == InvalidLease
            && Resources(Undone(s, true, [])) == [0] && Ended(InvalidLease, Failures(Undone(s, true, []), _ => None)) == Refused(InvalidLease)
            && |[] + Taken(s, true)| == 2 && ([] + Taken(s, true))[1].resource == 1
  {
    var tun := TunEntry(Tun("t", 0));
    ReversedShort(tun, tun);
    NoFailures(tun);
    assert Covered(Malformed(), true) == [tun] && [] + [tun] == [tun];
  }

  lemma NoFailures(e: Entry)
    ensures Failures([e], _ => None) == []
  {
    FailuresOne(e, _ => None);
  }

  /** HostNetworkLease.close after a successful acquisition: the firewall lease,
      then the TUN, then whatever the journal already held. */
  method CloseLease(journal: OwnershipJournal, w: World, tun: Tun, dnat: Lease, ghost held: seq<Entry>) returns (failures: seq<Failure>)
    requires journal.Valid() && !journal.closed && journal.entries == held + [TunEntry(tun), LeaseEntry(dnat)]
    modifies journal, w`ran, w`seen
    ensures journal.closed && w.ran == old(w.ran) + [dnat.resource, tun.resource] + Resources(Reversed(held)) && Witnessed(w, old(w.seen))
    ensures failures == Failures([LeaseEntry(dnat), TunEntry(tun)] + Reversed(held), w.raises)
  {
    var a, b := TunEntry(tun), LeaseEntry(dnat);
    ReversedMore(held, a);
    ReversedMore(held + [a], b);
    assert held + [a] + [b] == held + [a, b];
    assert [b] + ([a] + Reversed(held)) == [b, a] + Reversed(held);
    ResourcesConcat([b, a], Reversed(held));
    assert Resources([b, a]) == [dnat.resource, tun.resource];
    hide Reversed, Failures, Resources;
    failures := journal.Close(w);
  }
}

/** Inspecting owned firewall resources before an acquisition. */
module OwnershipReports {
  import opened Bytes
  import opened Lists
  import opened Decimals
  import opened OwnershipMarkers
  import S = StatFields

  /** What procfs says about a pid. */
  datatype Process = Absent | Unreadable | Started(time: nat)

  /** What the inspection makes of the stat file of a pid, if there is one. */
  function Identity(file: Option<seq<Byte>>): Process {
    match file
    case None => Absent
    case Some(octets) => match S.PythonStartTime(octets)
      case None => Unreadable
      case Some(time) => Started(time)
  }

  datatype Status = Active | Stale | Malformed

  datatype Observation = Observation(resource: string, status: Status, owner: Option<Owner>)

  const OWNER_PREFIX := "tcpcc.owner."

  /** The owner is the process that is running now under its pid. */
  predicate Current(o: Owner, procs: nat -> Process) {
    procs(o.pid) == Started(o.start)
  }

  function Classify(resource: string, named: bool, comment: string, procs: nat -> Process): Observation {
    match ParseMarker(comment)
    case None => Observation(resource, Malformed, None)
    case Some(owner) =>
      if !named then Observation(resource, Malformed, None)
      else Observation(resource, if Current(owner, procs) then Active else Stale, Some(owner))
  }

  /** The property that stops an acquisition. */
  predicate Blocking(report: seq<Observation>) {
    exists i :: 0 <= i < |report| && report[i].status != Active
  }

  // ----- the order of a report -----

  /** The order of strings by code points. */
  predicate Before(a: string, b: string) {
    a == [] || (b != [] && (a[0] < b[0] || (a[0] == b[0] && Before(a[1..], b[1..]))))
  }

  lemma {:induction false} BeforeTotal(a: string, b: string)
    ensures Before(a, a) && (Before(a, b) || Before(b, a))
    ensures Before(a, b) && Before(b, a) ==> a == b
  {
    if a != [] {
      BeforeTotal(a[1..], if b == [] then [] else b[1..]);
      assert b != [] ==> a == [a[0]] + a[1..] && b == [b[0]] + b[1..];
    }
  }

  lemma {:induction false} BeforeOn(a: string, b: string, c: string)
    requires Before(a, b) && Before(b, c)
    ensures Before(a, c)
  {
    if a != [] && a[0] == b[0] && b[0] == c[0] {
      BeforeOn(a[1..], b[1..], c[1..]);
    }
  }

  ghost predicate InOrder(report: seq<Observation>) {
    forall i, j :: 0 <= i < j < |report| ==> Before(report[i].resource, report[j].resource)
  }

  /** Behind everything that does not come after it. */
  function Insert(report: seq<Observation>, o: Observation): seq<Observation> {
    if report == [] then [o]
    else
      var last := report[|report| - 1];
      if Before(last.resource, o.resource) then report + [o] else Insert(report[..|report| - 1], o) + [last]
  }

  /** The stable sort by resource name. */
  function Arrange(report: seq<Observation>): seq<Observation> {
    if report == [] then [] else Insert(Arrange(report[..|report| - 1]), report[|report| - 1])
  }

  /** The observations of one resource, in order. */
  function About(report: seq<Observation>, name: string): seq<Observation> {
    if report == [] then []
    else About(report[..|report| - 1], name) + if report[|report| - 1].resource == name then [report[|report| - 1]] else []
  }

  lemma {:induction false} InsertSorts(report: seq<Observation>, o: Observation)
    requires InOrder(report)
    ensures InOrder(Insert(report, o))
  {
    if report != [] {
      var front, last := report[..|report| - 1], report[|report| - 1];
      assert report == front + [last];
      BeforeTotal(last.resource, o.resource);
      if Before(last.resource, o.resource) {
        forall i | 0 <= i < |report| ensures Before(report[i].resource, o.resource) {
          if i < |report| - 1 {
            BeforeOn(report[i].resource, last.resource, o.resource);
          }
        }
      } else {
        InsertSorts(front, o);
        InsertKeeps(front, o);
        var inner := Insert(front, o);
        forall i | 0 <= i < |inner| ensures Before(inner[i].resource, last.resource) {
          assert inner[i] in multiset(inner);
          assert inner[i] == o || inner[i] in front;
        }
      }
    }
  }

  lemma {:induction false} InsertKeeps(report: seq<Observation>, o: Observation)
    ensures multiset(Insert(report, o)) == multiset(report) + multiset{o}
  {
    hide Before;
    if report != [] {
      var front, last := report[..|report| - 1], report[|report| - 1];
      assert report == front + [last];
      InsertKeeps(front, o);
    }
  }

  lemma {:induction false} AboutOne(report: seq<Observation>, o: Observation, name: string)
    ensures About(report + [o], name) == About(report, name) + if o.resource == name then [o] else []
  {
    assert (report + [o])[..|report|] == report;
  }

  lemma InsertBehind(report: seq<Observation>, o: Observation)
    requires report != [] && Before(report[|report| - 1].resource, o.resource)
    ensures Insert(report, o) == report + [o]
  {
  }

  lemma InsertAhead(report: seq<Observation>, o: Observation)
    requires report != [] && !Before(report[|report| - 1].resource, o.resource)
    ensures Insert(report, o) == Insert(report[..|report| - 1], o) + [report[|report| - 1]]
  {
  }

  lemma Swap<T>(a: seq<T>, b: seq<T>, c: seq<T>)
    requires b == [] || c == []
    ensures a + b + c == a + c + b
  {
    if b == [] {
      assert a + b == a && a + c + b == a + c;
    } else {
      assert a + c == a && a + b + c == a + b;
    }
  }

  lemma NamesApart(a: string, b: string)
    requires !Before(a, b)
    ensures a != b
  {
    BeforeTotal(a, b);
  }

  lemma StableAhead(front: seq<Observation>, last: Observation, o: Observation, name: string)
    requires !Before(last.resource, o.resource) && About(Insert(front, o), name) == About(front + [o], name)
    ensures About(Insert(front, o) + [last], name) == About(front + [last] + [o], name)
  {
    hide *;
    NamesApart(last.resource, o.resource);
    AboutOne(Insert(front, o), last, name);
    AboutOne(front, o, name);
    AboutOne(front, last, name);
    AboutOne(front + [last], o, name);
    Swap(About(front, name), if o.resource == name then [o] else [], if last.resource == name then [last] else []);
  }

  lemma {:induction false} InsertStable(report: seq<Observation>, o: Observation, name: string)
    ensures About(Insert(report, o), name) == About(report + [o], name)
  {
    hide About, Before;
    if report == [] {
      assert report + [o] == [o];
    } else if Before(report[|report| - 1].resource, o.resource) {
      InsertBehind(report, o);
    } else {
      var front, last := report[..|report| - 1], report[|report| - 1];
      assert report == front + [last];
      InsertAhead(report, o);
      InsertStable(front, o, name);
      StableAhead(front, last, o, name);
    }
  }

  /** Arranging sorts, keeps every observation, and keeps the order of those of
      one resource. */
  lemma {:induction false} ArrangeSorts(report: seq<Observation>, name: string)
    ensures InOrder(Arrange(report)) && multiset(Arrange(report)) == multiset(report)
    ensures About(Arrange(report), name) == About(report, name)
  {
    if report != [] {
      var front, last := report[..|report| - 1], report[|report| - 1];
      assert report == front + [last];
      ArrangeSorts(front, name);
      InsertSorts(Arrange(front), last);
      InsertKeeps(Arrange(front), last);
      InsertStable(Arrange(front), last, name);
      AboutOne(Arrange(front), last, name);
    }
  }

  lemma BlockingSame(a: seq<Observation>, b: seq<Observation>)
    requires multiset(a) == multiset(b)
    ensures Blocking(a) ==> Blocking(b)
  {
    if Blocking(a) {
      var i :| 0 <= i < |a| && a[i].status != Active;
      assert a[i] in multiset(b);
    }
  }

  /** An installed marker is classified by its owner alone. */
  lemma ClassifyInstalled(resource: string, o: Owner, procs: nat -> Process)
    requires Readable(o)
    ensures Classify(resource, true, Marker(o), procs)
         == Observation(resource, if Current(o, procs) then Active else Stale, Some(o))
  {
    hide Marker, ParseMarker, Readable;
    MarkerRoundTrip(Marker(o), o);
  }

  /** A marker of the process that is running under its pid is found active if
      and only if that process's command name is ASCII. */
  lemma RunningOwnerActiveIff(resource: string, o: Owner, command: seq<Byte>, fields: seq<string>, procs: nat -> Process)
    requires Readable(o) && S.PlainFields(fields) && |fields| >= 20 && fields[19] == Numeral(o.start) && o.start >= 1
    requires procs(o.pid) == Identity(Some(S.StatLine(o.pid, command, fields)))
    ensures Classify(resource, true, Marker(o), procs).status == (if S.Ascii(command) then Active else Stale)
  {
    hide Marker, ParseMarker, Readable, Classify, S.StatLine, S.PythonStartTime, S.PlainFields, Numeral;
    ClassifyInstalled(resource, o, procs);
    S.PythonReads(o.pid, command, fields, o.start);
  }

  /** The marker names the process that is running under its pid. */
  predicate Owned(comment: string, procs: nat -> Process) {
    ParseMarker(comment).Some? && Current(ParseMarker(comment).value, procs)
  }

  lemma ActiveIff(resource: string, named: bool, comment: string, procs: nat -> Process)
    ensures Classify(resource, named, comment, procs).status == Active <==> named && Owned(comment, procs)
  {
    hide ParseMarker, Current;
  }

  lemma OwnedIff(o: Owner, procs: nat -> Process)
    requires Readable(o)
    ensures Owned(Marker(o), procs) <==> Current(o, procs)
  {
    hide Marker, ParseMarker, Readable;
    MarkerRoundTrip(Marker(o), o);
  }

  // ----- nftables -----

  datatype NftEntry = NotARule | Rule(family: string, table: Option<string>, comment: Option<string>)

  predicate NftTableName(s: string) {
    && 1 <= |s| <= 32 && 'a' <= s[0] <= 'z'
    && forall i :: 1 <= i < |s| ==> 'a' <= s[i] <= 'z' || '0' <= s[i] <= '9' || s[i] == '_'
  }

  predicate NftMarked(e: NftEntry, family: string) {
    e.Rule? && e.family == family && e.comment.Some? && OWNER_PREFIX <= e.comment.value
  }

  function NftObservation(e: NftEntry, procs: nat -> Process): Observation
    requires e.Rule? && e.comment.Some?
  {
    var name := if e.table.Some? then e.table.value else "malformed";
    Classify(name, e.table.Some? && NftTableName(e.table.value), e.comment.value, procs)
  }

  /** The observations of the marked rules, in ruleset order. */
  function NftObservations(entries: seq<NftEntry>, family: string, procs: nat -> Process): seq<Observation> {
    if entries == [] then []
    else
      var rest, last := NftObservations(entries[..|entries| - 1], family, procs), entries[|entries| - 1];
      if NftMarked(last, family) then rest + [NftObservation(last, procs)] else rest
  }

  /** inspect_nft_ownership after the ruleset was parsed. */
  method InspectNft(entries: seq<NftEntry>, family: string, procs: nat -> Process) returns (report: seq<Observation>)
    ensures report == Arrange(NftObservations(entries, family, procs))
  {
    report := [];
    var i := 0;
    while i < |entries|
      invariant 0 <= i <= |entries| && report == NftObservations(entries[..i], family, procs)
    {
      assert entries[..i + 1][..i] == entries[..i];
      var e := entries[i];
      i := i + 1;
      if !e.Rule? || e.family != family {
        continue;
      }
      if e.comment.None? || !(OWNER_PREFIX <= e.comment.value) {
        continue;
      }
      report := report + [NftObservation(e, procs)];
    }
    assert entries[..i] == entries;
    report := Arrange(report);
  }

  lemma {:induction false} NftObserved(entries: seq<NftEntry>, family: string, procs: nat -> Process)
    ensures Blocking(NftObservations(entries, family, procs)) <==>
            exists i :: 0 <= i < |entries| && NftMarked(entries[i], family) && NftObservation(entries[i], procs).status != Active
  {
    hide Classify, NftTableName;
    if entries != [] {
      var front, last := entries[..|entries| - 1], entries[|entries| - 1];
      NftObserved(front, family, procs);
      var rest := NftObservations(front, family, procs);
      assert forall i :: 0 <= i < |front| ==> front[i] == entries[i];
      if NftMarked(last, family) {
        BlockingGrows(rest, NftObservation(last, procs));
      }
    }
  }

  lemma BlockingGrows(report: seq<Observation>, o: Observation)
    ensures Blocking(report + [o]) <==> Blocking(report) || o.status != Active
  {
    var grown := report + [o];
    assert grown[|report|] == o;
    assert forall i :: 0 <= i < |report| ==> grown[i] == report[i];
  }

  /** A marked rule that does not block. */
  predicate NftSound(e: NftEntry, procs: nat -> Process)
    requires e.Rule? && e.comment.Some?
  {
    e.table.Some? && NftTableName(e.table.value) && Owned(e.comment.value, procs)
  }

  /** The report blocks exactly when some marked rule is in a table without a
      proper name, has a marker that cannot be read, or has an owner that is
      gone, unreadable, or whose pid was reused. */
  lemma NftBlocksIff(entries: seq<NftEntry>, family: string, procs: nat -> Process)
    ensures Blocking(Arrange(NftObservations(entries, family, procs))) <==>
            exists i :: 0 <= i < |entries| && NftMarked(entries[i], family) && !NftSound(entries[i], procs)
  {
    ArrangeSorts(NftObservations(entries, family, procs), "");
    BlockingSame(NftObservations(entries, family, procs), Arrange(NftObservations(entries, family, procs)));
    BlockingSame(Arrange(NftObservations(entries, family, procs)), NftObservations(entries, family, procs));
    hide Arrange, InOrder, About;
    NftObserved(entries, family, procs);
    forall i | 0 <= i < |entries| && NftMarked(entries[i], family)
      ensures NftObservation(entries[i], procs).status != Active <==> !NftSound(entries[i], procs)
    {
      hide Classify, NftTableName, Owned;
      var e := entries[i];
      ActiveIff(if e.table.Some? then e.table.value else "malformed", e.table.Some? && NftTableName(e.table.value), e.comment.value, procs);
    }
    hide NftMarked, NftObservation, NftObservations, Blocking, NftSound;
  }

  /** The marked rules are those of installed instances. */
  ghost predicate NftInstalled(entries: seq<NftEntry>, family: string, owner: nat -> Owner) {
    forall i {:trigger owner(i)} :: 0 <= i < |entries| && NftMarked(entries[i], family) ==>
      && Readable(owner(i)) && entries[i].comment == Some(Marker(owner(i)))
      && entries[i].table.Some? && NftTableName(entries[i].table.value)
  }

  /** Over installed instances it blocks exactly when an owner is not current. */
  lemma NftInstalledBlocksIff(entries: seq<NftEntry>, family: string, owner: nat -> Owner, procs: nat -> Process)
    requires NftInstalled(entries, family, owner)
    ensures Blocking(Arrange(NftObservations(entries, family, procs))) <==>
            exists i :: 0 <= i < |entries| && NftMarked(entries[i], family) && !Current(owner(i), procs)
  {
    hide Arrange, InOrder, About, NftObservations, Blocking, Marker, Readable, NftTableName, Current, Owned;
    NftBlocksIff(entries, family, procs);
    forall i | 0 <= i < |entries| && NftMarked(entries[i], family)
      ensures !NftSound(entries[i], procs) <==> !Current(owner(i), procs)
    {
      OwnedIff(owner(i), procs);
    }
    hide NftMarked, NftSound, NftInstalled;
  }

  // ----- iptables -----

  /** A line of iptables-save output, as far as the inspection looks at it. */
  datatype SaveLine = ChainLine(name: string) | RuleLine(chain: string, comment: Option<string>) | OtherLine

  predicate ChainName(s: string) {
    && 1 <= |s| <= 28 && ('A' <= s[0] <= 'Z' || 'a' <= s[0] <= 'z')
    && forall i :: 1 <= i < |s| ==>
         'A' <= s[i] <= 'Z' || 'a' <= s[i] <= 'z' || '0' <= s[i] <= '9' || s[i] == '_' || s[i] == '-'
  }

  /** Generated chain names. */
  predicate OwnedChain(s: string) {
    && |s| == 18 && "TCPCC_" <= s
    && forall i :: 6 <= i < |s| ==> '0' <= s[i] <= '9' || 'a' <= s[i] <= 'f'
  }

  /** The ownership markers on the rules of a chain, in order. */
  function MarkersOf(lines: seq<SaveLine>, chain: string): seq<string> {
    if lines == [] then []
    else
      var rest, last := MarkersOf(lines[..|lines| - 1], chain), lines[|lines| - 1];
      if last.RuleLine? && last.chain == chain && last.comment.Some? && OWNER_PREFIX <= last.comment.value
      then rest + [last.comment.value] else rest
  }

  predicate Reserved(lines: seq<SaveLine>, chain: string) {
    OwnedChain(chain) && ChainLine(chain) in lines
  }

  predicate Tracked(lines: seq<SaveLine>, chain: string) {
    Reserved(lines, chain) || MarkersOf(lines, chain) != []
  }

  function IptablesObservation(chain: string, markers: seq<string>, procs: nat -> Process): Observation {
    if |markers| != 1 then Observation(chain, Malformed, None)
    else Classify(if ChainName(chain) then chain else "malformed", ChainName(chain), markers[0], procs)
  }

  /** The first loop of inspect_ownership. */
  method CollectMarkers(lines: seq<SaveLine>) returns (reserved: set<string>, markers: map<string, seq<string>>)
    ensures forall c :: c in reserved <==> Reserved(lines, c)
    ensures forall c :: c in markers <==> MarkersOf(lines, c) != []
    ensures forall c :: c in markers ==> markers[c] == MarkersOf(lines, c)
  {
    reserved, markers := {}, map[];
    var i := 0;
    while i < |lines|
      invariant 0 <= i <= |lines|
      invariant forall c :: c in reserved <==> Reserved(lines[..i], c)
      invariant forall c :: c in markers <==> MarkersOf(lines[..i], c) != []
      invariant forall c :: c in markers ==> markers[c] == MarkersOf(lines[..i], c)
    {
      assert lines[..i + 1][..i] == lines[..i] && lines[..i + 1] == lines[..i] + [lines[i]];
      match lines[i] {
        case ChainLine(name) =>
          if OwnedChain(name) {
            reserved := reserved + {name};
          }
        case RuleLine(chain, comment) =>
          if comment.Some? && OWNER_PREFIX <= comment.value {
            markers := markers[chain := (if chain in markers then markers[chain] else []) + [comment.value]];
          }
        case OtherLine =>
      }
      i := i + 1;
    }
    assert lines[..i] == lines;
  }

  /** The report is one observation for each of the chains, in order. */
  predicate ReportOf(report: seq<Observation>, chains: seq<string>, lines: seq<SaveLine>, procs: nat -> Process) {
    && |report| == |chains|
    && forall i :: 0 <= i < |report| ==> report[i] == IptablesObservation(chains[i], MarkersOf(lines, chains[i]), procs)
  }

  /** The chains are the tracked ones but the pending, strictly in order and all
      before those. */
  ghost predicate Listed(chains: seq<string>, pending: set<string>, lines: seq<SaveLine>) {
    && (forall c :: Tracked(lines, c) <==> c in chains || c in pending)
    && (forall i, j :: 0 <= i < j < |chains| ==> Before(chains[i], chains[j]) && chains[i] != chains[j])
    && (forall i, c :: 0 <= i < |chains| && c in pending ==> Before(chains[i], c) && chains[i] != c)
  }

  lemma ListedStep(chains: seq<string>, pending: set<string>, lines: seq<SaveLine>, c: string)
    requires Listed(chains, pending, lines) && c in pending && forall d :: d in pending ==> Before(c, d)
    ensures Listed(chains + [c], pending - {c}, lines)
  {
    hide Tracked, Before;
    var grown := chains + [c];
    assert forall d :: d in grown <==> d in chains || d == c;
  }

  /** The first of a set of strings. */
  method Least(names: set<string>) returns (least: string)
    requires names != {}
    ensures least in names && forall d :: d in names ==> Before(least, d)
  {
    least :| least in names;
    var rest := names - {least};
    BeforeTotal(least, least);
    while rest != {}
      invariant rest <= names && least in names && forall d :: d in names - rest ==> Before(least, d)
      decreases |rest|
    {
      var c :| c in rest;
      rest := rest - {c};
      BeforeTotal(least, c);
      BeforeTotal(c, c);
      if !Before(least, c) {
        forall d | d in names - rest ensures Before(c, d) {
          if d != c {
            BeforeOn(c, least, d);
          }
        }
        least := c;
      }
    }
  }

  lemma NoneListed(reserved: set<string>, markers: map<string, seq<string>>, lines: seq<SaveLine>)
    requires forall c :: c in reserved <==> Reserved(lines, c)
    requires forall c :: c in markers <==> MarkersOf(lines, c) != []
    requires forall c :: c in markers ==> markers[c] == MarkersOf(lines, c)
    ensures Listed([], reserved + markers.Keys, lines)
    ensures forall c :: c in reserved + markers.Keys ==> (if c in markers then markers[c] else []) == MarkersOf(lines, c)
  {
    hide Reserved, MarkersOf;
  }

  lemma NoReport(lines: seq<SaveLine>, procs: nat -> Process)
    ensures ReportOf([], [], lines, procs)
  {
  }

  lemma ReportStep(report: seq<Observation>, chains: seq<string>, lines: seq<SaveLine>, procs: nat -> Process, c: string)
    requires ReportOf(report, chains, lines, procs)
    ensures ReportOf(report + [IptablesObservation(c, MarkersOf(lines, c), procs)], chains + [c], lines, procs)
  {
    hide MarkersOf, IptablesObservation;
  }

  /** inspect_ownership of the iptables backend. */
  method InspectIptables(lines: seq<SaveLine>, procs: nat -> Process) returns (report: seq<Observation>, ghost chains: seq<string>)
    ensures ReportOf(report, chains, lines, procs) && Listed(chains, {}, lines)
  {
    var reserved, markers := CollectMarkers(lines);
    report, chains := [], [];
    var pending := reserved + markers.Keys;
    NoneListed(reserved, markers, lines);
    hide *;
    NoReport(lines, procs);
    while pending != {}
      invariant Listed(chains, pending, lines) && ReportOf(report, chains, lines, procs)
      invariant forall c :: c in pending ==> (if c in markers then markers[c] else []) == MarkersOf(lines, c)
      decreases |pending|
    {
      var c := Least(pending);
      ListedStep(chains, pending, lines, c);
      ReportStep(report, chains, lines, procs, c);
      report := report + [IptablesObservation(c, if c in markers then markers[c] else [], procs)];
      chains := chains + [c];
      pending := pending - {c};
    }
  }

  /** A tracked chain that does not block: one marker, on a chain with a proper
      name, of a process that is running. */
  predicate IptablesSound(lines: seq<SaveLine>, chain: string, procs: nat -> Process) {
    |MarkersOf(lines, chain)| == 1 && ChainName(chain) && Owned(MarkersOf(lines, chain)[0], procs)
  }

  /** The report blocks exactly when some tracked chain is not sound. */
  lemma IptablesBlocksIff(report: seq<Observation>, chains: seq<string>, lines: seq<SaveLine>, procs: nat -> Process)
    requires ReportOf(report, chains, lines, procs) && Listed(chains, {}, lines)
    ensures Blocking(report) <==> exists c :: Tracked(lines, c) && !IptablesSound(lines, c, procs)
  {
    forall i | 0 <= i < |report|
      ensures Tracked(lines, chains[i]) && (report[i].status != Active <==> !IptablesSound(lines, chains[i], procs))
    {
      var c := chains[i];
      assert Tracked(lines, c);
      hide Classify, Owned, Tracked, ChainName;
      if |MarkersOf(lines, c)| == 1 {
        ActiveIff(if ChainName(c) then c else "malformed", ChainName(c), MarkersOf(lines, c)[0], procs);
      }
    }
    hide Tracked, MarkersOf, IptablesObservation, IptablesSound, Before;
    forall c | Tracked(lines, c) && !IptablesSound(lines, c, procs) ensures Blocking(report) {
      var i :| 0 <= i < |chains| && chains[i] == c;
      assert report[i].status != Active;
    }
  }

  /** The tracked chains are those of installed instances: one marker each. */
  ghost predicate IptablesInstalled(lines: seq<SaveLine>, owner: string -> Owner) {
    forall c :: Tracked(lines, c) ==> ChainName(c) && Readable(owner(c)) && MarkersOf(lines, c) == [Marker(owner(c))]
  }

  lemma IptablesInstalledBlocksIff(report: seq<Observation>, chains: seq<string>, lines: seq<SaveLine>, owner: string -> Owner, procs: nat -> Process)
    requires ReportOf(report, chains, lines, procs) && Listed(chains, {}, lines) && IptablesInstalled(lines, owner)
    ensures Blocking(report) <==> exists c :: Tracked(lines, c) && !Current(owner(c), procs)
  {
    hide ReportOf, Listed, Blocking, Tracked, MarkersOf, ChainName, Readable, Marker, Owned, Current;
    IptablesBlocksIff(report, chains, lines, procs);
    forall c | Tracked(lines, c) ensures !IptablesSound(lines, c, procs) <==> !Current(owner(c), procs) {
      OwnedIff(owner(c), procs);
    }
    hide IptablesSound, IptablesInstalled;
  }

  // ----- what the native supervisor leaves in the table -----

  const PREROUTING := "PREROUTING"

  /** The lines of one instance with these routes' chains.  The marker is on each
      chain's rule and on the jump to it. */
  function NativeLines(routes: seq<string>, marker: string): seq<SaveLine> {
    if routes == [] then []
    else
      var c := routes[|routes| - 1];
      NativeLines(routes[..|routes| - 1], marker)
      + [ChainLine(c), RuleLine(c, Some(marker)), RuleLine(PREROUTING, Some(marker))]
  }

  lemma MarkersOne(lines: seq<SaveLine>, line: SaveLine, c: string)
    ensures MarkersOf(lines + [line], c) ==
            MarkersOf(lines, c) + if line.RuleLine? && line.chain == c && line.comment.Some? && OWNER_PREFIX <= line.comment.value
                                  then [line.comment.value] else []
  {
    assert (lines + [line])[..|lines|] == lines;
  }

  lemma MarkersThree(lines: seq<SaveLine>, chain: string, marker: string, c: string)
    requires OWNER_PREFIX <= marker
    ensures MarkersOf(lines + [ChainLine(chain), RuleLine(chain, Some(marker)), RuleLine(PREROUTING, Some(marker))], c) ==
            MarkersOf(lines, c) + (if c == chain then [marker] else []) + if c == PREROUTING then [marker] else []
  {
    var one := lines + [ChainLine(chain)];
    var two := one + [RuleLine(chain, Some(marker))];
    assert lines + [ChainLine(chain), RuleLine(chain, Some(marker)), RuleLine(PREROUTING, Some(marker))]
        == two + [RuleLine(PREROUTING, Some(marker))];
    hide MarkersOf;
    MarkersOne(lines, ChainLine(chain), c);
    MarkersOne(one, RuleLine(chain, Some(marker)), c);
    MarkersOne(two, RuleLine(PREROUTING, Some(marker)), c);
  }

  /** Each chain has one marker, and PREROUTING one for each. */
  lemma {:induction false} NativeMarkers(routes: seq<string>, marker: string, c: string)
    requires OWNER_PREFIX <= marker && NoDup(routes) && PREROUTING !in routes
    ensures c != PREROUTING ==> MarkersOf(NativeLines(routes, marker), c) == if c in routes then [marker] else []
    ensures |MarkersOf(NativeLines(routes, marker), PREROUTING)| == |routes|
    ensures |routes| == 1 ==> MarkersOf(NativeLines(routes, marker), PREROUTING) == [marker]
  {
    if routes != [] {
      var front, last := routes[..|routes| - 1], routes[|routes| - 1];
      assert routes == front + [last];
      NativeMarkers(front, marker, c);
      MarkersThree(NativeLines(front, marker), last, marker, c);
      MarkersThree(NativeLines(front, marker), last, marker, PREROUTING);
      assert last !in front;
      hide MarkersOf;
    }
  }

  lemma {:induction false} NativeChains(routes: seq<string>, marker: string, c: string)
    ensures ChainLine(c) in NativeLines(routes, marker) <==> c in routes
  {
    if routes != [] {
      var front, last := routes[..|routes| - 1], routes[|routes| - 1];
      assert routes == front + [last];
      NativeChains(front, marker, c);
    }
  }

  lemma NativeSound(routes: seq<string>, marker: string, procs: nat -> Process, c: string)
    requires NoDup(routes) && PREROUTING !in routes && OWNER_PREFIX <= marker && Owned(marker, procs)
    requires forall r :: r in routes ==> OwnedChain(r)
    ensures c != PREROUTING && Tracked(NativeLines(routes, marker), c) ==> IptablesSound(NativeLines(routes, marker), c, procs)
    ensures Tracked(NativeLines(routes, marker), PREROUTING) <==> routes != []
    ensures IptablesSound(NativeLines(routes, marker), PREROUTING, procs) <==> |routes| == 1
  {
    hide Owned, NativeLines, MarkersOf, OwnedChain, ChainName;
    NativeMarkers(routes, marker, c);
    NativeChains(routes, marker, c);
    NativeChains(routes, marker, PREROUTING);
    if c in routes {
      OwnedIsName(c);
    }
    PreroutingName();
  }

  /** A running native instance alone in the table blocks every start if and only
      if it has two routes or more: its jumps give PREROUTING several markers. */
  lemma NativeBlocksIff(report: seq<Observation>, chains: seq<string>, routes: seq<string>, o: Owner, procs: nat -> Process)
    requires NoDup(routes) && PREROUTING !in routes && Readable(o) && Current(o, procs)
    requires forall c :: c in routes ==> OwnedChain(c)
    requires ReportOf(report, chains, NativeLines(routes, Marker(o)), procs) && Listed(chains, {}, NativeLines(routes, Marker(o)))
    ensures Blocking(report) <==> |routes| >= 2
  {
    hide *;
    MarkerPrefix(o);
    OwnedIff(o, procs);
    var lines := NativeLines(routes, Marker(o));
    IptablesBlocksIff(report, chains, lines, procs);
    forall c | Tracked(lines, c) && !IptablesSound(lines, c, procs) ensures |routes| >= 2 {
      NativeSound(routes, Marker(o), procs, c);
      if c == PREROUTING && routes == [] {
        assert false;
      }
    }
    NativeSound(routes, Marker(o), procs, PREROUTING);
  }

  lemma PreroutingName()
    ensures ChainName(PREROUTING)
  {
  }

  lemma OwnedIsName(c: string)
    requires OwnedChain(c)
    ensures ChainName(c)
  {
    assert c[0] == 'T' && c[..6] == "TCPCC_";
    assert forall i :: 0 <= i < 6 ==> c[i] == "TCPCC_"[i];
  }

  lemma MarkerPrefix(o: Owner)
    ensures OWNER_PREFIX <= Marker(o)
  {
  }

  /** The inspection of a table with the two routes of a running owner. */
  method TwoRoutesBlock(o: Owner, procs: nat -> Process) returns (report: seq<Observation>)
    requires Readable(o) && Current(o, procs)
    ensures Blocking(report)
  {
    var routes := ["TCPCC_000000000000", "TCPCC_000000000001"];
    ghost var chains;
    hide Marker, Readable, Current, NativeLines, ReportOf, Listed, Blocking;
    report, chains := InspectIptables(NativeLines(routes, Marker(o)), procs);
    NativeBlocksIff(report, chains, routes, o, procs);
  }
}

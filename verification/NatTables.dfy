/** The iptables firewall backend over an abstract nat table: a private chain
    holding the DNAT rule and one jump to it from PREROUTING. */
module NatTables {
  import opened Lists

  /** A rule jumps to a chain of the table or names a target extension. */
  datatype Target = Chain(name: string) | Extension(name: string)

  datatype Rule = Rule(matches: seq<string>, target: Target)

  /** Chain names and their rules, in order. */
  type Table = map<string, seq<Rule>>

  const PREROUTING := "PREROUTING"

  predicate BuiltIn(chain: string) {
    chain in ["PREROUTING", "INPUT", "OUTPUT", "POSTROUTING"]
  }

  predicate Jumps(rules: seq<Rule>, chain: string) {
    exists i :: 0 <= i < |rules| && rules[i].target == Chain(chain)
  }

  predicate Referenced(t: Table, chain: string) {
    exists c :: c in t && Jumps(t[c], chain)
  }

  /** The kernel's own rule: every jump leads to a chain of the table. */
  ghost predicate WellFormed(t: Table) {
    PREROUTING in t && forall name :: Referenced(t, name) ==> name in t
  }

  datatype Command =
    | NewChain(chain: string)
    | Restore(chain: string, dnat: Rule, jump: Rule)      // one atomic batch
    | Append(chain: string, rule: Rule)
    | DeleteJump(jump: Rule)
    | Flush(chain: string)
    | DeleteChain(chain: string)

  /** The table after a command, or nothing when the command is an error. */
  function Apply(t: Table, command: Command): Option<Table> {
    match command
    case NewChain(c) => if c in t then None else Some(t[c := []])
    case Restore(c, dnat, jump) =>
      if c !in t || PREROUTING !in t || c == PREROUTING then None
      else Some(t[c := t[c] + [dnat]][PREROUTING := t[PREROUTING] + [jump]])
    case Append(c, rule) =>
      if c !in t || (rule.target.Chain? && rule.target.name !in t) then None else Some(t[c := t[c] + [rule]])
    case DeleteJump(jump) =>
      if PREROUTING !in t || jump !in t[PREROUTING] then None
      else Some(t[PREROUTING := Remove(t[PREROUTING], jump)])
    case Flush(c) => if c !in t then None else Some(t[c := []])
    case DeleteChain(c) =>
      if c !in t || t[c] != [] || Referenced(t, c) || BuiltIn(c) then None else Some(t - {c})
  }

  /** What the runner does with a command: run it, fail before it, or fail after
      it took effect. */
  datatype Fate = Runs | FailsBefore | FailsAfter

  /** The table in the kernel; the n-th command has the n-th fate. */
  class Firewall {
    var table: Table
    var commands: nat
    const fate: nat -> Fate

    constructor (table: Table, fate: nat -> Fate)
      ensures this.table == table && commands == 0 && this.fate == fate
    {
      this.table, this.commands, this.fate := table, 0, fate;
    }

    method Run(command: Command) returns (ok: bool)
      modifies this`table, this`commands
      ensures commands == old(commands) + 1
      ensures ok == Succeeds(old(table), command, fate(old(commands)))
      ensures table == After(old(table), command, fate(old(commands)))
    {
      var f := fate(commands);
      commands := commands + 1;
      var outcome := Apply(table, command);
      if f != FailsBefore && outcome.Some? {
        table := outcome.value;
      }
      ok := f == Runs && outcome.Some?;
    }
  }

  predicate Succeeds(t: Table, command: Command, fate: Fate) {
    fate == Runs && Apply(t, command).Some?
  }

  function After(t: Table, command: Command, fate: Fate): Table {
    if fate != FailsBefore && Apply(t, command).Some? then Apply(t, command).value else t
  }

  /** The jump and DNAT rules of one instance: only the jump names the chain. */
  predicate RulesFor(chain: string, dnat: Rule, jump: Rule) {
    jump.target == Chain(chain) && dnat.target == Extension("DNAT")
  }

  datatype Installed =
    | Lease(chain: string, jump: Rule)
    | ChainNotCreated
    | NotInstalled                                        // the restore failed, the rollback worked
    | RollbackFailed(flushFailed: bool, deleteFailed: bool)

  /** The tables the rollback leaves, from the table after the failed batch. */
  function Flushed(t: Table, chain: string, fate: nat -> Fate, from: nat): Table {
    After(t, Flush(chain), fate(from))
  }

  function Undone(t: Table, chain: string, fate: nat -> Fate, from: nat): Table {
    After(Flushed(t, chain, fate, from), DeleteChain(chain), fate(from + 1))
  }

  /** IptablesFirewallBackend.install, once the chain name was validated: its
      result and the table, for every fate of every command; and when a failing
      install leaves a well-formed table as it was. */
  method Install(f: Firewall, chain: string, dnat: Rule, jump: Rule) returns (r: Installed)
    requires RulesFor(chain, dnat, jump)
    modifies f
    ensures var t, n := old(f.table), old(f.commands);
            var created := Succeeds(t, NewChain(chain), f.fate(n));
            var batch := After(t[chain := []], Restore(chain, dnat, jump), f.fate(n + 1));
            && (r.ChainNotCreated? <==> !created)
            && (r.Lease? <==> created && Succeeds(t[chain := []], Restore(chain, dnat, jump), f.fate(n + 1)))
            && (r.ChainNotCreated? ==> f.table == After(t, NewChain(chain), f.fate(n)))
            && (r.Lease? ==> r == Lease(chain, jump) && PREROUTING in t && f.table == Carrying(t, chain, dnat, jump))
            && (r.NotInstalled? || r.RollbackFailed? ==>
                  && f.table == Undone(batch, chain, f.fate, n + 2)
                  && var flushed := Succeeds(batch, Flush(chain), f.fate(n + 2));
                     var deleted := Succeeds(Flushed(batch, chain, f.fate, n + 2), DeleteChain(chain), f.fate(n + 3));
                     r == if flushed && deleted then NotInstalled else RollbackFailed(!flushed, !deleted))
    ensures WellFormed(old(f.table)) && !BuiltIn(chain) && !r.Lease? ==>
              (f.table == old(f.table) <==> LeavesNothing(old(f.table), chain, f.fate, old(f.commands)))
  {
    var ok := f.Run(NewChain(chain));
    if !ok {
      return ChainNotCreated;
    }
    ghost var t, n := old(f.table), old(f.commands);
    ok := f.Run(Restore(chain, dnat, jump));
    if ok {
      RestoreCarries(t, chain, dnat, jump);
      return Lease(chain, jump);
    }
    if WellFormed(t) && !BuiltIn(chain) {
      UndoneIff(t, chain, dnat, jump, f.fate, n);
    }
    hide Apply, WellFormed, BuiltIn;
    var flushed := f.Run(Flush(chain));
    var deleted := f.Run(DeleteChain(chain));
    if flushed && deleted {
      return NotInstalled;
    }
    return RollbackFailed(!flushed, !deleted);
  }

  /** What decides whether a failing install can be seen afterwards: a chain that
      was not created must not have been created late; otherwise the batch must
      not have taken effect and the deletion must have. */
  predicate LeavesNothing(t: Table, chain: string, fate: nat -> Fate, n: nat) {
    if chain in t || fate(n) != Runs then chain in t || fate(n) == FailsBefore
    else fate(n + 1) != FailsAfter && fate(n + 3) != FailsBefore
  }

  lemma UndoneIff(t: Table, chain: string, dnat: Rule, jump: Rule, fate: nat -> Fate, n: nat)
    requires WellFormed(t) && !BuiltIn(chain) && RulesFor(chain, dnat, jump) && chain !in t && fate(n) == Runs
    requires !Succeeds(t[chain := []], Restore(chain, dnat, jump), fate(n + 1))
    ensures Undone(After(t[chain := []], Restore(chain, dnat, jump), fate(n + 1)), chain, fate, n + 2) == t <==>
            LeavesNothing(t, chain, fate, n)
  {
    var created := t[chain := []];
    assert Apply(created, Restore(chain, dnat, jump)).Some?;
    NoDangling(t, chain);
    StillUnreferenced(t, chain);
    if fate(n + 1) == FailsAfter {
      var batch := After(created, Restore(chain, dnat, jump), FailsAfter);
      StaysReferenced(batch, chain, jump, fate, n + 2);
    } else {
      EmptyChainGoes(t, chain, fate, n + 2);
    }
  }

  /** A chain something jumps to survives the rollback. */
  lemma StaysReferenced(t: Table, chain: string, jump: Rule, fate: nat -> Fate, from: nat)
    requires chain in t && chain != PREROUTING && PREROUTING in t && jump in t[PREROUTING] && jump.target == Chain(chain)
    ensures chain in Undone(t, chain, fate, from)
    ensures !Succeeds(Flushed(t, chain, fate, from), DeleteChain(chain), fate(from + 1))
  {
    var u := Flushed(t, chain, fate, from);
    assert u[PREROUTING] == t[PREROUTING];
    MemberJumps(u[PREROUTING], jump);
    assert Referenced(u, chain);
  }

  /** An empty chain nothing jumps to goes, unless its deletion is not run. */
  lemma EmptyChainGoes(t: Table, chain: string, fate: nat -> Fate, from: nat)
    requires chain !in t && !BuiltIn(chain) && !Referenced(t[chain := []], chain)
    ensures Undone(t[chain := []], chain, fate, from) == (if fate(from + 1) == FailsBefore then t[chain := []] else t)
  {
    assert t[chain := []][chain := []] == t[chain := []];
    assert Flushed(t[chain := []], chain, fate, from) == t[chain := []];
    assert t[chain := []] - {chain} == t;
  }

  /** The table with an instance installed. */
  function Carrying(t: Table, chain: string, dnat: Rule, jump: Rule): Table
    requires PREROUTING in t
  {
    t[chain := [dnat]][PREROUTING := t[PREROUTING] + [jump]]
  }

  /** A chain that is not in a well-formed table is not referenced either. */
  lemma NoDangling(t: Table, chain: string)
    requires WellFormed(t) && chain !in t
    ensures !Referenced(t, chain)
  {
  }

  /** When the rollback's deletion succeeds the table is what it was, even if
      the batch failed late and whatever the table looked like. */
  lemma RollbackRestores(t: Table, chain: string, dnat: Rule, jump: Rule, fate: nat -> Fate, n: nat)
    requires RulesFor(chain, dnat, jump) && chain !in t
    requires !Succeeds(t[chain := []], Restore(chain, dnat, jump), fate(n + 1))
    requires var batch := After(t[chain := []], Restore(chain, dnat, jump), fate(n + 1));
             Succeeds(Flushed(batch, chain, fate, n + 2), DeleteChain(chain), fate(n + 3))
    ensures Undone(After(t[chain := []], Restore(chain, dnat, jump), fate(n + 1)), chain, fate, n + 2) == t
  {
    var created := t[chain := []];
    var batch := After(created, Restore(chain, dnat, jump), fate(n + 1));
    if batch != created {
      StaysReferenced(batch, chain, jump, fate, n + 2);
    } else {
      assert created[chain := []] == created;
      assert created - {chain} == t;
    }
  }

  lemma RestoreCarries(t: Table, chain: string, dnat: Rule, jump: Rule)
    requires chain !in t && Apply(t[chain := []], Restore(chain, dnat, jump)).Some?
    ensures PREROUTING in t && Apply(t[chain := []], Restore(chain, dnat, jump)).value == Carrying(t, chain, dnat, jump)
  {
    assert [] + [dnat] == [dnat];
    assert t[chain := []][chain := [dnat]] == t[chain := [dnat]];
  }

  // ----- removing an instance -----

  /** The commands of IptablesDnatLease.close, in order. */
  function Closing(chain: string, jump: Rule): seq<Command> {
    [DeleteJump(jump), Flush(chain), DeleteChain(chain)]
  }

  /** The table after the first n commands, from the given fates. */
  function Closed(t: Table, commands: seq<Command>, fate: nat -> Fate, from: nat): Table {
    if commands == [] then t
    else After(Closed(t, commands[..|commands| - 1], fate, from), commands[|commands| - 1], fate(from + |commands| - 1))
  }

  /** Which of the commands fail. */
  function ClosingFailures(t: Table, commands: seq<Command>, fate: nat -> Fate, from: nat): seq<Command> {
    if commands == [] then []
    else
      var rest, last := commands[..|commands| - 1], commands[|commands| - 1];
      ClosingFailures(t, rest, fate, from)
      + if Succeeds(Closed(t, rest, fate, from), last, fate(from + |commands| - 1)) then [] else [last]
  }

  class IptablesDnatLease {
    const chain: string
    const jump: Rule
    var closed: bool

    constructor (chain: string, jump: Rule)
      ensures this.chain == chain && this.jump == jump && !closed
    {
      this.chain, this.jump, closed := chain, jump, false;
    }

    /** Runs the three commands in order whatever each of them does, once. */
    method Close(f: Firewall) returns (failures: seq<Command>)
      modifies this`closed, f
      ensures closed
      ensures old(closed) ==> f.table == old(f.table) && f.commands == old(f.commands) && failures == []
      ensures !old(closed) ==>
                && f.commands == old(f.commands) + 3
                && f.table == Closed(old(f.table), Closing(chain, jump), f.fate, old(f.commands))
                && failures == ClosingFailures(old(f.table), Closing(chain, jump), f.fate, old(f.commands))
    {
      failures := [];
      if closed {
        return;
      }
      closed := true;
      failures := RunAll(f, Closing(chain, jump));
    }
  }

  /** Runs the commands in order whatever each of them does. */
  method RunAll(f: Firewall, commands: seq<Command>) returns (failures: seq<Command>)
    modifies f
    ensures f.commands == old(f.commands) + |commands|
    ensures f.table == Closed(old(f.table), commands, f.fate, old(f.commands))
    ensures failures == ClosingFailures(old(f.table), commands, f.fate, old(f.commands))
  {
    hide After, Succeeds, Closed, ClosingFailures;
    failures := [];
    NoneClosed(f.table, f.fate, f.commands);
    var i := 0;
    while i < |commands|
      invariant 0 <= i <= |commands|
      invariant f.commands == old(f.commands) + i
      invariant f.table == Closed(old(f.table), commands[..i], f.fate, old(f.commands))
      invariant failures == ClosingFailures(old(f.table), commands[..i], f.fate, old(f.commands))
    {
      ClosedStep(old(f.table), commands, i, f.fate, old(f.commands));
      var ok := f.Run(commands[i]);
      if !ok {
        failures := failures + [commands[i]];
      }
      i := i + 1;
    }
    assert commands[..|commands|] == commands;
  }

  lemma NoneClosed(t: Table, fate: nat -> Fate, from: nat)
    ensures Closed(t, [], fate, from) == t && ClosingFailures(t, [], fate, from) == []
  {
  }

  lemma ClosedStep(t: Table, commands: seq<Command>, i: nat, fate: nat -> Fate, from: nat)
    requires i < |commands|
    ensures var before := Closed(t, commands[..i], fate, from);
            && Closed(t, commands[..i + 1], fate, from) == After(before, commands[i], fate(from + i))
            && ClosingFailures(t, commands[..i + 1], fate, from) ==
               ClosingFailures(t, commands[..i], fate, from)
               + (if Succeeds(before, commands[i], fate(from + i)) then [] else [commands[i]])
  {
    hide After, Succeeds;
    assert commands[..i + 1][..i] == commands[..i];
  }

  lemma ClosedThrice(t: Table, a: Command, b: Command, c: Command, fate: nat -> Fate, from: nat)
    ensures Closed(t, [a, b, c], fate, from) == After(After(After(t, a, fate(from)), b, fate(from + 1)), c, fate(from + 2))
    ensures ClosingFailures(t, [a, b, c], fate, from) == [] <==>
            && Succeeds(t, a, fate(from)) && Succeeds(After(t, a, fate(from)), b, fate(from + 1))
            && Succeeds(After(After(t, a, fate(from)), b, fate(from + 1)), c, fate(from + 2))
  {
    hide After, Succeeds, Closed, ClosingFailures;
    var commands := [a, b, c];
    assert commands[..0] == [] && commands[..3] == commands;
    NoneClosed(t, fate, from);
    ClosedStep(t, commands, 0, fate, from);
    ClosedStep(t, commands, 1, fate, from);
    ClosedStep(t, commands, 2, fate, from);
  }

  /** The table without an instance: its chain gone and one jump fewer. */
  function Without(t: Table, chain: string, jump: Rule): Table
    requires PREROUTING in t
  {
    t[PREROUTING := Remove(t[PREROUTING], jump)] - {chain}
  }

  /** Nothing but one occurrence of the jump leads to the chain. */
  ghost predicate OnlyJump(t: Table, chain: string, jump: Rule) {
    && chain in t && chain != PREROUTING && !BuiltIn(chain) && PREROUTING in t && jump in t[PREROUTING]
    && !Referenced(t[PREROUTING := Remove(t[PREROUTING], jump)][chain := []], chain)
  }

  /** Closing removes exactly the instance, whatever else others have added to
      or taken from the table since the installation. */
  lemma CloseRemovesExactly(t: Table, chain: string, jump: Rule, fate: nat -> Fate, from: nat)
    requires OnlyJump(t, chain, jump) && fate(from) == fate(from + 1) == fate(from + 2) == Runs
    ensures Closed(t, Closing(chain, jump), fate, from) == Without(t, chain, jump)
    ensures ClosingFailures(t, Closing(chain, jump), fate, from) == []
  {
    ClosedThrice(t, DeleteJump(jump), Flush(chain), DeleteChain(chain), fate, from);
    var u := t[PREROUTING := Remove(t[PREROUTING], jump)];
    hide Referenced, Remove, BuiltIn;
    assert u[chain := []] - {chain} == u - {chain};
  }

  lemma {:induction false} RemoveLast(rules: seq<Rule>, rule: Rule)
    requires rule !in rules
    ensures Remove(rules + [rule], rule) == rules
  {
    if rules != [] {
      assert (rules + [rule])[1..] == rules[1..] + [rule];
      RemoveLast(rules[1..], rule);
    }
  }

  lemma CarryingOnlyJump(t: Table, chain: string, dnat: Rule, jump: Rule)
    requires WellFormed(t) && chain !in t && !BuiltIn(chain) && RulesFor(chain, dnat, jump)
    ensures OnlyJump(Carrying(t, chain, dnat, jump), chain, jump)
    ensures Without(Carrying(t, chain, dnat, jump), chain, jump) == t
  {
    NoDangling(t, chain);
    var pre := t[PREROUTING];
    MemberJumps(pre, jump);
    assert !Jumps(pre, chain);
    RemoveLast(pre, jump);
    StillUnreferenced(t, chain);
    assert Carrying(t, chain, dnat, jump)[PREROUTING := pre][chain := []] == t[chain := []];
    assert t[chain := [dnat]][PREROUTING := pre] - {chain} == t;
  }

  lemma MemberJumps(rules: seq<Rule>, rule: Rule)
    ensures rule in rules && rule.target.Chain? ==> Jumps(rules, rule.target.name)
  {
  }

  lemma StillUnreferenced(t: Table, chain: string)
    requires !Referenced(t, chain)
    ensures !Referenced(t[chain := []], chain)
  {
    var u := t[chain := []];
    forall c | c in u ensures !Jumps(u[c], chain) {
      assert c in t && c != chain ==> !Jumps(t[c], chain);
    }
  }

  /** Install then close is the identity: from any well-formed table without the
      chain, if the installation and all three closing commands go through, the
      table is what it was. */
  lemma InstallThenCloseIsIdentity(t: Table, chain: string, dnat: Rule, jump: Rule, fate: nat -> Fate, from: nat)
    requires WellFormed(t) && chain !in t && !BuiltIn(chain) && RulesFor(chain, dnat, jump)
    requires fate(from) == fate(from + 1) == fate(from + 2) == Runs
    ensures Closed(Carrying(t, chain, dnat, jump), Closing(chain, jump), fate, from) == t
    ensures ClosingFailures(Carrying(t, chain, dnat, jump), Closing(chain, jump), fate, from) == []
  {
    CarryingOnlyJump(t, chain, dnat, jump);
    hide OnlyJump, Carrying, Closed, ClosingFailures, Without, Closing;
    CloseRemovesExactly(Carrying(t, chain, dnat, jump), chain, jump, fate, from);
  }

  /** A chain creation that fails leaves every existing chain as it was. */
  lemma FailedCreateTouchesNothing(t: Table, chain: string, fate: Fate)
    requires !Succeeds(t, NewChain(chain), fate)
    ensures forall c :: c in t ==> c in After(t, NewChain(chain), fate) && After(t, NewChain(chain), fate)[c] == t[c]
    ensures chain in t ==> After(t, NewChain(chain), fate) == t
  {
  }

  /** A restore that fails after it took effect is not undone: installing ends
      with a rollback that failed, and the flushed chain and the jump stay. */
  method LateRestoreStays() returns (f: Firewall, r: Installed)
    ensures fresh(f) && r == RollbackFailed(false, true)
    ensures f.table == map[PREROUTING := [Rule(["j"], Chain("TCPCC_0"))], "TCPCC_0" := []]
  {
    f := new Firewall(map[PREROUTING := []], n => if n == 1 then FailsAfter else Runs);
    ghost var t := f.table;
    var dnat, jump := Rule(["d"], Extension("DNAT")), Rule(["j"], Chain("TCPCC_0"));
    StaysReferenced(Carrying(t, "TCPCC_0", dnat, jump), "TCPCC_0", jump, f.fate, 2);
    r := Install(f, "TCPCC_0", dnat, jump);
    RestoreCarries(t, "TCPCC_0", dnat, jump);
    assert t[PREROUTING] + [jump] == [jump];
    assert f.table == Carrying(t, "TCPCC_0", dnat, jump)["TCPCC_0" := []];
  }

  /** A creation that fails after it took effect leaves an empty chain. */
  method LateCreationStays() returns (f: Firewall, r: Installed)
    ensures fresh(f) && r == ChainNotCreated && f.table == map[PREROUTING := [], "TCPCC_0" := []]
  {
    f := new Firewall(map[PREROUTING := []], _ => FailsAfter);
    r := Install(f, "TCPCC_0", Rule([], Extension("DNAT")), Rule([], Chain("TCPCC_0")));
  }

  // ----- the native supervisor's install -----

  /** tcpcc_firewall_install_iptables: three commands, and on failure a flush and
      a deletion whose results are ignored. */
  method InstallNative(f: Firewall, chain: string, dnat: Rule, jump: Rule) returns (ok: bool)
    requires RulesFor(chain, dnat, jump) && chain != PREROUTING
    modifies f
    ensures var t, n := old(f.table), old(f.commands);
            && (ok <==> chain !in t && PREROUTING in t && f.fate(n) == f.fate(n + 1) == f.fate(n + 2) == Runs)
            && (ok ==> f.table == Carrying(t, chain, dnat, jump))
    ensures !ok ==> Leaves(old(f.table), f.table, chain, f.fate, old(f.commands))
    ensures f.commands == old(f.commands) + NativeCommands(old(f.table), chain, f.fate, old(f.commands), ok)
  {
    hide *;
    NativeFacts(f.table, chain, dnat, jump, f.fate, f.commands);
    CommandsIs(f.table, chain, f.fate, f.commands);
    ok := f.Run(NewChain(chain));
    if !ok {
      return;
    }
    ok := f.Run(Append(chain, dnat));
    if ok {
      ok := f.Run(Append(PREROUTING, jump));
    }
    if !ok {
      UndoNative(f, chain);
    }
  }

  /** How many commands an install takes, its rollback included. */
  function NativeCommands(t: Table, chain: string, fate: nat -> Fate, n: nat, ok: bool): nat {
    if chain in t || fate(n) != Runs then 1 else if ok then 3 else if fate(n + 1) != Runs then 4 else 5
  }

  lemma CommandsIs(t: Table, chain: string, fate: nat -> Fate, n: nat)
    ensures forall ok :: NativeCommands(t, chain, fate, n, ok) ==
                         if chain in t || fate(n) != Runs then 1 else if ok then 3 else if fate(n + 1) != Runs then 4 else 5
  {
  }

  /** The tables of the install, step by step, and what a failing one leaves. */
  lemma NativeFacts(t: Table, chain: string, dnat: Rule, jump: Rule, fate: nat -> Fate, n: nat)
    requires RulesFor(chain, dnat, jump) && chain != PREROUTING
    ensures Succeeds(t, NewChain(chain), fate(n)) <==> chain !in t && fate(n) == Runs
    ensures var zero := After(t, NewChain(chain), fate(n));
            var one := After(zero, Append(chain, dnat), fate(n + 1));
            var two := After(one, Append(PREROUTING, jump), fate(n + 2));
            && (!Succeeds(t, NewChain(chain), fate(n)) ==> Leaves(t, zero, chain, fate, n))
            && (Succeeds(t, NewChain(chain), fate(n)) ==>
                  && (Succeeds(zero, Append(chain, dnat), fate(n + 1)) <==> fate(n + 1) == Runs)
                  && (fate(n + 1) != Runs ==> Leaves(t, Undone(one, chain, fate, n + 2), chain, fate, n))
                  && (fate(n + 1) == Runs ==>
                        && (Succeeds(one, Append(PREROUTING, jump), fate(n + 2)) <==> PREROUTING in t && fate(n + 2) == Runs)
                        && (PREROUTING in t && fate(n + 2) == Runs ==> two == Carrying(t, chain, dnat, jump))
                        && (!(PREROUTING in t && fate(n + 2) == Runs) ==> Leaves(t, Undone(two, chain, fate, n + 3), chain, fate, n))))
  {
    Creation(t, chain, fate(n));
    AppendFirst(t, chain, dnat, fate(n + 1));
    AppendSecond(t, chain, dnat, jump, fate(n + 2));
    NotCreated(t, chain, fate, n);
    if chain !in t && fate(n) == Runs {
      StuckChain(t, chain, dnat, jump, fate, n);
      if WellFormed(t) && !BuiltIn(chain) {
        NativeUndoneIff(t, chain, dnat, jump, fate, n);
      }
    }
    hide Apply, After, Succeeds, Undone, NativeLeavesNothing, WellFormed, BuiltIn, Carrying;
  }

  /** A failing install that ends with this table. */
  ghost predicate Leaves(t: Table, u: Table, chain: string, fate: nat -> Fate, n: nat) {
    && (WellFormed(t) && !BuiltIn(chain) ==> (u == t <==> NativeLeavesNothing(t, chain, fate, n)))
    && (u != t ==> chain in u && chain !in t)
  }

  /** A rollback that does not restore the table leaves the chain. */
  lemma StuckChain(t: Table, chain: string, dnat: Rule, jump: Rule, fate: nat -> Fate, n: nat)
    requires RulesFor(chain, dnat, jump) && chain != PREROUTING && chain !in t
    ensures var one := After(t[chain := []], Append(chain, dnat), fate(n + 1));
            var two := After(one, Append(PREROUTING, jump), fate(n + 2));
            && (chain !in Undone(one, chain, fate, n + 2) ==> Undone(one, chain, fate, n + 2) == t)
            && (chain !in Undone(two, chain, fate, n + 3) ==> Undone(two, chain, fate, n + 3) == t)
  {
    var one := After(t[chain := []], Append(chain, dnat), fate(n + 1));
    var two := After(one, Append(PREROUTING, jump), fate(n + 2));
    AppendFirst(t, chain, dnat, fate(n + 1));
    Emptied(t, one, chain, fate, n + 2);
    Emptied(t, one, chain, fate, n + 3);
    if two != one {
      StaysReferenced(two, chain, jump, fate, n + 3);
    }
  }

  lemma Emptied(t: Table, u: Table, chain: string, fate: nat -> Fate, from: nat)
    requires chain !in t && chain in u && (u == t[chain := []] || u == t[chain := u[chain]])
    ensures chain !in Undone(u, chain, fate, from) ==> Undone(u, chain, fate, from) == t
  {
    assert t[chain := []] - {chain} == t;
    assert t[chain := u[chain]][chain := []] == t[chain := []];
    assert t[chain := u[chain]] - {chain} == t;
  }

  method UndoNative(f: Firewall, chain: string)
    modifies f
    ensures f.table == Undone(old(f.table), chain, f.fate, old(f.commands)) && f.commands == old(f.commands) + 2
  {
    hide After;
    var ignored := f.Run(Flush(chain));
    ignored := f.Run(DeleteChain(chain));
  }

  lemma NotCreated(t: Table, chain: string, fate: nat -> Fate, n: nat)
    ensures !(chain !in t && fate(n) == Runs) ==>
              (After(t, NewChain(chain), fate(n)) == t <==> NativeLeavesNothing(t, chain, fate, n))
  {
    Creation(t, chain, fate(n));
  }

  lemma Creation(t: Table, chain: string, fate: Fate)
    ensures Succeeds(t, NewChain(chain), fate) <==> chain !in t && fate == Runs
    ensures After(t, NewChain(chain), fate) == if chain in t || fate == FailsBefore then t else t[chain := []]
    ensures chain !in t ==> t[chain := []] != t
  {
    if chain !in t {
      assert chain in t[chain := []];
    }
  }

  lemma AppendSecond(t: Table, chain: string, dnat: Rule, jump: Rule, fate: Fate)
    requires jump.target == Chain(chain) && chain != PREROUTING
    ensures Succeeds(t[chain := [dnat]], Append(PREROUTING, jump), fate) <==> fate == Runs && PREROUTING in t
    ensures PREROUTING in t && fate != FailsBefore ==>
              After(t[chain := [dnat]], Append(PREROUTING, jump), fate) == Carrying(t, chain, dnat, jump)
  {
  }

  /** What decides whether a failing native install can be seen afterwards. */
  predicate NativeLeavesNothing(t: Table, chain: string, fate: nat -> Fate, n: nat) {
    if chain in t || fate(n) != Runs then chain in t || fate(n) == FailsBefore
    else if fate(n + 1) != Runs then (fate(n + 1) == FailsBefore || fate(n + 2) != FailsBefore) && fate(n + 3) != FailsBefore
    else fate(n + 2) == FailsBefore && fate(n + 3) != FailsBefore && fate(n + 4) != FailsBefore
  }

  lemma NativeUndoneIff(t: Table, chain: string, dnat: Rule, jump: Rule, fate: nat -> Fate, n: nat)
    requires WellFormed(t) && !BuiltIn(chain) && RulesFor(chain, dnat, jump) && chain !in t && fate(n) == Runs
    ensures var one := After(t[chain := []], Append(chain, dnat), fate(n + 1));
            var two := After(one, Append(PREROUTING, jump), fate(n + 2));
            && (fate(n + 1) != Runs ==> (Undone(one, chain, fate, n + 2) == t <==> NativeLeavesNothing(t, chain, fate, n)))
            && (fate(n + 1) == Runs && fate(n + 2) != Runs ==>
                  (Undone(two, chain, fate, n + 3) == t <==> NativeLeavesNothing(t, chain, fate, n)))
  {
    NoDangling(t, chain);
    StillUnreferenced(t, chain);
    var one := After(t[chain := []], Append(chain, dnat), fate(n + 1));
    AppendFirst(t, chain, dnat, fate(n + 1));
    ChainGoesIff(t, chain, dnat, one, fate, n + 2);
    ChainGoesIff(t, chain, dnat, one, fate, n + 3);
    if fate(n + 2) == FailsAfter {
      var two := After(one, Append(PREROUTING, jump), FailsAfter);
      StaysReferenced(two, chain, jump, fate, n + 3);
    }
  }

  lemma AppendFirst(t: Table, chain: string, dnat: Rule, fate: Fate)
    requires dnat.target.Extension?
    ensures After(t[chain := []], Append(chain, dnat), fate) ==
            if fate == FailsBefore then t[chain := []] else t[chain := [dnat]]
    ensures Succeeds(t[chain := []], Append(chain, dnat), fate) <==> fate == Runs
  {
    assert [] + [dnat] == [dnat];
    assert t[chain := []][chain := [dnat]] == t[chain := [dnat]];
  }

  lemma ChainGoesIff(t: Table, chain: string, dnat: Rule, u: Table, fate: nat -> Fate, from: nat)
    requires chain !in t && !BuiltIn(chain) && !Referenced(t[chain := []], chain) && dnat.target.Extension?
    requires u == t[chain := []] || u == t[chain := [dnat]]
    ensures Undone(u, chain, fate, from) == t <==>
            (u == t[chain := []] || fate(from) != FailsBefore) && fate(from + 1) != FailsBefore
  {
    EmptyChainGoes(t, chain, fate, from);
    assert t[chain := [dnat]][chain := []] == t[chain := []];
  }
}

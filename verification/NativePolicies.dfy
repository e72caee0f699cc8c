/** The native supervisor's iptables policies over the nat table, from the first
    install to the last removal. */
module NativePolicies {
  import opened Lists
  import opened NatTables
  import Supervisor

  datatype Policy = Policy(chain: string, dnat: Rule, jump: Rule)

  /** Generated policies: the rules fit, and no name is a built-in chain's. */
  predicate Proper(ps: seq<Policy>) {
    forall i :: 0 <= i < |ps| ==> !BuiltIn(ps[i].chain) && RulesFor(ps[i].chain, ps[i].dnat, ps[i].jump)
  }

  /** The table with these policies installed, in order. */
  function Stacked(t: Table, ps: seq<Policy>): (u: Table)
    requires PREROUTING in t
    ensures PREROUTING in u
  {
    if ps == [] then t
    else
      var last := ps[|ps| - 1];
      Carrying(Stacked(t, ps[..|ps| - 1]), last.chain, last.dnat, last.jump)
  }

  /** The policy's three install commands go through. */
  predicate Goes(t: Table, p: Policy, fate: nat -> Fate, n: nat) {
    p.chain !in t && fate(n) == fate(n + 1) == fate(n + 2) == Runs
  }

  lemma StackedStep(t: Table, ps: seq<Policy>, i: nat)
    requires PREROUTING in t && i < |ps|
    ensures Stacked(t, ps[..i + 1]) == Carrying(Stacked(t, ps[..i]), ps[i].chain, ps[i].dnat, ps[i].jump)
  {
    assert ps[..i + 1][..i] == ps[..i];
  }

  lemma CarryingWellFormed(t: Table, p: Policy)
    requires WellFormed(t) && p.chain !in t && RulesFor(p.chain, p.dnat, p.jump)
    ensures WellFormed(Carrying(t, p.chain, p.dnat, p.jump))
  {
    var u := Carrying(t, p.chain, p.dnat, p.jump);
    forall name | Referenced(u, name) ensures name in u {
      var c :| c in u && Jumps(u[c], name);
      var i :| 0 <= i < |u[c]| && u[c][i].target == Chain(name);
      if c == PREROUTING && i < |t[PREROUTING]| {
        assert Jumps(t[PREROUTING], name);
      } else if c != PREROUTING && c != p.chain {
        assert Jumps(t[c], name);
      }
    }
  }

  /** The table when the first i policies are in. */
  ghost predicate Standing(t: Table, ps: seq<Policy>, i: nat, fate: nat -> Fate, n: nat)
    requires PREROUTING in t && i <= |ps|
  {
    WellFormed(Stacked(t, ps[..i])) && AllGo(t, ps, i, fate, n)
  }

  /** The installs of the first i go through, one after the other. */
  predicate AllGo(t: Table, ps: seq<Policy>, i: nat, fate: nat -> Fate, n: nat)
    requires PREROUTING in t && i <= |ps|
  {
    i > 0 ==> AllGo(t, ps, i - 1, fate, n) && Goes(Stacked(t, ps[..i - 1]), ps[i - 1], fate, n + 3 * (i - 1))
  }

  lemma StandingNone(t: Table, ps: seq<Policy>, fate: nat -> Fate, n: nat)
    requires WellFormed(t)
    ensures Standing(t, ps, 0, fate, n) && Stacked(t, ps[..0]) == t
  {
    assert ps[..0] == [];
  }

  lemma StandingStep(t: Table, ps: seq<Policy>, i: nat, fate: nat -> Fate, n: nat)
    requires PREROUTING in t && i < |ps| && Proper(ps) && Standing(t, ps, i, fate, n) && Goes(Stacked(t, ps[..i]), ps[i], fate, n + 3 * i)
    ensures Standing(t, ps, i + 1, fate, n)
    ensures Stacked(t, ps[..i + 1]) == Carrying(Stacked(t, ps[..i]), ps[i].chain, ps[i].dnat, ps[i].jump)
  {
    hide Stacked, WellFormed, Carrying, Goes, BuiltIn, RulesFor, Proper;
    StackedStep(t, ps, i);
    GoesFacts(Stacked(t, ps[..i]), ps[i], fate, n + 3 * i);
    ProperAt(ps, i);
    CarryingWellFormed(Stacked(t, ps[..i]), ps[i]);
  }

  lemma GoesFacts(t: Table, p: Policy, fate: nat -> Fate, n: nat)
    ensures Goes(t, p, fate, n) <==> p.chain !in t && fate(n) == fate(n + 1) == fate(n + 2) == Runs
  {
  }

  lemma ProperAt(ps: seq<Policy>, i: nat)
    requires Proper(ps) && i < |ps|
    ensures !BuiltIn(ps[i].chain) && ps[i].chain != PREROUTING && RulesFor(ps[i].chain, ps[i].dnat, ps[i].jump)
  {
  }

  /** The install loop: policies in order until one fails. */
  method InstallPolicies(f: Firewall, ps: seq<Policy>) returns (count: nat)
    requires WellFormed(f.table) && Proper(ps)
    modifies f
    ensures count <= |ps| && Standing(old(f.table), ps, count, f.fate, old(f.commands))
    ensures count == |ps| ==> f.table == Stacked(old(f.table), ps)
    ensures count < |ps| ==>
              var t, n := Stacked(old(f.table), ps[..count]), old(f.commands) + 3 * count;
              && !Goes(t, ps[count], f.fate, n) && Leaves(t, f.table, ps[count].chain, f.fate, n)
              && f.commands == n + NativeCommands(t, ps[count].chain, f.fate, n, false)
  {
    hide *;
    ghost var t, n := f.table, f.commands;
    assert PREROUTING in t by {
      WellFormedParts(t);
    }
    count := 0;
    StandingNone(t, ps, f.fate, n);
    while count < |ps|
      invariant count <= |ps| && Standing(t, ps, count, f.fate, n)
      invariant f.table == Stacked(t, ps[..count]) && f.commands == n + 3 * count
    {
      var p := ps[count];
      ProperAt(ps, count);
      GoesFacts(f.table, p, f.fate, f.commands);
      CommandsIs(f.table, p.chain, f.fate, f.commands);
      var ok := InstallNative(f, p.chain, p.dnat, p.jump);
      if !ok {
        return;
      }
      StandingStep(t, ps, count, f.fate, n);
      count := count + 1;
    }
    assert ps[..|ps|] == ps;
  }

  lemma WellFormedParts(t: Table)
    requires WellFormed(t)
    ensures PREROUTING in t
  {
  }

  // ----- removing them -----

  /** The table after the policies were closed, last first. */
  function Dismantled(t: Table, ps: seq<Policy>, fate: nat -> Fate, n: nat): Table
    decreases |ps|
  {
    if ps == [] then t
    else
      var last := ps[|ps| - 1];
      Dismantled(Closed(t, Closing(last.chain, last.jump), fate, n), ps[..|ps| - 1], fate, n + 3)
  }

  /** All of those commands succeed. */
  predicate Dismantles(t: Table, ps: seq<Policy>, fate: nat -> Fate, n: nat)
    decreases |ps|
  {
    ps != [] ==>
      var last := ps[|ps| - 1];
      && ClosingFailures(t, Closing(last.chain, last.jump), fate, n) == []
      && Dismantles(Closed(t, Closing(last.chain, last.jump), fate, n), ps[..|ps| - 1], fate, n + 3)
  }

  /** The cleanup loop of main: each policy's three commands, whatever becomes of
      each of them. */
  method RemovePolicies(f: Firewall, ps: seq<Policy>, count: nat) returns (ok: bool)
    requires count <= |ps|
    modifies f
    ensures f.table == Dismantled(old(f.table), ps[..count], f.fate, old(f.commands))
    ensures ok <==> Dismantles(old(f.table), ps[..count], f.fate, old(f.commands))
  {
    hide Closed, Closing, ClosingFailures;
    ok := true;
    var i := count;
    while i > 0
      invariant 0 <= i <= count
      invariant Dismantled(f.table, ps[..i], f.fate, f.commands) == Dismantled(old(f.table), ps[..count], f.fate, old(f.commands))
      invariant ok && Dismantles(f.table, ps[..i], f.fate, f.commands) <==> Dismantles(old(f.table), ps[..count], f.fate, old(f.commands))
    {
      i := i - 1;
      assert ps[..i + 1][..i] == ps[..i];
      ThreeCommands(ps[i].chain, ps[i].jump);
      var failures := RunAll(f, Closing(ps[i].chain, ps[i].jump));
      ok := ok && failures == [];
    }
  }

  lemma ThreeCommands(chain: string, jump: Rule)
    ensures |Closing(chain, jump)| == 3
  {
  }

  ghost predicate RunFrom(fate: nat -> Fate, n: nat) {
    forall k: nat :: k >= n ==> fate(k) == Runs
  }

  /** Removing what was installed gives back the table, if the commands run. */
  lemma {:induction false} InstalledGoes(t: Table, ps: seq<Policy>, i: nat, fate: nat -> Fate, n: nat, m: nat)
    requires WellFormed(t) && Proper(ps) && i <= |ps| && Standing(t, ps, i, fate, n) && RunFrom(fate, m)
    ensures Dismantled(Stacked(t, ps[..i]), ps[..i], fate, m) == t && Dismantles(Stacked(t, ps[..i]), ps[..i], fate, m)
    decreases i
  {
    hide WellFormed, Carrying, Closed, Closing, ClosingFailures, BuiltIn, RulesFor, Goes, Proper;
    WellFormedParts(t);
    if i > 0 {
      var p, u := ps[i - 1], Stacked(t, ps[..i - 1]);
      assert ps[..i][..i - 1] == ps[..i - 1];
      StandingBefore(t, ps, i, fate, n);
      StackedStep(t, ps, i - 1);
      GoesFacts(u, p, fate, n + 3 * (i - 1));
      ProperAt(ps, i - 1);
      InstallThenCloseIsIdentity(u, p.chain, p.dnat, p.jump, fate, m);
      InstalledGoes(t, ps, i - 1, fate, n, m + 3);
    }
  }

  lemma {:induction false} StandingBefore(t: Table, ps: seq<Policy>, i: nat, fate: nat -> Fate, n: nat)
    requires WellFormed(t) && Proper(ps) && 0 < i <= |ps| && Standing(t, ps, i, fate, n)
    ensures Standing(t, ps, i - 1, fate, n)
    decreases i
  {
    hide WellFormed, Stacked, Carrying, Goes, Proper;
    StandingAll(t, ps, i - 1, fate, n);
  }

  lemma {:induction false} StandingAll(t: Table, ps: seq<Policy>, i: nat, fate: nat -> Fate, n: nat)
    requires WellFormed(t) && Proper(ps) && i <= |ps| && AllGo(t, ps, i, fate, n)
    ensures Standing(t, ps, i, fate, n)
    decreases i
  {
    hide WellFormed, Stacked, Carrying, Goes, Proper;
    WellFormedParts(t);
    if i == 0 {
      StandingNone(t, ps, fate, n);
    } else {
      StandingAll(t, ps, i - 1, fate, n);
      StandingStep(t, ps, i - 1, fate, n);
    }
  }

  /** A chain that is none of theirs stays, whatever becomes of the commands. */
  lemma {:induction false} OthersStay(t: Table, ps: seq<Policy>, fate: nat -> Fate, n: nat, c: string)
    requires c in t && forall i :: 0 <= i < |ps| ==> ps[i].chain != c
    ensures c in Dismantled(t, ps, fate, n)
    decreases |ps|
  {
    if ps != [] {
      var last := ps[|ps| - 1];
      ClosingKeeps(t, last, fate, n, c);
      hide Closed, Closing;
      OthersStay(Closed(t, Closing(last.chain, last.jump), fate, n), ps[..|ps| - 1], fate, n + 3, c);
    }
  }

  lemma ClosingKeeps(t: Table, p: Policy, fate: nat -> Fate, n: nat, c: string)
    requires c in t && p.chain != c
    ensures c in Closed(t, Closing(p.chain, p.jump), fate, n)
  {
    ClosedThrice(t, DeleteJump(p.jump), Flush(p.chain), DeleteChain(p.chain), fate, n);
    hide Closed, Referenced, Remove, BuiltIn;
  }

  /** The chains of installed policies are in the table. */
  lemma {:induction false} StackedHas(t: Table, ps: seq<Policy>, i: nat)
    requires PREROUTING in t && i < |ps|
    ensures ps[i].chain in Stacked(t, ps)
    decreases |ps|
  {
    if i < |ps| - 1 {
      StackedHas(t, ps[..|ps| - 1], i);
    }
  }

  lemma {:induction false} StackedKeeps(t: Table, ps: seq<Policy>, c: string)
    requires PREROUTING in t && c in t
    ensures c in Stacked(t, ps)
    decreases |ps|
  {
    if ps != [] {
      StackedKeeps(t, ps[..|ps| - 1], c);
    }
  }

  /** What a failed install left is there at the end as well. */
  lemma LeakStays(t: Table, ps: seq<Policy>, count: nat, u: Table, fate: nat -> Fate, m: nat)
    requires PREROUTING in t && count < |ps| && ps[count].chain in u && ps[count].chain !in Stacked(t, ps[..count])
    ensures Dismantled(u, ps[..count], fate, m) != t
  {
    var c := ps[count].chain;
    forall i | 0 <= i < count ensures ps[..count][i].chain != c {
      StackedHas(t, ps[..count], i);
    }
    OthersStay(u, ps[..count], fate, m, c);
    if c in t {
      StackedKeeps(t, ps[..count], c);
    }
  }

  /** Which installs leave something behind, if they are the one that fails; the
      i-th is the deed after opening the TUN and i installs. */
  function Spills(t: Table, ps: seq<Policy>, fate: nat -> Fate, n: nat): nat -> bool
    requires PREROUTING in t
  {
    (k: nat) => 1 <= k <= |ps| && !NativeLeavesNothing(Stacked(t, ps[..k - 1]), ps[k - 1].chain, fate, n + 3 * (k - 1))
  }

  lemma SpilledIs(t: Table, ps: seq<Policy>, fate: nat -> Fate, n: nat, count: nat)
    requires PREROUTING in t && count <= |ps|
    ensures Supervisor.Spilled(Spills(t, ps, fate, n), 1, count, |ps|) == {} <==>
            count == |ps| || NativeLeavesNothing(Stacked(t, ps[..count]), ps[count].chain, fate, n + 3 * count)
  {
    hide NativeLeavesNothing, Stacked;
    if count < |ps| {
      assert 1 + count - 1 == count;
    }
  }

  /** From the first install to the last removal: if the removals run, the table
      is in the end what it was if and only if every install went through or the
      failing one left nothing; the condition is about its commands alone. */
  method RunPolicies(f: Firewall, ps: seq<Policy>) returns (count: nat, ok: bool, ghost removing: nat)
    requires WellFormed(f.table) && Proper(ps)
    modifies f
    ensures count <= |ps| && AllGo(old(f.table), ps, count, f.fate, old(f.commands))
    ensures count < |ps| ==>
              var t, n := Stacked(old(f.table), ps[..count]), old(f.commands) + 3 * count;
              !Goes(t, ps[count], f.fate, n) && removing == n + NativeCommands(t, ps[count].chain, f.fate, n, false)
    ensures RunFrom(f.fate, removing) ==>
              (f.table == old(f.table) <==>
               count == |ps| ||
               NativeLeavesNothing(Stacked(old(f.table), ps[..count]), ps[count].chain, f.fate, old(f.commands) + 3 * count))
    ensures RunFrom(f.fate, removing) ==>
              (f.table == old(f.table) <==>
               Supervisor.Spilled(Spills(old(f.table), ps, f.fate, old(f.commands)), 1, count, |ps|) == {})
    ensures RunFrom(f.fate, removing) && f.table == old(f.table) ==> ok
  {
    hide *;
    ghost var t, n := f.table, f.commands;
    WellFormedParts(t);
    count := InstallPolicies(f, ps);
    removing := f.commands;
    StandingGoes(t, ps, count, f.fate, n);
    if RunFrom(f.fate, removing) {
      RestoredIff(t, ps, count, f.table, f.fate, n, removing);
      SpilledIs(t, ps, f.fate, n, count);
    }
    ok := RemovePolicies(f, ps, count);
  }

  lemma StandingGoes(t: Table, ps: seq<Policy>, i: nat, fate: nat -> Fate, n: nat)
    requires PREROUTING in t && i <= |ps| && Standing(t, ps, i, fate, n)
    ensures AllGo(t, ps, i, fate, n)
  {
    hide AllGo, WellFormed, Stacked;
  }

  lemma RestoredIff(t: Table, ps: seq<Policy>, count: nat, u: Table, fate: nat -> Fate, n: nat, m: nat)
    requires WellFormed(t) && PREROUTING in t && Proper(ps) && count <= |ps| && Standing(t, ps, count, fate, n) && RunFrom(fate, m)
    requires count == |ps| ==> u == Stacked(t, ps)
    requires count < |ps| ==> Leaves(Stacked(t, ps[..count]), u, ps[count].chain, fate, n + 3 * count)
    ensures Dismantled(u, ps[..count], fate, m) == t <==>
            count == |ps| || NativeLeavesNothing(Stacked(t, ps[..count]), ps[count].chain, fate, n + 3 * count)
    ensures Dismantled(u, ps[..count], fate, m) == t ==> Dismantles(u, ps[..count], fate, m)
  {
    hide Dismantled, Dismantles, Stacked, NativeLeavesNothing, WellFormed, AllGo, BuiltIn, Proper, RulesFor, RunFrom;
    InstalledGoes(t, ps, count, fate, n, m);
    assert ps[..|ps|] == ps;
    if count < |ps| {
      ProperAt(ps, count);
      if u != Stacked(t, ps[..count]) {
        LeakStays(t, ps, count, u, fate, m);
      }
    }
  }

  /** Two policies, and the jump of the second fails after it took effect: the
      first is removed, the second stays. */
  method SecondJumpStays() returns (f: Firewall, count: nat)
    ensures fresh(f) && count == 1 && f.table != map[PREROUTING := []]
  {
    f := new Firewall(map[PREROUTING := []], n => if n == 5 then FailsAfter else Runs);
    var ps := [Policy("TCPCC_0", Rule(["a"], Extension("DNAT")), Rule(["a"], Chain("TCPCC_0"))),
               Policy("TCPCC_1", Rule(["b"], Extension("DNAT")), Rule(["b"], Chain("TCPCC_1")))];
    ghost var t := f.table;
    ghost var removing;
    var ok;
    count, ok, removing := RunPolicies(f, ps);
    assert ps[..0] == [] && ps[..2] == ps && ps[..1] == [ps[0]] && ps[..1][..0] == [];
    assert Stacked(t, ps[..0]) == t && Stacked(t, ps[..1]) == Carrying(t, "TCPCC_0", ps[0].dnat, ps[0].jump);
    assert Goes(t, ps[0], f.fate, 0) && !Goes(Stacked(t, ps[..1]), ps[1], f.fate, 3);
  }
}

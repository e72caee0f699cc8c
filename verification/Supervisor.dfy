/** The native supervisor: opening the TUN, installing one firewall policy per
    route, running the hosted kernel, and cleaning up from any point. */
module Supervisor {
  import opened Lists
  import opened Forwards

  // ----- the hosted kernel -----

  /** echo: the congestion control read back is the configured one. */
  datatype Reply = Reply(status: int, handle: int, echo: bool)

  /** bound: the ports listeners were bound to; listeners: the services started. */
  class Hosted {
    var bound: map<int, nat>
    var listeners: seq<Listener>
    var calls: nat
    const replies: nat -> Reply

    constructor (replies: nat -> Reply)
      ensures bound == map[] && listeners == [] && calls == 0 && this.replies == replies
    {
      bound, listeners, calls, this.replies := map[], [], 0, replies;
    }

    /** An attach, a new socket, or an option of one. */
    method Call() returns (r: Reply)
      modifies this`calls
      ensures calls == old(calls) + 1 && r == replies(old(calls))
    {
      r := replies(calls);
      calls := calls + 1;
    }

    method Bind(handle: int, port: nat) returns (r: Reply)
      modifies this`calls, this`bound
      ensures calls == old(calls) + 1 && r == replies(old(calls))
      ensures bound == if r.status == 0 then old(bound)[handle := port] else old(bound)
    {
      r := Call();
      if r.status == 0 {
        bound := bound[handle := port];
      }
    }

    method StartService(handle: int, backend: nat) returns (r: Reply)
      modifies this`calls, this`listeners
      ensures calls == old(calls) + 1 && r == replies(old(calls))
      ensures listeners == old(listeners) +
              if r.status == 0 && handle in bound then [Listener(bound[handle], backend)] else []
    {
      r := Call();
      if r.status == 0 && handle in bound {
        listeners := listeners + [Listener(bound[handle], backend)];
      }
    }
  }

  /** One route of tcpcc_runtime_start: a configured, verified, bound listener
      and its service.  The guest address is of one family. */
  method StartRoute(h: Hosted, route: Route, guest: int) returns (service: Option<int>)
    modifies h
    ensures service.Some? ==> h.listeners == old(h.listeners) + [ListenerOf(route)] && service.value > 0
    ensures service.Some? ==> route.listen.version == guest
    ensures service.None? ==> h.listeners == old(h.listeners) || h.listeners == old(h.listeners) + [ListenerOf(route)]
  {
    service := None;
    var r := h.Call();
    if r.status != 0 || r.handle <= 0 {
      return;
    }
    var listener := r.handle;
    r := h.Call();
    if r.status != 0 {
      return;
    }
    r := h.Call();
    if r.status != 0 || !r.echo || route.listen.version != guest {
      return;
    }
    r := h.Bind(listener, route.listen.port);
    if r.status != 0 {
      return;
    }
    r := h.Call();
    if r.status != 0 {
      return;
    }
    r := h.StartService(listener, route.backend.port);
    if r.status != 0 || r.handle <= 0 {
      return;
    }
    return Some(r.handle);
  }

  /** tcpcc_runtime_start after the process runs: attach, then every route;
      service is the aggregate handle of the first one. */
  method StartRoutes(h: Hosted, routes: seq<Route>, guest: int) returns (ok: bool, service: int)
    requires h.listeners == []
    modifies h
    ensures ok ==> h.listeners == Listeners(routes) && forall i :: 0 <= i < |routes| ==> routes[i].listen.version == guest
    ensures exists m :: 0 <= m <= |routes| && h.listeners == Listeners(routes[..m])
    ensures ok && routes != [] ==> service > 0
  {
    hide Listeners, ListenerOf;
    service := 0;
    NoListeners(routes);
    var r := h.Call();
    if r.status != 0 || r.handle <= 0 {
      return false, service;
    }
    for i := 0 to |routes|
      invariant h.listeners == Listeners(routes[..i]) && (i > 0 ==> service > 0)
      invariant forall j :: 0 <= j < i ==> routes[j].listen.version == guest
    {
      ListenersGrow(routes, i);
      var started := StartRoute(h, routes[i], guest);
      if started.None? {
        return false, service;
      }
      if i == 0 {
        service := started.value;
      } else if started.value != service {
        return false, service;
      }
    }
    assert routes[..|routes|] == routes;
    return true, service;
  }

  lemma NoListeners(routes: seq<Route>)
    ensures Listeners(routes[..0]) == []
  {
  }

  lemma ListenersGrow(routes: seq<Route>, i: nat)
    requires i < |routes|
    ensures Listeners(routes[..i + 1]) == Listeners(routes[..i]) + [ListenerOf(routes[i])]
  {
  }

  // ----- the host -----

  datatype Deed =
    | OpenTun | Install(index: nat)
    | Spawn | Serve | Stop | Await | StopService | KillChild
    | CloseFirewall(index: nat) | CloseTun

  /** What was done to the host so far, the policies in force, and what failed
      installs left behind.  succeeds(n) says whether the n-th deed succeeds;
      spills(n) whether, being an install that fails, it leaves something: its
      own rollback is not checked (NativePolicies.Spills says which, for
      iptables). */
  class Host {
    var log: seq<Deed>
    var rules: map<nat, Rule>
    var left: set<nat>
    const succeeds: nat -> bool
    const spills: nat -> bool

    constructor (succeeds: nat -> bool, spills: nat -> bool)
      ensures log == [] && rules == map[] && left == {} && this.succeeds == succeeds && this.spills == spills
    {
      log, rules, left, this.succeeds, this.spills := [], map[], {}, succeeds, spills;
    }

    method Do(deed: Deed) returns (ok: bool)
      modifies this`log
      ensures log == old(log) + [deed] && ok == succeeds(|old(log)|)
    {
      ok := succeeds(|log|);
      log := log + [deed];
    }

    /** tcpcc_firewall_install. */
    method Install(index: nat, rule: Rule) returns (ok: bool)
      modifies this
      ensures log == old(log) + [Deed.Install(index)] && ok == succeeds(|old(log)|)
      ensures rules == if ok then old(rules)[index := rule] else old(rules)
      ensures left == if !ok && spills(|old(log)|) then old(left) + {index} else old(left)
    {
      var spilled := spills(|log|);
      ok := Do(Deed.Install(index));
      if ok {
        rules := rules[index := rule];
      } else if spilled {
        left := left + {index};
      }
    }

    /** tcpcc_firewall_close, for an installed policy. */
    method Remove(index: nat) returns (ok: bool)
      modifies this`log, this`rules
      ensures log == old(log) + [CloseFirewall(index)] && ok == succeeds(|old(log)|)
      ensures rules == if ok then old(rules) - {index} else old(rules)
    {
      ok := Do(CloseFirewall(index));
      if ok {
        rules := rules - {index};
      }
    }
  }

  function Installs(n: nat): seq<Deed> {
    seq(n, i requires 0 <= i < n => Deed.Install(i))
  }

  function RuleMap(routes: seq<Route>): map<nat, Rule> {
    map i: nat | i < |routes| :: RuleOf(routes[i])
  }

  /** The policies as a list, and whether they and the listeners together send
      every public endpoint to its own backend, and nothing else anywhere. */
  function RuleList(rules: map<nat, Rule>, n: nat): seq<Rule>
    requires forall i :: 0 <= i < n ==> i in rules
  {
    seq(n, i requires 0 <= i < n => rules[i])
  }

  ghost predicate Delivers(rules: map<nat, Rule>, listeners: seq<Listener>, routes: seq<Route>) {
    && (forall i :: i in rules <==> 0 <= i < |routes|)
    && (forall to, i :: 0 <= i < |routes| && routes[i].listen == to ==>
          Deliver(RuleList(rules, |routes|), listeners, to) == Some(routes[i].backend.port))
    && (forall to :: (forall i :: 0 <= i < |routes| ==> routes[i].listen != to) ==>
          Deliver(RuleList(rules, |routes|), listeners, to) == None)
  }

  /** Accepted routes, installed and started, deliver. */
  lemma RoutesDeliver(routes: seq<Route>)
    requires Faithful(routes)
    ensures Delivers(RuleMap(routes), Listeners(routes), routes)
  {
    hide Deliver, Listeners;
    assert RuleList(RuleMap(routes), |routes|) == Rules(routes);
  }

  /** The install loop: policies in order until one fails. */
  method InstallAll(host: Host, routes: seq<Route>, installed: array<bool>) returns (count: nat)
    requires installed.Length == |routes| && host.rules == map[]
    requires forall i :: 0 <= i < |routes| ==> !installed[i]
    modifies host, installed
    ensures count <= |routes| && host.rules == RuleMap(routes[..count])
    ensures host.log == old(host.log) + Installs(Attempts(|routes|, count))
    ensures forall i :: 0 <= i < |routes| ==> (installed[i] <==> i < count)
    ensures forall j :: |old(host.log)| <= j < |old(host.log)| + count ==> host.succeeds(j)
    ensures count < |routes| ==> !host.succeeds(|old(host.log)| + count)
    ensures host.left == old(host.left) + Spilled(host.spills, |old(host.log)|, count, |routes|)
  {
    hide RuleOf;
    count := 0;
    while count < |routes|
      invariant count <= |routes| && host.rules == RuleMap(routes[..count])
      invariant host.log == old(host.log) + Installs(count)
      invariant forall i :: 0 <= i < |routes| ==> (installed[i] <==> i < count)
      invariant forall j :: |old(host.log)| <= j < |old(host.log)| + count ==> host.succeeds(j)
      invariant host.left == old(host.left)
    {
      InstallsLength(count);
      InstallsGrow(routes, count);
      var ok := host.Install(count, RuleOf(routes[count]));
      if !ok {
        return;
      }
      installed[count] := true;
      count := count + 1;
    }
  }

  /** What the one failing install, if there is one, leaves behind. */
  function Spilled(spills: nat -> bool, at: nat, count: nat, n: nat): set<nat> {
    if count < n && spills(at + count) then {count} else {}
  }

  lemma InstallsGrow(routes: seq<Route>, n: nat)
    requires n < |routes|
    ensures Installs(n + 1) == Installs(n) + [Deed.Install(n)]
    ensures RuleMap(routes[..n + 1]) == RuleMap(routes[..n])[n := RuleOf(routes[n])]
  {
  }

  /** The policies still marked installed, last first. */
  function ClosesOf(installed: seq<bool>): seq<Deed> {
    if installed == [] then []
    else
      var last := |installed| - 1;
      (if installed[last] then [CloseFirewall(last)] else []) + ClosesOf(installed[..last])
  }

  /** Exactly the installed ones. */
  lemma {:induction false} ClosesExactly(installed: seq<bool>, d: Deed)
    ensures d in ClosesOf(installed) <==> d.CloseFirewall? && d.index < |installed| && installed[d.index]
  {
    if installed != [] {
      ClosesExactly(installed[..|installed| - 1], d);
    }
  }

  /** In reverse order of installation. */
  lemma {:induction false} ClosesReverse(installed: seq<bool>, i: nat, j: nat)
    requires i < j < |ClosesOf(installed)|
    ensures ClosesOf(installed)[i].CloseFirewall? && ClosesOf(installed)[j].CloseFirewall?
    ensures ClosesOf(installed)[i].index > ClosesOf(installed)[j].index
  {
    var last := |installed| - 1;
    var rest := ClosesOf(installed[..last]);
    var shift := if installed[last] then 1 else 0;
    assert ClosesOf(installed)[j] == rest[j - shift];
    ClosesExactly(installed[..last], rest[j - shift]);
    if i >= shift {
      ClosesReverse(installed[..last], i - shift, j - shift);
    }
  }

  /** Each of them once. */
  lemma ClosesOnce(installed: seq<bool>)
    ensures NoDup(ClosesOf(installed))
  {
    forall i, j | 0 <= i < j < |ClosesOf(installed)| ensures ClosesOf(installed)[i] != ClosesOf(installed)[j] {
      ClosesReverse(installed, i, j);
    }
  }

  lemma ClosesStep(flags: seq<bool>, index: nat)
    requires index < |flags|
    ensures ClosesOf(flags[..index + 1]) == ClosesAt(flags, index) + ClosesOf(flags[..index])
  {
    assert flags[..index + 1][..index] == flags[..index];
  }

  function ClosesAt(flags: seq<bool>, index: nat): seq<Deed>
    requires index < |flags|
  {
    if flags[index] then [CloseFirewall(index)] else []
  }

  /** tcpcc_firewall_close: a policy that is not installed needs nothing. */
  method ClosePolicy(host: Host, installed: array<bool>, index: nat) returns (ok: bool)
    requires index < installed.Length && (index in host.rules <==> installed[index])
    modifies host`log, host`rules, installed
    ensures installed[..] == old(installed[..])[index := false]
    ensures host.log == old(host.log) + ClosesAt(old(installed[..]), index)
    ensures ok <==> index !in host.rules
    ensures old(installed[index]) ==> ok == host.succeeds(|old(host.log)|)
    ensures host.rules == if ok then old(host.rules) - {index} else old(host.rules)
  {
    if !installed[index] {
      return true;
    }
    ok := host.Remove(index);
    installed[index] := false;
  }

  /** The cleanup loop. */
  method CloseAll(host: Host, installed: array<bool>) returns (ok: bool)
    requires forall i :: i in host.rules <==> 0 <= i < installed.Length && installed[i]
    modifies host`log, host`rules, installed
    ensures host.log == old(host.log) + ClosesOf(old(installed[..]))
    ensures ok <==> host.rules == map[]
    ensures forall i :: i in host.rules ==> i in old(host.rules) && host.rules[i] == old(host.rules[i])
    ensures forall i :: 0 <= i < installed.Length ==> !installed[i]
    ensures Told(host.log, |old(host.log)|, host.rules, host.succeeds, 0)
  {
    hide ClosesOf, ClosesAt, Told;
    NothingTold(host.log, host.rules, host.succeeds, installed.Length);
    ok := true;
    var index := installed.Length;
    ghost var flags, done := installed[..], [];
    assert flags[..index] == flags;
    while index > 0
      invariant 0 <= index <= installed.Length && |flags| == installed.Length
      invariant host.log == old(host.log) + done && done + ClosesOf(flags[..index]) == ClosesOf(flags)
      invariant forall i :: 0 <= i < installed.Length ==> installed[..][i] == (i < index && flags[i])
      invariant forall i :: i in host.rules ==> i in old(host.rules) && host.rules[i] == old(host.rules[i])
      invariant forall i :: 0 <= i < index ==> (i in host.rules <==> flags[i])
      invariant ok <==> forall i :: i in host.rules ==> i < index
      invariant Told(host.log, |old(host.log)|, host.rules, host.succeeds, index)
    {
      index := index - 1;
      ghost var log, rules := host.log, host.rules;
      ClosesStep(flags, index);
      ClosesSame(flags, installed[..], index);
      ghost var added := ClosesAt(flags, index);
      assert done + (added + ClosesOf(flags[..index])) == (done + added) + ClosesOf(flags[..index]);
      done := done + added;
      var closed := ClosePolicy(host, installed, index);
      ToldStep(log, |old(host.log)|, rules, host.succeeds, index, flags, closed);
      ok := ok && closed;
    }
    NoCloses(flags);
    assert done + [] == done;
    if ok {
      assert host.rules == map[];
    }
  }

  /** Of every close deed since then: its policy is still in force exactly when
      the deed failed; and only policies from least on were closed. */
  ghost predicate Told(log: seq<Deed>, from: nat, rules: map<nat, Rule>, succeeds: nat -> bool, least: nat) {
    forall j :: from <= j < |log| && log[j].CloseFirewall? ==>
                  log[j].index >= least && (log[j].index in rules <==> !succeeds(j))
  }

  lemma NothingTold(log: seq<Deed>, rules: map<nat, Rule>, succeeds: nat -> bool, least: nat)
    ensures Told(log, |log|, rules, succeeds, least)
  {
  }

  lemma ToldStep(log: seq<Deed>, from: nat, rules: map<nat, Rule>, succeeds: nat -> bool, index: nat, flags: seq<bool>, ok: bool)
    requires Told(log, from, rules, succeeds, index + 1) && index < |flags| && from <= |log|
    requires flags[index] ==> index in rules && ok == succeeds(|log|)
    ensures Told(log + ClosesAt(flags, index), from, if ok then rules - {index} else rules, succeeds, index)
  {
  }

  lemma ClosesSame(a: seq<bool>, b: seq<bool>, index: nat)
    requires index < |a| && index < |b| && a[index] == b[index]
    ensures ClosesAt(a, index) == ClosesAt(b, index)
  {
  }

  lemma NoCloses(flags: seq<bool>)
    ensures ClosesOf(flags[..0]) == []
  {
  }

  // ----- main -----

  /** Waiting for a signal: from here on connections are forwarded, so every
      public endpoint must reach its own backend. */
  method ServeTraffic(host: Host, hosted: Hosted, routes: seq<Route>) returns (ok: bool)
    requires Delivers(host.rules, hosted.listeners, routes)
    modifies host`log
    ensures host.log == old(host.log) + [Serve] && ok == host.succeeds(|old(host.log)|)
  {
    ok := host.Do(Serve);
  }

  /** The child is stopped without ceremony. */
  method Abandon(host: Host, service: int) returns (ghost deeds: seq<Deed>)
    modifies host`log
    ensures host.log == old(host.log) + deeds
    ensures deeds == if service > 0 then [StopService, KillChild] else [KillChild]
  {
    deeds := [KillChild];
    if service > 0 {
      deeds := [StopService, KillChild];
      var ignored := host.Do(StopService);
    }
    var ignored := host.Do(KillChild);
  }

  /** What is done about the hosted kernel's process, from position at of the
      log on: a process that was spawned is waited for or killed at the end. */
  predicate ChildDeeds(deeds: seq<Deed>, spawned: bool) {
    && deeds != [] && deeds[0] == Spawn
    && (forall i :: 0 < i < |deeds| ==> deeds[i] in {Serve, Stop, Await, StopService, KillChild})
    && (|deeds| > 1 <==> spawned)
    && (|deeds| > 1 ==> deeds[|deeds| - 1] in {Await, KillChild})
  }

  predicate ServedWell(deeds: seq<Deed>, succeeds: nat -> bool, at: nat) {
    && deeds == [Spawn, Serve, Stop, Await]
    && succeeds(at) && succeeds(at + 1) && succeeds(at + 2) && succeeds(at + 3)
  }

  /** The hosted kernel's process: spawn, start the routes, serve, shut down,
      wait; or abandon it at the first failure. */
  method RunChild(host: Host, hosted: Hosted, routes: seq<Route>, guest: int)
    returns (served: bool, ghost deeds: seq<Deed>)
    requires hosted.listeners == [] && host.rules == RuleMap(routes) && Faithful(routes)
    modifies host`log, hosted
    ensures host.log == old(host.log) + deeds && ChildDeeds(deeds, host.succeeds(|old(host.log)|))
    ensures served <==> ServedWell(deeds, host.succeeds, |old(host.log)|)
  {
    hide Faithful, RuleMap, Listeners, Delivers;
    var ok := host.Do(Spawn);
    deeds := [Spawn];
    if !ok {
      return false, deeds;
    }
    var service;
    ok, service := StartRoutes(hosted, routes, guest);
    if ok {
      RoutesDeliver(routes);
      ok := ServeTraffic(host, hosted, routes);
      deeds := deeds + [Serve];
    }
    if ok {
      ok := host.Do(Stop);
      deeds := deeds + [Stop];
    }
    if ok {
      served := host.Do(Await);
      deeds := deeds + [Await];
    } else {
      served := false;
      ghost var rest := Abandon(host, service);
      deeds := deeds + rest;
    }
  }

  /** The first so many of n. */
  function Marked(count: nat, n: nat): seq<bool> {
    seq(n, i => i < count)
  }

  /** Installs attempted when so many of n succeeded: the failing one too. */
  function Attempts(n: nat, count: nat): nat {
    if count < n then count + 1 else count
  }

  /** The acquisition order and its exact reverse, around what the child did. */
  function MainLog(n: nat, count: nat, deeds: seq<Deed>): seq<Deed> {
    [OpenTun] + HoldLog(n, count, deeds) + [CloseTun]
  }

  function HoldLog(n: nat, count: nat, deeds: seq<Deed>): seq<Deed> {
    Installs(Attempts(n, count)) + deeds + ClosesOf(Marked(count, n))
  }

  /** The cleanup loop when the first so many policies are installed: policy i is
      still in force afterwards exactly when the deed that closes it, the i-th
      from the end, failed. */
  method CloseFirst(host: Host, installed: array<bool>, ghost count: nat) returns (ok: bool)
    requires count <= installed.Length && installed[..] == Marked(count, installed.Length)
    requires forall i :: i in host.rules <==> 0 <= i < count
    modifies host`log, host`rules, installed
    ensures host.log == old(host.log) + ClosesOf(Marked(count, installed.Length))
    ensures (ok <==> host.rules == map[]) && (forall i :: i in host.rules ==> i < count) && |old(host.log)| + count <= |host.log|
    ensures forall i :: 0 <= i < count ==> (i in host.rules <==> !host.succeeds(|host.log| - 1 - i))
  {
    hide ClosesOf, Told;
    ghost var m, n := |host.log|, installed.Length;
    assert forall i :: 0 <= i < n ==> (installed[i] <==> installed[..][i]);
    ok := CloseAll(host, installed);
    assert host.log[m..] == ClosesOf(Marked(count, n));
    ToldOf(host.log, m, host.rules, host.succeeds, count, n);
    ClosesLength(host.log, m, count, n);
  }

  /** Installing every policy and, if that succeeds, running the child. */
  method BringUp(host: Host, hosted: Hosted, routes: seq<Route>, guest: int, installed: array<bool>)
    returns (served: bool, ghost count: nat, ghost deeds: seq<Deed>)
    requires host.rules == map[] && hosted.listeners == [] && Consistent(routes)
    requires installed.Length == |routes| && forall i :: 0 <= i < |routes| ==> !installed[i]
    modifies host, hosted, installed
    ensures count <= |routes| && host.log == old(host.log) + Installs(Attempts(|routes|, count)) + deeds
    ensures if count < |routes| then deeds == [] else ChildDeeds(deeds, host.succeeds(|old(host.log)| + |routes|))
    ensures served <==> ServedWell(deeds, host.succeeds, |old(host.log)| + |routes|)
    ensures installed[..] == Marked(count, |routes|) && forall i :: i in host.rules <==> 0 <= i < count
    ensures count < |routes| ==> !host.succeeds(|old(host.log)| + count)
    ensures host.left == old(host.left) + Spilled(host.spills, |old(host.log)|, count, |routes|)
  {
    hide *;
    var n := InstallAll(host, routes, installed);
    count, deeds, served := n, [], false;
    Installed(routes, n);
    InstallsLength(Attempts(|routes|, n));
    AllAttempts(|routes|);
    MarkedIs(installed[..], count);
    NotServed(host.succeeds, |old(host.log)| + |routes|);
    if n == |routes| {
      ConsistentFaithful(routes);
      assert routes[..n] == routes;
      served, deeds := RunChild(host, hosted, routes, guest);
    } else {
      assert host.log + deeds == host.log;
    }
  }

  /** main while it holds the TUN: install, run the child, close. */
  method Hold(host: Host, hosted: Hosted, routes: seq<Route>, guest: int)
    returns (result: int, ghost count: nat, ghost deeds: seq<Deed>)
    requires host.rules == map[] && hosted.listeners == [] && Consistent(routes)
    modifies host, hosted
    ensures count <= |routes| && host.log == old(host.log) + HoldLog(|routes|, count, deeds)
    ensures if count < |routes| then deeds == [] else ChildDeeds(deeds, host.succeeds(|old(host.log)| + |routes|))
    ensures result == 0 <==> host.rules == map[] && ServedWell(deeds, host.succeeds, |old(host.log)| + |routes|)
    ensures (forall i :: i in host.rules ==> i < count) && |old(host.log)| + count <= |host.log|
    ensures forall i :: 0 <= i < count ==> (i in host.rules <==> !host.succeeds(|host.log| - 1 - i))
    ensures count < |routes| ==> !host.succeeds(|old(host.log)| + count)
    ensures host.left == old(host.left) + Spilled(host.spills, |old(host.log)|, count, |routes|)
  {
    hide *;
    var installed := new bool[|routes|](_ => false);
    var served;
    served, count, deeds := BringUp(host, hosted, routes, guest, installed);
    var closed := CloseFirst(host, installed, count);
    LogSum(old(host.log), |routes|, count, deeds);
    result := if served && closed then 0 else 1;
  }

  /** main, after argument parsing and preflight; signals: the signal descriptor
      could be created. */
  method Run(host: Host, hosted: Hosted, routes: seq<Route>, guest: int, signals: bool)
    returns (result: int, ghost count: nat, ghost deeds: seq<Deed>)
    requires host.log == [] && host.rules == map[] && hosted.listeners == [] && Consistent(routes)
    modifies host, hosted
    ensures !signals ==> host.log == [] && result == 1
    ensures signals && !host.succeeds(0) ==> host.log == [OpenTun] && result == 1
    ensures signals && host.succeeds(0) ==>
              && count <= |routes| && host.log == MainLog(|routes|, count, deeds)
              && (if count < |routes| then deeds == [] else ChildDeeds(deeds, host.succeeds(1 + |routes|)))
              && (result == 0 <==> host.rules == map[] && ServedWell(deeds, host.succeeds, 1 + |routes|))
    ensures forall i :: i in host.rules ==> i < count
    ensures signals && host.succeeds(0) ==>
              && count + 2 <= |host.log| && (forall i :: 0 <= i < count ==> (i in host.rules <==> !host.succeeds(|host.log| - 2 - i)))
              && (count < |routes| ==> !host.succeeds(1 + count))
    ensures host.left == if signals && host.succeeds(0) then old(host.left) + Spilled(host.spills, 1, count, |routes|) else old(host.left)
  {
    hide HoldLog, Spilled, Consistent, ChildDeeds, ServedWell;
    result, count, deeds := 1, 0, [];
    if !signals {
      return;
    }
    var tunOpen := host.Do(OpenTun);
    if !tunOpen {
      return;
    }
    result, count, deeds := Hold(host, hosted, routes, guest);
    var ignored := host.Do(CloseTun);
  }

  /** The deed that closes policy i is the i-th from the end. */
  lemma {:induction false} ClosesAtEnd(count: nat, n: nat, i: nat)
    requires i < count <= n
    ensures |ClosesOf(Marked(count, n))| == count && ClosesOf(Marked(count, n))[count - 1 - i] == CloseFirewall(i)
    decreases n
  {
    assert Marked(count, n)[..n - 1] == Marked(if count < n then count else n - 1, n - 1);
    if count < n {
      ClosesAtEnd(count, n - 1, i);
    } else if i < n - 1 {
      ClosesAtEnd(n - 1, n - 1, i);
    } else if n > 1 {
      ClosesAtEnd(n - 1, n - 1, 0);
    } else {
      assert Marked(0, 0) == [];
    }
  }

  lemma ClosesLength(log: seq<Deed>, m: nat, count: nat, n: nat)
    requires count <= n && m <= |log| && log[m..] == ClosesOf(Marked(count, n))
    ensures m + count <= |log|
  {
    if count > 0 {
      ClosesAtEnd(count, n, 0);
      assert |log[m..]| == |log| - m;
    }
  }

  lemma ToldOf(log: seq<Deed>, m: nat, rules: map<nat, Rule>, succeeds: nat -> bool, count: nat, n: nat)
    requires count <= n && m <= |log| && log[m..] == ClosesOf(Marked(count, n)) && Told(log, m, rules, succeeds, 0)
    ensures count <= |log| && forall i :: 0 <= i < count ==> (i in rules <==> !succeeds(|log| - 1 - i))
  {
    if count > 0 {
      ClosesAtEnd(count, n, 0);
      assert |log[m..]| == |log| - m;
    }
    forall i | 0 <= i < count ensures i in rules <==> !succeeds(|log| - 1 - i) {
      ClosesAtEnd(count, n, i);
      assert log[|log| - 1 - i] == log[m..][count - 1 - i];
    }
  }

  lemma LogSum(log: seq<Deed>, n: nat, count: nat, deeds: seq<Deed>)
    ensures log + Installs(Attempts(n, count)) + deeds + ClosesOf(Marked(count, n)) == log + HoldLog(n, count, deeds)
  {
    hide Installs, ClosesOf, Marked, Attempts;
  }

  lemma AllAttempts(n: nat)
    ensures Attempts(n, n) == n
  {
  }

  lemma InstallsLength(n: nat)
    ensures |Installs(n)| == n
  {
  }

  lemma MarkedIs(flags: seq<bool>, count: nat)
    requires forall i :: 0 <= i < |flags| ==> (flags[i] <==> i < count)
    ensures flags == Marked(count, |flags|)
  {
  }

  lemma Installed(routes: seq<Route>, n: nat)
    requires n <= |routes|
    ensures forall i :: i in RuleMap(routes[..n]) <==> 0 <= i < n
  {
  }

  lemma NotServed(succeeds: nat -> bool, at: nat)
    ensures !ServedWell([], succeeds, at)
  {
  }
}

/** The native supervisor's routes: which forwards are accepted, and what the
    accepted ones mean once the firewall and the hosted listeners compose. */
module Forwards {
  import opened Lists

  /** An address is an opaque number. */
  datatype Endpoint = Endpoint(version: int, address: int, port: nat)

  datatype Route = Route(listen: Endpoint, backend: Endpoint)

  const LOOPBACK: int := 0x7f00_0001

  datatype ForwardError = BadListen | BadBackend | MixedFamily | PortTaken | NoMemory

  /** One family, every port once. */
  predicate Consistent(routes: seq<Route>) {
    && (forall i, j :: 0 <= i < j < |routes| ==> routes[i].listen.version == routes[j].listen.version)
    && (forall i, j :: 0 <= i < j < |routes| ==> routes[i].listen.port != routes[j].listen.port)
  }

  /** A forward as the parser leaves it; memory: the route array can grow. */
  datatype Forward = Forward(listen: Option<Endpoint>, backend: Option<Endpoint>, memory: bool)

  predicate Parses(f: Forward) {
    f.listen.Some? && f.backend.Some? && f.backend.value.version == 4 && f.backend.value.address == LOOPBACK
  }

  /** The routes after a sequence of forwards: each one that parses, fits in with
      all routes before it, and finds memory. */
  function Accepted(forwards: seq<Forward>): seq<Route> {
    if forwards == [] then []
    else
      var before := Accepted(forwards[..|forwards| - 1]);
      var f := forwards[|forwards| - 1];
      if Parses(f) && f.memory && Consistent(before + [Route(f.listen.value, f.backend.value)])
      then before + [Route(f.listen.value, f.backend.value)]
      else before
  }

  class Config {
    var routes: seq<Route>

    constructor ()
      ensures routes == []
    {
      routes := [];
    }

    /** tcpcc_validate_new_listen: compares with the first route's family and
        with every route's port. */
    method ValidateNewListen(listen: Endpoint) returns (error: Option<ForwardError>)
      requires Consistent(routes)
      ensures error.None? <==> forall backend :: Consistent(routes + [Route(listen, backend)])
      ensures error == Some(MixedFamily) <==> routes != [] && routes[0].listen.version != listen.version
      ensures error.Some? ==> error.value in {MixedFamily, PortTaken}
    {
      if |routes| > 0 && routes[0].listen.version != listen.version {
        Unfit(routes, listen, 0);
        assert !Consistent(routes + [Route(listen, listen)]);
        return Some(MixedFamily);
      }
      for index := 0 to |routes|
        invariant forall i :: 0 <= i < index ==> routes[i].listen.port != listen.port
      {
        if routes[index].listen.port == listen.port {
          Unfit(routes, listen, index);
          assert !Consistent(routes + [Route(listen, listen)]);
          return Some(PortTaken);
        }
      }
      forall backend ensures Consistent(routes + [Route(listen, backend)]) {
        Fit(routes, listen, backend);
      }
      return None;
    }

    /** tcpcc_add_forward, with tcpcc_append_route. */
    method AddForward(f: Forward) returns (error: Option<ForwardError>)
      requires Consistent(routes)
      modifies this
      ensures Consistent(routes)
      ensures error.None? <==>
              && Parses(f) && f.memory
              && old(Consistent(routes + [Route(f.listen.value, f.backend.value)]))
      ensures routes == if error.None? then old(routes) + [Route(f.listen.value, f.backend.value)] else old(routes)
    {
      hide Consistent;
      if f.listen.None? {
        return Some(BadListen);
      }
      if f.backend.None? || f.backend.value.version != 4 || f.backend.value.address != LOOPBACK {
        return Some(BadBackend);
      }
      error := ValidateNewListen(f.listen.value);
      if error.Some? {
        Unfitting(routes, f.listen.value, f.backend.value);
      } else if !f.memory {
        error := Some(NoMemory);
      } else {
        routes := routes + [Route(f.listen.value, f.backend.value)];
      }
    }

    /** Any sequence of forwards, accepted or rejected. */
    method AddForwards(forwards: seq<Forward>) returns (errors: nat)
      requires routes == []
      modifies this
      ensures routes == Accepted(forwards) && Consistent(routes) && errors == |forwards| - |routes|
    {
      errors := 0;
      for i := 0 to |forwards|
        invariant routes == Accepted(forwards[..i]) && Consistent(routes) && errors == i - |routes|
      {
        assert forwards[..i + 1][..i] == forwards[..i];
        var error := AddForward(forwards[i]);
        if error.Some? {
          errors := errors + 1;
        }
      }
      assert forwards[..|forwards|] == forwards;
    }
  }

  /** Agreeing with the first route's family and avoiding every port is enough. */
  lemma Fit(routes: seq<Route>, listen: Endpoint, backend: Endpoint)
    requires Consistent(routes) && (routes != [] ==> routes[0].listen.version == listen.version)
    requires forall i :: 0 <= i < |routes| ==> routes[i].listen.port != listen.port
    ensures Consistent(routes + [Route(listen, backend)])
  {
    var all := routes + [Route(listen, backend)];
    forall i, j | 0 <= i < j < |all|
      ensures all[i].listen.version == all[j].listen.version && all[i].listen.port != all[j].listen.port
    {
      assert i == 0 || routes[0].listen.version == routes[i].listen.version;
    }
  }

  lemma Unfit(routes: seq<Route>, listen: Endpoint, i: nat)
    requires i < |routes|
    requires routes[i].listen.version != listen.version || routes[i].listen.port == listen.port
    ensures forall backend :: !Consistent(routes + [Route(listen, backend)])
  {
    forall backend ensures !Consistent(routes + [Route(listen, backend)]) {
      var all := routes + [Route(listen, backend)];
      assert all[i] == routes[i] && all[|routes|].listen == listen;
    }
  }

  /** Whether a route fits does not depend on its backend. */
  lemma Unfitting(routes: seq<Route>, listen: Endpoint, backend: Endpoint)
    requires !(forall b :: Consistent(routes + [Route(listen, b)]))
    ensures !Consistent(routes + [Route(listen, backend)])
  {
    var b :| !Consistent(routes + [Route(listen, b)]);
    var one, other := routes + [Route(listen, b)], routes + [Route(listen, backend)];
    assert forall i :: 0 <= i < |one| ==> one[i].listen == other[i].listen;
  }

  // ----- what the routes mean -----

  /** A DNAT rule: public destination, and the port at the guest. */
  datatype Rule = Rule(listen: Endpoint, port: nat)

  /** A hosted listener at the guest address, and its service's backend port. */
  datatype Listener = Listener(port: nat, backend: nat)

  /** The policy installed for a route keeps its port. */
  function RuleOf(r: Route): Rule {
    Rule(r.listen, r.listen.port)
  }

  function ListenerOf(r: Route): Listener {
    Listener(r.listen.port, r.backend.port)
  }

  function Rules(routes: seq<Route>): seq<Rule> {
    seq(|routes|, i requires 0 <= i < |routes| => RuleOf(routes[i]))
  }

  function Listeners(routes: seq<Route>): seq<Listener> {
    seq(|routes|, i requires 0 <= i < |routes| => ListenerOf(routes[i]))
  }

  /** The firewall: the first rule for the destination gives the guest port. */
  function Translate(rules: seq<Rule>, to: Endpoint): Option<nat> {
    if rules == [] then None
    else if rules[0].listen == to then Some(rules[0].port)
    else Translate(rules[1..], to)
  }

  /** The hosted stack: the first listener on the port. */
  function Lookup(listeners: seq<Listener>, port: nat): Option<nat> {
    if listeners == [] then None
    else if listeners[0].port == port then Some(listeners[0].backend)
    else Lookup(listeners[1..], port)
  }

  /** Where a connection to a public endpoint ends up. */
  function Deliver(rules: seq<Rule>, listeners: seq<Listener>, to: Endpoint): Option<nat> {
    match Translate(rules, to)
    case None => None
    case Some(port) => Lookup(listeners, port)
  }

  lemma {:induction false} TranslateRoutes(routes: seq<Route>, to: Endpoint)
    ensures Translate(Rules(routes), to).Some? <==> exists i :: 0 <= i < |routes| && routes[i].listen == to
    ensures Translate(Rules(routes), to).Some? ==> Translate(Rules(routes), to) == Some(to.port)
  {
    if routes != [] {
      assert Rules(routes)[1..] == Rules(routes[1..]);
      TranslateRoutes(routes[1..], to);
      if i :| 0 <= i < |routes[1..]| && routes[1..][i].listen == to {
        assert routes[i + 1].listen == to;
      }
      if i :| 0 < i < |routes| && routes[i].listen == to {
        assert routes[1..][i - 1].listen == to;
      }
    }
  }

  lemma {:induction false} LookupFirst(routes: seq<Route>, m: nat)
    requires m < |routes| && forall i :: 0 <= i < m ==> routes[i].listen.port != routes[m].listen.port
    ensures Lookup(Listeners(routes), routes[m].listen.port) == Some(routes[m].backend.port)
  {
    assert Listeners(routes)[1..] == Listeners(routes[1..]);
    if m > 0 {
      LookupFirst(routes[1..], m - 1);
    }
  }

  /** Every public endpoint reaches exactly its own backend, and no other
      destination reaches any. */
  ghost predicate Faithful(routes: seq<Route>) {
    && (forall i :: 0 <= i < |routes| ==>
          Deliver(Rules(routes), Listeners(routes), routes[i].listen) == Some(routes[i].backend.port))
    && (forall to :: (forall i :: 0 <= i < |routes| ==> routes[i].listen != to) ==>
          Deliver(Rules(routes), Listeners(routes), to) == None)
  }

  /** Routes on one port agree on the backend. */
  ghost predicate Agreeing(routes: seq<Route>) {
    forall i, j :: 0 <= i < |routes| && 0 <= j < |routes| && routes[i].listen.port == routes[j].listen.port ==>
                     routes[i].backend.port == routes[j].backend.port
  }

  lemma {:induction false} FirstOnPort(routes: seq<Route>, i: nat) returns (m: nat)
    requires i < |routes|
    ensures m <= i && routes[m].listen.port == routes[i].listen.port
    ensures forall j :: 0 <= j < m ==> routes[j].listen.port != routes[i].listen.port
  {
    m := 0;
    while routes[m].listen.port != routes[i].listen.port
      invariant m <= i && forall j :: 0 <= j < m ==> routes[j].listen.port != routes[i].listen.port
      decreases i - m
    {
      m := m + 1;
    }
  }

  /** A route's traffic goes to the first route on its port. */
  lemma DeliverFirst(routes: seq<Route>, i: nat, m: nat)
    requires m <= i < |routes| && routes[m].listen.port == routes[i].listen.port
    requires forall j :: 0 <= j < m ==> routes[j].listen.port != routes[i].listen.port
    ensures Deliver(Rules(routes), Listeners(routes), routes[i].listen) == Some(routes[m].backend.port)
  {
    TranslateRoutes(routes, routes[i].listen);
    LookupFirst(routes, m);
  }

  /** Exactly when the composition is faithful: because every rule goes to one
      guest address and keeps the port, the public address is lost, and routes
      on one port must agree. */
  lemma FaithfulIffAgreeing(routes: seq<Route>)
    ensures Faithful(routes) <==> Agreeing(routes)
  {
    hide Deliver, Rules, Listeners;
    if Agreeing(routes) {
      forall i | 0 <= i < |routes|
        ensures Deliver(Rules(routes), Listeners(routes), routes[i].listen) == Some(routes[i].backend.port)
      {
        var m := FirstOnPort(routes, i);
        DeliverFirst(routes, i, m);
      }
      forall to | forall i :: 0 <= i < |routes| ==> routes[i].listen != to
        ensures Deliver(Rules(routes), Listeners(routes), to) == None
      {
        Elsewhere(routes, to);
      }
    }
    if Faithful(routes) {
      forall i, j | 0 <= i < |routes| && 0 <= j < |routes| && routes[i].listen.port == routes[j].listen.port
        ensures routes[i].backend.port == routes[j].backend.port
      {
        var m := FirstOnPort(routes, i);
        var n := FirstOnPort(routes, j);
        DeliverFirst(routes, i, m);
        DeliverFirst(routes, j, n);
      }
    }
  }

  lemma Elsewhere(routes: seq<Route>, to: Endpoint)
    requires forall i :: 0 <= i < |routes| ==> routes[i].listen != to
    ensures Deliver(Rules(routes), Listeners(routes), to) == None
  {
    TranslateRoutes(routes, to);
  }

  lemma ConsistentFaithful(routes: seq<Route>)
    requires Consistent(routes)
    ensures Faithful(routes)
  {
    forall i, j | 0 <= i < |routes| && 0 <= j < |routes| && routes[i].listen.port == routes[j].listen.port
      ensures i == j
    {
      assert !(i < j) && !(j < i);
    }
    FaithfulIffAgreeing(routes);
  }

  /** Whatever forwards are given, the accepted ones are faithful. */
  lemma {:induction false} AcceptedFaithful(forwards: seq<Forward>)
    ensures Consistent(Accepted(forwards)) && Faithful(Accepted(forwards))
  {
    hide Faithful;
    if forwards != [] {
      AcceptedFaithful(forwards[..|forwards| - 1]);
    }
    ConsistentFaithful(Accepted(forwards));
  }
}

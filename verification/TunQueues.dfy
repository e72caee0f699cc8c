/** Creating a TUN queue, retrying on name collisions, and closing it. */
module TunQueues {
  import opened Lists
  import opened HostCleanup

  const EBUSY: int := 16
  const EEXIST: int := 17

  /** What goes wrong once the device is open. */
  datatype SetupError =
    | IoctlFailed(errno: int) | NameNotAscii | WrongName(actual: string) | CommandFailed(error: Error)

  /** Everything the outside does in one attempt. */
  datatype Attempt = Attempt(
    name: string, nameError: Option<Error>, openError: Option<Error>,
    ioctlError: Option<int>, attached: Option<string>,
    addressError: Option<Error>, linkError: Option<Error>, routeError: Option<Error>,
    closeError: Option<Error>)

  datatype Created =
    | Queue(name: string, fd: nat)
    | BadAttemptCount
    | NameFailed(error: Error)
    | OpenFailed(error: Error)
    | SetupFailed(setup: SetupError)
    | SetupAndCleanupFailed(setup: SetupError, cleanup: Error)
    | NoUniqueName(attempts: nat)

  /** The open descriptors: the n-th open returns n, whatever number the kernel
      uses, and closed lists the close calls in order. */
  class Devices {
    var opens: nat
    var closed: seq<nat>

    constructor ()
      ensures opens == 0 && closed == []
    {
      opens, closed := 0, [];
    }

    method Open() returns (fd: nat)
      modifies this`opens
      ensures fd == old(opens) && opens == old(opens) + 1
    {
      fd := opens;
      opens := opens + 1;
    }

    method Close(fd: nat)
      modifies this`closed
      ensures closed == old(closed) + [fd]
    {
      closed := closed + [fd];
    }
  }

  function Range(a: nat, b: nat): seq<nat>
    requires a <= b
  {
    seq(b - a, i requires 0 <= i < b - a => a + i)
  }

  /** The first thing that fails between the open and the finished queue. */
  function Setup(a: Attempt, ipv6: bool): Option<SetupError> {
    if a.ioctlError.Some? then Some(IoctlFailed(a.ioctlError.value))
    else if a.attached.None? then Some(NameNotAscii)
    else if a.attached.value != a.name then Some(WrongName(a.attached.value))
    else if a.addressError.Some? then Some(CommandFailed(a.addressError.value))
    else if a.linkError.Some? then Some(CommandFailed(a.linkError.value))
    else if ipv6 && a.routeError.Some? then Some(CommandFailed(a.routeError.value))
    else None
  }

  /** The attempt is worth repeating: a generated name was taken, and its
      descriptor could be closed. */
  predicate Collides(a: Attempt, generated: bool) {
    && a.nameError.None? && a.openError.None? && generated
    && (a.ioctlError == Some(EBUSY) || a.ioctlError == Some(EEXIST)) && a.closeError.None?
  }

  predicate Opens(a: Attempt) {
    a.nameError.None? && a.openError.None?
  }

  /** The result of an attempt that is not repeated. */
  function Decided(a: Attempt, ipv6: bool, fd: nat): Created {
    if a.nameError.Some? then NameFailed(a.nameError.value)
    else if a.openError.Some? then OpenFailed(a.openError.value)
    else match Setup(a, ipv6)
      case None => Queue(a.name, fd)
      case Some(error) =>
        if a.closeError.Some? then SetupAndCleanupFailed(error, a.closeError.value) else SetupFailed(error)
  }

  /** The number of attempts that end in a collision. */
  function Collisions(world: nat -> Attempt, generated: bool, from: nat, limit: nat): (n: nat)
    requires from <= limit
    ensures n <= limit - from
    decreases limit - from
  {
    if from == limit || !Collides(world(from), generated) then 0
    else 1 + Collisions(world, generated, from + 1, limit)
  }

  /** They are the first attempts, and the next one, if any, is different. */
  lemma {:induction false} CollisionsSpec(world: nat -> Attempt, generated: bool, from: nat, limit: nat, i: nat)
    requires from <= limit
    ensures var n := Collisions(world, generated, from, limit);
            && (from <= i < from + n ==> Collides(world(i), generated))
            && (from + n < limit ==> !Collides(world(from + n), generated))
    decreases limit - from
  {
    hide Collides;
    if from < limit && Collides(world(from), generated) {
      CollisionsSpec(world, generated, from + 1, limit, i);
    }
  }

  lemma CollisionStep(world: nat -> Attempt, generated: bool, i: nat, n: nat)
    requires i <= n
    ensures Collisions(world, generated, i, n) ==
            if i == n || !Collides(world(i), generated) then 0 else 1 + Collisions(world, generated, i + 1, n)
  {
  }

  function Attempts(generated: bool, maxAttempts: int): nat
    requires maxAttempts >= 1
  {
    if generated then maxAttempts else 1
  }

  /** One pass through the loop body. */
  method TryOnce(a: Attempt, generated: bool, ipv6: bool, d: Devices) returns (retry: bool, r: Created)
    modifies d
    ensures (retry <==> Collides(a, generated)) && (retry ==> Opens(a))
    ensures !retry ==> r == Decided(a, ipv6, old(d.opens))
    ensures d.opens == old(d.opens) + (if Opens(a) then 1 else 0)
    ensures d.closed == old(d.closed) + (if Opens(a) && (retry || !r.Queue?) then [old(d.opens)] else [])
  {
    retry, r := false, BadAttemptCount;
    if a.nameError.Some? {
      return false, NameFailed(a.nameError.value);
    }
    if a.openError.Some? {
      return false, OpenFailed(a.openError.value);
    }
    var fd := d.Open();
    var error := Setup(a, ipv6);
    if error.None? {
      return false, Queue(a.name, fd);
    }
    d.Close(fd);
    if a.closeError.Some? {
      return false, SetupAndCleanupFailed(error.value, a.closeError.value);
    }
    if generated && (error.value == IoctlFailed(EBUSY) || error.value == IoctlFailed(EEXIST)) {
      return true, BadAttemptCount;
    }
    return false, SetupFailed(error.value);
  }

  /** create_tun_queue.  Every descriptor it opens is returned or closed once, in
      order; only name collisions are retried. */
  method CreateTunQueue(generated: bool, ipv6: bool, maxAttempts: int, d: Devices, world: nat -> Attempt) returns (r: Created)
    modifies d
    ensures r.BadAttemptCount? <==> maxAttempts < 1
    ensures d.opens >= old(d.opens)
    ensures r.Queue? ==> r.fd + 1 == d.opens && r.fd >= old(d.opens) && d.closed == old(d.closed) + Range(old(d.opens), r.fd)
    ensures !r.Queue? ==> d.closed == old(d.closed) + Range(old(d.opens), d.opens)
    ensures maxAttempts >= 1 ==>
              var n := Attempts(generated, maxAttempts);
              var k := Collisions(world, generated, 0, n);
              && r == (if k == n then NoUniqueName(n) else Decided(world(k), ipv6, old(d.opens) + k))
              && d.opens == old(d.opens) + k + (if k < n && Opens(world(k)) then 1 else 0)
  {
    if maxAttempts < 1 {
      return BadAttemptCount;
    }
    hide Decided, Range, Collides, Collisions, Opens;
    RangeGrows(d.opens, d.opens);
    var n := Attempts(generated, maxAttempts);
    var i := 0;
    while i < n
      invariant 0 <= i <= n && d.opens == old(d.opens) + i
      invariant d.closed == old(d.closed) + Range(old(d.opens), d.opens)
      invariant Collisions(world, generated, 0, n) == i + Collisions(world, generated, i, n)
    {
      RangeGrows(old(d.opens), d.opens);
      CollisionStep(world, generated, i, n);
      DecidedOpens(world(i), ipv6, d.opens);
      var retry;
      retry, r := TryOnce(world(i), generated, ipv6, d);
      if !retry {
        return;
      }
      i := i + 1;
    }
    CollisionStep(world, generated, n, n);
    return NoUniqueName(n);
  }

  lemma DecidedOpens(a: Attempt, ipv6: bool, fd: nat)
    ensures Decided(a, ipv6, fd).Queue? ==> Opens(a) && Decided(a, ipv6, fd).fd == fd
    ensures !Decided(a, ipv6, fd).BadAttemptCount?
  {
  }

  lemma RangeGrows(a: nat, b: nat)
    requires a <= b
    ensures Range(a, a) == [] && Range(a, b + 1) == Range(a, b) + [b]
  {
  }

  /** The queue that owns a descriptor. */
  class TunQueue {
    const name: string
    var fd: Option<nat>

    constructor (name: string, fd: nat)
      ensures this.name == name && this.fd == Some(fd)
    {
      this.name, this.fd := name, Some(fd);
    }

    /** Closes the descriptor the first time and does nothing afterwards, even
        when that close raised. */
    method Close(d: Devices)
      modifies this`fd, d`closed
      ensures fd == None
      ensures d.closed == old(d.closed) + (if old(fd).Some? then [old(fd).value] else [])
    {
      if fd.None? {
        return;
      }
      var owned := fd.value;
      fd := None;
      d.Close(owned);
    }
  }
}

/** The lane invariant, pump action by pump action. */
module BridgeLaneProofs {
  import opened Bytes
  import opened Lanes
  import opened BridgeState
  import opened BridgeInvariant

  /** Nothing about the lane changed; the session became less quiet or more
      notified. */
  lemma Weaken(l: Lane, way: Way, d: DispatchAt, running: bool, quiet: bool, idle: bool, r: bool, w: bool,
               quiet': bool, idle': bool, r': bool, w': bool)
    requires LaneOk(l, way, d, running, quiet, idle, r, w)
    requires (quiet' ==> quiet) && (idle' ==> idle) && (r ==> r') && (w ==> w')
    ensures LaneOk(l, way, d, running, quiet', idle', r', w')
  {
    hide Stream, Shape, OnLane, WillVisit, WillPump, TryingRead, TryingWrite, Blocked, Pending;
  }

  predicate SameTape(l: Lane, l': Lane) {
    && l'.held == l.held && l'.buffer == l.buffer && l'.offset == l.offset && l'.length == l.length
    && l'.bytes == l.bytes && l'.received == l.received && l'.sent == l.sent
  }

  lemma SameStream(l: Lane, l': Lane, way: Way, d: DispatchAt, running: bool)
    requires Stream(l, way, d, running) && SameTape(l, l') && l'.done == l.done
    ensures Stream(l', way, d, running)
  {
  }

  lemma SameShape(l: Lane, l': Lane, way: Way, d: DispatchAt, running: bool)
    requires Shape(l, way, d, running) && SameTape(l, l')
    requires l'.done == l.done && l'.shut == l.shut && l'.eof == l.eof && l'.waiting == l.waiting
    requires l.readable ==> l'.readable
    ensures Shape(l', way, d, running)
  {
    hide OnLane;
  }

  /** The world changes the sockets' side of the lane and announces it. */
  lemma Sockets(l: Lane, way: Way, d: DispatchAt, running: bool, quiet: bool, idle: bool, r: bool, w: bool,
                input: bool, room: bool, r': bool, w': bool)
    requires LaneOk(l, way, d, running, quiet, idle, r, w)
    requires (r ==> r') && (w ==> w') && (input ==> l.input || r') && (room ==> l.room || w')
    ensures LaneOk(l.(input := input, room := room), way, d, running, quiet, idle, r', w')
  {
    var l' := l.(input := input, room := room);
    hide Stream, Shape, OnLane, WillVisit, WillPump, TryingRead, TryingWrite;
    SameStream(l, l', way, d, running);
    SameShape(l, l', way, d, running);
  }

  /** A flag is set from outside the pump: the session must be about to be
      queued, or the dispatcher about to look. */
  lemma Flags(l: Lane, way: Way, d: DispatchAt, running: bool, quiet: bool, idle: bool, r: bool, w: bool,
              readable: bool, writable: bool, quiet': bool, r': bool, w': bool)
    requires LaneOk(l, way, d, running, quiet, idle, r, w)
    requires (l.readable ==> readable) && (l.writable ==> writable)
    requires (r ==> r' || readable) && (w ==> w' || writable)
    requires quiet' ==> WillVisit(d, way) && !OnLane(d, way)
    ensures LaneOk(l.(readable := readable, writable := writable), way, d, running, quiet', idle, r', w')
  {
    var l' := l.(readable := readable, writable := writable);
    hide Stream, Shape, OnLane, WillVisit, WillPump, TryingRead, TryingWrite, Blocked;
    SameStream(l, l', way, d, running);
    SameShape(l, l', way, d, running);
  }

  /** The dispatcher is not working on the lane before or after. */
  predicate Elsewhere(d: DispatchAt, way: Way) {
    !OnLane(d, way) || d.Top? || d.Leaving?
  }

  /** The dispatcher is about to finish the session. */
  predicate Doomed(d: DispatchAt) {
    d.Failing? || d.Finishing?
  }

  predicate HalfReleased(d: DispatchAt) {
    d == Releasing(false)
  }

  predicate InBudget(d: DispatchAt, way: Way) {
    OnLane(d, way) ==> d.ops <= 32
  }

  /** The dispatcher moves from d to d' without working on this lane. */
  ghost predicate ShiftOk(l: Lane, way: Way, d: DispatchAt, d': DispatchAt, running: bool, quiet: bool, idle: bool,
                          quiet': bool, idle': bool) {
    && Elsewhere(d, way) && Elsewhere(d', way) && InBudget(d', way)
    && (running && Doomed(d) ==> Doomed(d'))
    && (HalfReleased(d) ==> HalfReleased(d') || !l.held)
    && (quiet' ==> WillVisit(d', way) || Blocked(l) || (quiet && !WillVisit(d, way)))
    && (idle' ==> WillPump(d', way) || !l.held || Pending(l) || (idle && !WillPump(d, way)))
  }

  lemma Shift(l: Lane, way: Way, d: DispatchAt, d': DispatchAt, running: bool, quiet: bool, idle: bool, r: bool, w: bool,
              quiet': bool, idle': bool)
    requires LaneOk(l, way, d, running, quiet, idle, r, w)
    requires ShiftOk(l, way, d, d', running, quiet, idle, quiet', idle')
    ensures LaneOk(l, way, d', running, quiet', idle', r, w)
  {
    hide Stream, Shape, WillVisit, WillPump;
    ShiftStream(l, way, d, d', running);
    ShiftShape(l, way, d, d', running);
  }

  lemma ShiftStream(l: Lane, way: Way, d: DispatchAt, d': DispatchAt, running: bool)
    requires Stream(l, way, d, running) && Elsewhere(d, way) && Elsewhere(d', way)
    ensures Stream(l, way, d', running)
  {
    hide StreamOk, Remains;
  }

  lemma ShiftShape(l: Lane, way: Way, d: DispatchAt, d': DispatchAt, running: bool)
    requires Shape(l, way, d, running)
    requires Elsewhere(d, way) && Elsewhere(d', way) && (OnLane(d', way) ==> d'.ops <= 32)
    requires running && (d.Failing? || d.Finishing?) ==> d'.Failing? || d'.Finishing?
    requires d == Releasing(false) ==> d' == Releasing(false) || !l.held
    ensures Shape(l, way, d', running)
  {
  }

  /** Moving from d to d' is no business of this lane. */
  predicate Passes(d: DispatchAt, d': DispatchAt, way: Way) {
    Elsewhere(d, way) && Elsewhere(d', way) && InBudget(d', way) && (Doomed(d) ==> Doomed(d')) && !HalfReleased(d)
  }

  /** ... and a visit that was to come still is. */
  predicate Carries(d: DispatchAt, d': DispatchAt, way: Way) {
    Passes(d, d', way) && (WillVisit(d, way) ==> WillVisit(d', way)) && (WillPump(d, way) ==> WillPump(d', way))
  }

  /** Three ways to pass a lane by: a visit to come still comes, the session
      is queued, or the dispatcher is going to visit. */
  ghost predicate PassOk(d: DispatchAt, d': DispatchAt, way: Way, quiet: bool, idle: bool, quiet': bool, idle': bool) {
    && Passes(d, d', way)
    && (|| (Carries(d, d', way) && (quiet' ==> quiet) && (idle' ==> idle))
        || (!quiet' && !idle')
        || (WillVisit(d', way) && WillPump(d', way)))
  }

  lemma PassLane(l: Lane, way: Way, d: DispatchAt, d': DispatchAt, running: bool, quiet: bool, idle: bool, r: bool, w: bool,
                 quiet': bool, idle': bool)
    requires LaneOk(l, way, d, running, quiet, idle, r, w) && PassOk(d, d', way, quiet, idle, quiet', idle')
    ensures LaneOk(l, way, d', running, quiet', idle', r, w)
  {
    hide Blocked, Pending, OnLane, WillVisit, WillPump, Elsewhere, InBudget, Doomed, HalfReleased, Stream, Shape,
         TryingRead, TryingWrite;
    Shift(l, way, d, d', running, quiet, idle, r, w, quiet', idle');
  }

  lemma LanePasses(l: Lane, way: Way, d: DispatchAt, d': DispatchAt, k: Core, k': Core, c: ControlAt, c': ControlAt, due: Due)
    requires LaneInv(l, way, d, k, c, due) && k'.running == k.running
    requires PassOk(d, d', way, Quiet(k, c, due.marked), Unlisted(k), Quiet(k', c', due.marked), Unlisted(k'))
    ensures LaneInv(l, way, d', k', c', due)
  {
    hide LaneOk, PassOk, Quiet, Unlisted, ReadDue, WriteDue;
    PassLane(l, way, d, d', k.running, Quiet(k, c, due.marked), Unlisted(k),
             ReadDue(way, due), WriteDue(way, due), Quiet(k', c', due.marked), Unlisted(k'));
  }

  lemma StillShift(l: Lane, way: Way, d: DispatchAt, d': DispatchAt, r: bool, w: bool)
    requires LaneOk(l, way, d, false, false, false, r, w) && Elsewhere(d, way) && Elsewhere(d', way) && InBudget(d', way)
    requires HalfReleased(d) ==> !l.held
    ensures LaneOk(l, way, d', false, false, false, r, w)
  {
    hide Stream, Shape, OnLane;
    ShiftStream(l, way, d, d', false);
    ShiftShape(l, way, d, d', false);
  }

  lemma RestIsNotQuiet(k: Core, c: ControlAt, marked: bool)
    requires !k.running
    ensures Quiet(k, c, marked) == false && Unlisted(k) == false
  {
  }

  /** The lanes of a session that does not run. */
  lemma LaneStill(l: Lane, way: Way, d: DispatchAt, d': DispatchAt, k: Core, k': Core, c: ControlAt, c': ControlAt, due: Due)
    requires LaneInv(l, way, d, k, c, due) && !k.running && !k'.running
    requires Elsewhere(d, way) && Elsewhere(d', way) && InBudget(d', way)
    requires HalfReleased(d) ==> !l.held
    ensures LaneInv(l, way, d', k', c', due)
  {
    hide LaneOk, Elsewhere, InBudget, HalfReleased, ReadDue, WriteDue, Quiet, Unlisted;
    RestIsNotQuiet(k, c, due.marked);
    RestIsNotQuiet(k', c', due.marked);
    StillShift(l, way, d, d', ReadDue(way, due), WriteDue(way, due));
  }

  // ----- the pump's own lane -----

  lemma TopSends(l: Lane, way: Way, ops: nat, quiet: bool, idle: bool, r: bool, w: bool)
    requires LaneOk(l, way, Top(way, ops), true, quiet, idle, r, w)
    requires ops < 32 && !l.done && Pending(l) && l.writable
    ensures LaneOk(TakeWritable(l), way, Sending(way, ops), true, quiet, idle, r, w)
  {
    hide StreamOk;
    SameStream(l, TakeWritable(l), way, Top(way, ops), true);
  }

  lemma TopLeaves(l: Lane, way: Way, ops: nat, quiet: bool, idle: bool, r: bool, w: bool)
    requires LaneOk(l, way, Top(way, ops), true, quiet, idle, r, w)
    requires ops >= 32 || Blocked(l)
    ensures LaneOk(l, way, Leaving(way, ops), true, quiet, idle, r, w)
  {
    hide Stream;
    Shift(l, way, Top(way, ops), Leaving(way, ops), true, quiet, idle, r, w, quiet, idle);
  }

  lemma TopTakes(l: Lane, way: Way, ops: nat, quiet: bool, idle: bool, r: bool, w: bool)
    requires LaneOk(l, way, Top(way, ops), true, quiet, idle, r, w)
    requires ops < 32 && !l.done && !Pending(l) && !l.waiting && l.readable
    ensures LaneOk(Acquire(TakeReadable(l)), way, Receiving(way, ops), true, quiet, idle, r, w)
    ensures !l.eof
  {
    hide Stream;
    TopTakesStream(l, way, ops);
  }

  lemma TopTakesStream(l: Lane, way: Way, ops: nat)
    requires Stream(l, way, Top(way, ops), true) && !Pending(l)
    ensures Stream(Acquire(TakeReadable(l)), way, Receiving(way, ops), true)
  {
    hide StreamOk;
    AcquireReleaseKeepStream(l);
    SameStream(Acquire(l), Acquire(TakeReadable(l)), way, Receiving(way, ops), true);
  }

  lemma TopStarves(l: Lane, way: Way, ops: nat, quiet: bool, idle: bool, r: bool, w: bool)
    requires LaneOk(l, way, Top(way, ops), true, quiet, idle, r, w)
    requires ops < 32 && !l.done && !Pending(l) && !l.waiting && l.readable && !l.held
    ensures LaneOk(TakeReadable(l), way, NoBuffer(way, ops), true, quiet, idle, r, w)
  {
    hide StreamOk;
    SameStream(l, TakeReadable(l), way, Top(way, ops), true);
  }

  lemma SendMoves(l: Lane, way: Way, ops: nat, n: nat, room: bool, quiet: bool, idle: bool, r: bool, w: bool)
    requires LaneOk(l, way, Sending(way, ops), true, quiet, idle, r, w)
    requires 0 < n <= l.length - l.offset
    ensures l.length <= |l.buffer|
    ensures LaneOk(Send(l, n, room), way, Sent(way, ops + 1, n), true, quiet, idle, r, w)
  {
    SendMovesStream(l, way, ops, n, room);
    hide Stream;
  }

  lemma SendMovesStream(l: Lane, way: Way, ops: nat, n: nat, room: bool)
    requires Stream(l, way, Sending(way, ops), true) && 0 < n <= l.length - l.offset
    ensures l.length <= |l.buffer|
    ensures Stream(Send(l, n, room), way, Sent(way, ops + 1, n), true)
  {
    SendSplits(l, n, room);
  }

  lemma SentReturns(l: Lane, way: Way, ops: nat, n: nat, quiet: bool, idle: bool, r: bool, w: bool)
    requires LaneOk(l, way, Sent(way, ops, n), true, quiet, idle, r, w)
    ensures LaneOk(AfterSend(l, n), way, Top(way, ops), true, quiet, idle, r, w)
  {
    SentReturnsStream(l, way, ops, n);
    hide Stream;
  }

  lemma SentReturnsStream(l: Lane, way: Way, ops: nat, n: nat)
    requires Stream(l, way, Sent(way, ops, n), true)
    ensures Stream(AfterSend(l, n), way, Top(way, ops), true)
  {
    AfterSendKeeps(l, n);
  }

  lemma SendBlocked(l: Lane, way: Way, ops: nat, quiet: bool, idle: bool, r: bool, w: bool)
    requires LaneOk(l, way, Sending(way, ops), true, quiet, idle, r, w) && !l.room
    ensures LaneOk(l, way, Leaving(way, ops + 1), true, quiet, idle, r, w)
  {
    hide StreamOk;
  }

  lemma NoBufferWaits(l: Lane, way: Way, ops: nat, quiet: bool, idle: bool, r: bool, w: bool)
    requires LaneOk(l, way, NoBuffer(way, ops), true, quiet, idle, r, w)
    ensures LaneOk(AwaitBuffer(l), way, Leaving(way, ops), true, quiet, idle, r, w)
  {
    hide StreamOk;
    SameStream(l, AwaitBuffer(l), way, NoBuffer(way, ops), true);
  }

  lemma ReceiveFills(l: Lane, way: Way, ops: nat, data: seq<Byte>, input: bool, quiet: bool, idle: bool, r: bool, w: bool)
    requires LaneOk(l, way, Receiving(way, ops), true, quiet, idle, r, w)
    requires 0 < |data| <= BUFFER_LIMIT
    ensures |l.buffer| == BUFFER_LIMIT
    ensures LaneOk(Receive(l, data, input), way, Received(way, ops + 1, data), true, quiet, idle, r, w)
  {
    ReceiveFillsStream(l, way, ops, data, input);
    hide Stream;
  }

  lemma ReceiveFillsStream(l: Lane, way: Way, ops: nat, data: seq<Byte>, input: bool)
    requires Stream(l, way, Receiving(way, ops), true) && l.held && !Pending(l) && 0 < |data| <= BUFFER_LIMIT
    ensures |l.buffer| == BUFFER_LIMIT
    ensures Stream(Receive(l, data, input), way, Received(way, ops + 1, data), true)
  {
    AcquireReleaseKeepStream(l);
  }

  lemma ReceivedReturns(l: Lane, way: Way, ops: nat, data: seq<Byte>, quiet: bool, idle: bool, r: bool, w: bool)
    requires LaneOk(l, way, Received(way, ops, data), true, quiet, idle, r, w)
    ensures LaneOk(AfterReceive(l, |data|), way, Top(way, ops), true, quiet, idle, r, w)
  {
    ReceivedReturnsStream(l, way, ops, data);
    hide Stream;
  }

  lemma ReceivedReturnsStream(l: Lane, way: Way, ops: nat, data: seq<Byte>)
    requires Stream(l, way, Received(way, ops, data), true)
    ensures Stream(AfterReceive(l, |data|), way, Top(way, ops), true)
    ensures !Pending(l) && l.offset == 0
  {
    assert l.buffer[0..|data|] == l.buffer[..|data|];
  }

  lemma ReceiveEnds(l: Lane, way: Way, ops: nat, quiet: bool, idle: bool, r: bool, w: bool)
    requires LaneOk(l, way, Receiving(way, ops), true, quiet, idle, r, w)
    ensures LaneOk(Release(EndOfStream(l)), way, Draining(way, ops + 1, true), true, quiet, idle, r, w)
    ensures !l.input ==> LaneOk(Release(l), way, Draining(way, ops + 1, false), true, quiet, idle, r, w)
    ensures l.held
  {
    hide StreamOk;
    AcquireReleaseKeepStream(l);
    SameStream(Release(l), Release(EndOfStream(l)), way, Draining(way, ops + 1, true), true);
  }

  lemma DrainEnds(l: Lane, way: Way, ops: nat, eof: bool, quiet: bool, idle: bool, r: bool, w: bool)
    requires LaneOk(l, way, Draining(way, ops, eof), true, quiet, idle, r, w)
    ensures LaneOk(l, way, if eof then HalfClosing(way, ops) else Leaving(way, ops), true, quiet, idle, r, w)
  {
    hide StreamOk;
  }

  lemma HalfCloseEnds(l: Lane, way: Way, ops: nat, quiet: bool, idle: bool, r: bool, w: bool)
    requires LaneOk(l, way, HalfClosing(way, ops), true, quiet, idle, r, w)
    ensures LaneOk(HalfClosed(l), way, Leaving(way, ops), true, quiet, idle, r, w)
  {
    hide StreamOk;
    HalfCloseStream(l, way, ops);
  }

  lemma HalfCloseStream(l: Lane, way: Way, ops: nat)
    requires Stream(l, way, HalfClosing(way, ops), true)
    ensures Stream(HalfClosed(l), way, Leaving(way, ops), true)
  {
  }

  /** A failed socket call, allocation or half-close ends the pump. */
  lemma PumpFails(l: Lane, way: Way, d: DispatchAt, at: StopAt, status: int, quiet: bool, idle: bool, r: bool, w: bool)
    requires LaneOk(l, way, d, true, quiet, idle, r, w) && !d.Sent? && !d.Received?
    ensures LaneOk(l, way, Failing(at, status), true, quiet, idle, r, w)
  {
    hide StreamOk, WillVisit, WillPump, TryingRead, TryingWrite;
    assert WillVisit(Failing(at, status), way) && WillPump(Failing(at, status), way)
        && TryingRead(Failing(at, status), way) && TryingWrite(Failing(at, status), way) by {
      FailingVisits(at, status, way);
    }
  }

  lemma FailingVisits(at: StopAt, status: int, way: Way)
    ensures WillVisit(Failing(at, status), way) && WillPump(Failing(at, status), way)
    ensures TryingRead(Failing(at, status), way) && TryingWrite(Failing(at, status), way)
  {
  }

  /** The allocation failed after the flag was taken. */
  lemma AllocationFails(l: Lane, way: Way, ops: nat, at: StopAt, status: int, quiet: bool, idle: bool, r: bool, w: bool)
    requires LaneOk(l, way, Top(way, ops), true, quiet, idle, r, w) && !l.waiting && !l.held
    ensures LaneOk(TakeReadable(l), way, Failing(at, status), true, quiet, idle, r, w)
  {
    hide StreamOk, WillVisit, WillPump, TryingRead, TryingWrite;
    FailingVisits(at, status, way);
    SameStream(l, TakeReadable(l), way, Top(way, ops), true);
  }

  // ----- the end of a session -----

  /** The dispatcher drops buffers, wakes waiters or signals. */
  predicate Parting(d: DispatchAt) {
    d.Releasing? || d.Signalling?
  }

  predicate MayHold(way: Way, d: DispatchAt) {
    way == ToPublic && d == Releasing(false)
  }

  lemma FinishStream(l: Lane, way: Way, d: DispatchAt)
    requires Stream(l, way, Finishing, true) && Parting(d) && (l.done ==> !l.held)
    ensures Stream(l.(waiting := false), way, d, false) && Stream(Release(l.(waiting := false)), way, d, false)
  {
  }

  lemma FinishKeeps(l: Lane, way: Way, d: DispatchAt, quiet: bool, idle: bool, r: bool, w: bool)
    requires LaneOk(l, way, Finishing, true, quiet, idle, r, w) && Parting(d) && (l.held ==> MayHold(way, d))
    ensures LaneOk(l.(waiting := false), way, d, false, false, false, r, w)
  {
    hide Stream;
    FinishStream(l, way, d);
  }

  lemma FinishDrops(l: Lane, way: Way, d: DispatchAt, quiet: bool, idle: bool, r: bool, w: bool)
    requires LaneOk(l, way, Finishing, true, quiet, idle, r, w) && Parting(d)
    ensures LaneOk(Release(l.(waiting := false)), way, d, false, false, false, r, w)
  {
    hide Stream;
    FinishStream(l, way, d);
  }

  lemma PartingStream(l: Lane, way: Way, d: DispatchAt, d': DispatchAt)
    requires Stream(l, way, d, false) && Parting(d) && Parting(d')
    ensures Stream(l, way, d', false) && Stream(Release(l), way, d', false)
  {
  }

  lemma PartingKeeps(l: Lane, way: Way, d: DispatchAt, d': DispatchAt, r: bool, w: bool)
    requires LaneOk(l, way, d, false, false, false, r, w) && Parting(d) && Parting(d') && (MayHold(way, d) ==> !l.held)
    ensures LaneOk(l, way, d', false, false, false, r, w) && !l.held
  {
    hide Stream;
    PartingStream(l, way, d, d');
  }

  lemma PartingDrops(l: Lane, way: Way, d: DispatchAt, d': DispatchAt, r: bool, w: bool)
    requires LaneOk(l, way, d, false, false, false, r, w) && Parting(d) && Parting(d')
    ensures LaneOk(Release(l), way, d', false, false, false, r, w)
  {
    hide Stream;
    PartingStream(l, way, d, d');
  }

  /** A waiter is woken and queued. */
  lemma WokenLane(l: Lane, way: Way, d: DispatchAt, running: bool, quiet: bool, idle: bool, r: bool, w: bool)
    requires LaneOk(l, way, d, running, quiet, idle, r, w)
    ensures LaneOk(l.(waiting := false), way, d, running, false, false, r, w)
    ensures l.waiting ==> running
  {
    hide StreamOk, OnLane, TryingRead, TryingWrite, WillVisit, WillPump;
    SameStream(l, l.(waiting := false), way, d, running);
  }
}

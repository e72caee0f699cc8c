/** Exact reads and writes over pipes that move any number of bytes at a time,
    and transactions on top of them. */
module ControlPipes {
  import opened Bytes
  import opened Lists
  import opened ControlCodec

  /** What one turn of an exact-I/O loop meets: the wait fails, the call is
      interrupted or would block, the call fails, or up to n bytes move. */
  datatype Turn = WaitFails(code: int) | TryAgain | CallFails(code: int) | Moves(n: nat)

  const ETIMEDOUT: int := 110
  const EPIPE: int := 32

  class RequestPipe {
    var written: seq<Byte>

    constructor ()
      ensures written == []
    {
      written := [];
    }
  }

  /** unread is what the other side has sent or is going to send. */
  class ResponsePipe {
    var unread: seq<Byte>

    constructor (stream: seq<Byte>)
      ensures unread == stream
    {
      unread := stream;
    }
  }

  function Least(a: nat, b: nat): nat {
    if a < b then a else b
  }

  /** How an exact transfer ends: the bytes moved, and the error if not all of them. */
  datatype Passage = Passage(count: nat, error: Option<int>)

  /** What a schedule does to a transfer of length bytes, count of which have
      moved, when available is all there is to move; it ends at the deadline. */
  function Pass(schedule: seq<Turn>, count: nat, length: nat, available: nat): (p: Passage)
    requires count <= Least(length, available)
    ensures count <= p.count <= Least(length, available) && (p.error.None? <==> p.count == length)
    decreases |schedule|
  {
    if count == length then Passage(count, None)
    else if schedule == [] then Passage(count, Some(ETIMEDOUT))
    else
      match schedule[0]
      case WaitFails(code) => Passage(count, Some(code))
      case TryAgain => Pass(schedule[1..], count, length, available)
      case CallFails(code) => Passage(count, Some(code))
      case Moves(n) =>
        var moved := Least(n, Least(length, available) - count);
        if moved == 0 then Passage(count, Some(EPIPE)) else Pass(schedule[1..], count + moved, length, available)
  }

  /** tcpcc_control_write_exact. */
  method WriteExact(p: RequestPipe, record: seq<Byte>, schedule: seq<Turn>) returns (error: Option<int>)
    modifies p
    ensures var w := Pass(schedule, 0, |record|, |record|); error == w.error && p.written == old(p.written) + record[..w.count]
  {
    var count, turn := 0, 0;
    while count < |record|
      invariant 0 <= count <= |record| && turn <= |schedule|
      invariant p.written == old(p.written) + record[..count]
      invariant Pass(schedule, 0, |record|, |record|) == Pass(schedule[turn..], count, |record|, |record|)
      decreases |schedule| - turn
    {
      if turn == |schedule| {
        return Some(ETIMEDOUT);
      }
      var happens := schedule[turn];
      assert schedule[turn..][1..] == schedule[turn + 1..];
      turn := turn + 1;
      match happens
      case WaitFails(code) => return Some(code);
      case TryAgain =>
      case CallFails(code) => return Some(code);
      case Moves(n) =>
        var moved := Least(n, |record| - count);
        if moved == 0 {
          return Some(EPIPE);
        }
        p.written := p.written + record[count..count + moved];
        assert record[..count] + record[count..count + moved] == record[..count + moved];
        count := count + moved;
    }
    return None;
  }

  /** tcpcc_control_read_exact into the front of a buffer. */
  method ReadExact(p: ResponsePipe, buffer: array<Byte>, length: nat, schedule: seq<Turn>) returns (error: Option<int>)
    requires length <= buffer.Length
    modifies p, buffer
    ensures var r := Pass(schedule, 0, length, |old(p.unread)|);
            && error == r.error && p.unread == old(p.unread)[r.count..]
            && buffer[..r.count] == old(p.unread)[..r.count]
  {
    var count, turn := 0, 0;
    while count < length
      invariant 0 <= count <= length && turn <= |schedule| && count <= |old(p.unread)|
      invariant buffer[..count] == old(p.unread)[..count] && p.unread == old(p.unread)[count..]
      invariant Pass(schedule, 0, length, |old(p.unread)|) == Pass(schedule[turn..], count, length, |old(p.unread)|)
      decreases |schedule| - turn
    {
      if turn == |schedule| {
        return Some(ETIMEDOUT);
      }
      var happens := schedule[turn];
      assert schedule[turn..][1..] == schedule[turn + 1..];
      turn := turn + 1;
      match happens
      case WaitFails(code) => return Some(code);
      case TryAgain =>
      case CallFails(code) => return Some(code);
      case Moves(n) =>
        var moved := Least(Least(n, length - count), |p.unread|);
        if moved == 0 {
          return Some(EPIPE);
        }
        CopyChunk(p, buffer, count, moved);
        count := count + moved;
    }
    return None;
  }

  /** One read call: moved bytes go from the pipe into the buffer. */
  method CopyChunk(p: ResponsePipe, buffer: array<Byte>, at: nat, moved: nat)
    requires at + moved <= buffer.Length && moved <= |p.unread|
    modifies p, buffer
    ensures buffer[..at + moved] == old(buffer[..at]) + old(p.unread)[..moved] && p.unread == old(p.unread)[moved..]
  {
    var i := 0;
    while i < moved
      invariant 0 <= i <= moved && p.unread == old(p.unread)
      invariant forall k :: 0 <= k < at ==> buffer[k] == old(buffer[k])
      invariant forall k :: 0 <= k < i ==> buffer[at + k] == p.unread[k]
    {
      buffer[at + i] := p.unread[i];
      i := i + 1;
    }
    p.unread := p.unread[moved..];
  }

  // ----- transactions -----

  datatype Outcome =
    | Answered(response: Response)
    | Refused(status: int)                 // a well-formed answer with another status
    | Invalid                              // the request does not encode; nothing is sent
    | Unsent(code: int)
    | Unanswered(code: int)
    | Garbled(error: ProtocolError)

  datatype Schedules = Schedules(writing: seq<Turn>, reading: seq<Turn>)

  /** The first record of a stream. */
  function FirstRecord(stream: seq<Byte>): seq<Byte> {
    if |stream| < RESPONSE_SIZE then stream else stream[..RESPONSE_SIZE]
  }

  /** What a caller makes of a whole response record. */
  function Verdict(record: seq<Byte>, operation: nat, allowed: set<int>): Outcome {
    match DecodeResponse(record, operation)
    case Bad(e) => Garbled(e)
    case Ok(response) => if response.status in allowed then Answered(response) else Refused(response.status)
  }

  /** The part of a request that a schedule of writes sends. */
  function Out(request: Request, writing: seq<Turn>): seq<Byte> {
    match EncodeRequest(request)
    case None => []
    case Some(record) => record[..Pass(writing, 0, |record|, |record|).count]
  }

  /** The answer is read only after the whole request is out. */
  predicate WholeOut(request: Request, writing: seq<Turn>) {
    |Out(request, writing)| == REQUEST_SIZE
  }

  /** How much of the answer stream a transaction takes. */
  function In(request: Request, s: Schedules, available: nat): (n: nat)
    ensures n <= Least(RESPONSE_SIZE, available)
  {
    if WholeOut(request, s.writing) then Pass(s.reading, 0, RESPONSE_SIZE, available).count else 0
  }

  /** How a transaction ends. */
  function OutcomeOf(request: Request, allowed: set<int>, s: Schedules, unread: seq<Byte>): Outcome {
    if EncodeRequest(request).None? then Invalid
    else
      var w := Pass(s.writing, 0, REQUEST_SIZE, REQUEST_SIZE);
      if w.error.Some? then Unsent(w.error.value)
      else
        var a := Pass(s.reading, 0, RESPONSE_SIZE, |unread|);
        if a.error.Some? then Unanswered(a.error.value) else Verdict(unread[..RESPONSE_SIZE], request.operation, allowed)
  }

  /** One request record out, one response record in, whatever the schedules:
      what was written, what was read, and which outcome. */
  method Transact(out: RequestPipe, answers: ResponsePipe, request: Request, allowed: set<int>, s: Schedules)
    returns (r: Outcome)
    modifies out, answers
    ensures r == OutcomeOf(request, allowed, s, old(answers.unread))
    ensures out.written == old(out.written) + Out(request, s.writing)
    ensures answers.unread == old(answers.unread)[In(request, s, |old(answers.unread)|)..]
  {
    var encoded := EncodeRequest(request);
    if encoded.None? {
      return Invalid;
    }
    hide EncodeRequest, DecodeResponse, Pass;
    var error := WriteExact(out, encoded.value, s.writing);
    if error.Some? {
      return Unsent(error.value);
    }
    var buffer := new Byte[RESPONSE_SIZE];
    error := ReadExact(answers, buffer, RESPONSE_SIZE, s.reading);
    if error.Some? {
      return Unanswered(error.value);
    }
    var decoded := DecodeResponse(buffer[..RESPONSE_SIZE], request.operation);
    match decoded
    case Bad(e) => return Garbled(e);
    case Ok(response) =>
      if response.status in allowed {
        return Answered(response);
      } else {
        return Refused(response.status);
      }
  }

  // ----- alignment over a whole session -----

  /** The i-th record of a stream. */
  function Record(stream: seq<Byte>, i: nat): seq<Byte>
    requires RESPONSE_SIZE * (i + 1) <= |stream|
  {
    stream[RESPONSE_SIZE * i..RESPONSE_SIZE * (i + 1)]
  }

  function Encoded(requests: seq<Request>): seq<Byte> {
    if requests == [] then []
    else
      var last := EncodeRequest(requests[|requests| - 1]);
      Encoded(requests[..|requests| - 1]) + if last.Some? then last.value else []
  }

  /** The first n requests have been answered by the first n records. */
  ghost predicate Paired(requests: seq<Request>, answers: seq<Response>, stream: seq<Byte>) {
    && |answers| <= |requests| && RESPONSE_SIZE * |answers| <= |stream|
    && forall i :: 0 <= i < |answers| ==>
         requests[i].operation >= 0 && DecodeResponse(Record(stream, i), requests[i].operation) == Ok(answers[i])
  }

  /** Transactions one after the other, up to the first that fails. */
  method Converse(out: RequestPipe, answers: ResponsePipe, requests: seq<Request>, allowed: set<int>, world: nat -> Schedules)
    returns (responses: seq<Response>)
    modifies out, answers
    ensures Paired(requests, responses, old(answers.unread))
    ensures |responses| == |requests| ==>
              && out.written == old(out.written) + Encoded(requests)
              && answers.unread == old(answers.unread)[RESPONSE_SIZE * |requests|..]
  {
    responses := [];
    ghost var stream := answers.unread;
    NothingYet(requests, stream, out.written);
    hide Paired, Encoded, EncodeRequest, DecodeResponse, FirstRecord, AtRecord, Sent, Out, In, OutcomeOf;
    var i := 0;
    while i < |requests|
      invariant 0 <= i <= |requests| && |responses| == i
      invariant Paired(requests, responses, stream)
      invariant Sent(old(out.written), requests, i, out.written)
      invariant AtRecord(stream, i, answers.unread)
    {
      ghost var unread, written := answers.unread, out.written;
      var r := Transact(out, answers, requests[i], allowed, world(i));
      if !r.Answered? {
        return;
      }
      AnsweredMoves(requests[i], allowed, world(i), unread);
      PairedStep(requests, responses, stream, unread, r.response);
      SentStep(old(out.written), requests, i, written);
      responses := responses + [r.response];
      i := i + 1;
    }
    SentAll(old(out.written), requests, out.written);
    RestAt(stream, i, answers.unread);
  }

  lemma AnsweredMoves(request: Request, allowed: set<int>, s: Schedules, unread: seq<Byte>)
    requires OutcomeOf(request, allowed, s, unread).Answered?
    ensures EncodeRequest(request).Some? && Out(request, s.writing) == EncodeRequest(request).value
    ensures |unread| >= RESPONSE_SIZE && In(request, s, |unread|) == RESPONSE_SIZE && request.operation >= 0
    ensures DecodeResponse(FirstRecord(unread), request.operation) == Ok(OutcomeOf(request, allowed, s, unread).response)
  {
    hide EncodeRequest, DecodeResponse, Pass;
  }

  /** The stream stands at the start of record i. */
  predicate AtRecord(stream: seq<Byte>, i: nat, unread: seq<Byte>) {
    RESPONSE_SIZE * i <= |stream| && unread == stream[RESPONSE_SIZE * i..]
  }

  lemma RestAt(stream: seq<Byte>, i: nat, unread: seq<Byte>)
    requires AtRecord(stream, i, unread)
    ensures RESPONSE_SIZE * i <= |stream| && unread == stream[RESPONSE_SIZE * i..]
  {
  }

  /** The first i requests were written. */
  ghost predicate Sent(before: seq<Byte>, requests: seq<Request>, i: nat, written: seq<Byte>) {
    i <= |requests| && written == before + Encoded(requests[..i])
  }

  lemma NothingYet(requests: seq<Request>, stream: seq<Byte>, written: seq<Byte>)
    ensures Paired(requests, [], stream) && Sent(written, requests, 0, written) && AtRecord(stream, 0, stream)
  {
  }

  lemma SentStep(before: seq<Byte>, requests: seq<Request>, i: nat, written: seq<Byte>)
    requires i < |requests| && EncodeRequest(requests[i]).Some? && Sent(before, requests, i, written)
    ensures Sent(before, requests, i + 1, written + EncodeRequest(requests[i]).value)
  {
    hide EncodeRequest;
    assert requests[..i + 1][..i] == requests[..i];
  }

  lemma SentAll(before: seq<Byte>, requests: seq<Request>, written: seq<Byte>)
    requires Sent(before, requests, |requests|, written)
    ensures written == before + Encoded(requests)
  {
    hide Encoded;
    assert requests[..|requests|] == requests;
  }

  lemma PairedStep(requests: seq<Request>, answers: seq<Response>, stream: seq<Byte>, unread: seq<Byte>, answer: Response)
    requires Paired(requests, answers, stream) && |answers| < |requests| && AtRecord(stream, |answers|, unread)
    requires |unread| >= RESPONSE_SIZE && requests[|answers|].operation >= 0
    requires DecodeResponse(FirstRecord(unread), requests[|answers|].operation) == Ok(answer)
    ensures Paired(requests, answers + [answer], stream) && AtRecord(stream, |answers| + 1, unread[RESPONSE_SIZE..])
  {
    hide DecodeResponse;
    assert FirstRecord(unread) == Record(stream, |answers|);
  }

  // ----- going on after a failure -----

  /** How many bytes have been written, and how many read. */
  datatype Mark = Mark(wrote: nat, start: nat)

  /** A transaction with this outcome wrote part of its request at the first
      mark, read part of the stream there, and left both pipes at the second. */
  ghost predicate Moved(o: Outcome, request: Request, allowed: set<int>, from: Mark, to: Mark, sent: seq<Byte>, stream: seq<Byte>) {
    && from.wrote <= to.wrote <= |sent| && from.start <= to.start <= |stream|
    && (EncodeRequest(request).None? ==> o.Invalid? && to == from)
    && (EncodeRequest(request).Some? ==>
          && !o.Invalid? && to.wrote <= from.wrote + REQUEST_SIZE
          && sent[from.wrote..to.wrote] == EncodeRequest(request).value[..to.wrote - from.wrote]
          && (o.Unsent? <==> to.wrote < from.wrote + REQUEST_SIZE)
          && (o.Unsent? ==> to.start == from.start)
          && (o.Unanswered? ==> to.start < from.start + RESPONSE_SIZE)
          && (o.Answered? || o.Refused? || o.Garbled? ==>
                && to.start == from.start + RESPONSE_SIZE && request.operation >= 0
                && o == Verdict(stream[from.start..to.start], request.operation, allowed)))
  }

  /** The i-th transaction ran between the i-th mark and the next. */
  ghost predicate Placed(requests: seq<Request>, allowed: set<int>, outcomes: seq<Outcome>, marks: seq<Mark>, sent: seq<Byte>, stream: seq<Byte>) {
    && |outcomes| <= |requests| && |marks| == |outcomes| + 1 && marks[0] == Mark(0, 0)
    && (forall i :: 0 <= i < |outcomes| ==> Moved(outcomes[i], requests[i], allowed, marks[i], marks[i + 1], sent, stream))
  }

  /** Transactions one after the other, whatever becomes of each. */
  method Persist(out: RequestPipe, answers: ResponsePipe, requests: seq<Request>, allowed: set<int>, world: nat -> Schedules)
    returns (outcomes: seq<Outcome>, ghost marks: seq<Mark>, ghost sent: seq<Byte>)
    modifies out, answers
    ensures |outcomes| == |requests| && Placed(requests, allowed, outcomes, marks, sent, old(answers.unread))
    ensures out.written == old(out.written) + sent && marks[|requests|].wrote == |sent|
    ensures marks[|requests|].start <= |old(answers.unread)| && answers.unread == old(answers.unread)[marks[|requests|].start..]
  {
    hide *;
    outcomes, marks, sent := [], [Mark(0, 0)], [];
    ghost var stream, before := answers.unread, out.written;
    NonePlaced(requests, allowed, stream);
    assert before + [] == before && stream[0..] == stream;
    for i := 0 to |requests|
      invariant |outcomes| == i && |marks| == i + 1 && marks[i].wrote == |sent| && marks[i].start <= |stream|
      invariant out.written == before + sent && answers.unread == stream[marks[i].start..]
      invariant Placed(requests, allowed, outcomes, marks, sent, stream)
    {
      ghost var from := marks[i];
      ghost var chunk, taken := Out(requests[i], world(i).writing), In(requests[i], world(i), |stream| - from.start);
      MovedOnce(requests[i], allowed, world(i), from, sent, stream);
      var r := Transact(out, answers, requests[i], allowed, world(i));
      ghost var to := Mark(|sent| + |chunk|, from.start + taken);
      PlacedStep(requests, allowed, outcomes, marks, sent, stream, r, to, chunk);
      Onwards(before, sent, chunk, stream, from.start, taken);
      outcomes, marks, sent := outcomes + [r], marks + [to], sent + chunk;
    }
  }

  lemma NonePlaced(requests: seq<Request>, allowed: set<int>, stream: seq<Byte>)
    ensures Placed(requests, allowed, [], [Mark(0, 0)], [], stream)
  {
  }

  lemma Onwards(before: seq<Byte>, sent: seq<Byte>, chunk: seq<Byte>, stream: seq<Byte>, start: nat, taken: nat)
    requires start + taken <= |stream|
    ensures before + sent + chunk == before + (sent + chunk) && stream[start..][taken..] == stream[start + taken..]
  {
  }

  lemma MovedOnce(request: Request, allowed: set<int>, s: Schedules, from: Mark, sent: seq<Byte>, stream: seq<Byte>)
    requires from.wrote == |sent| && from.start <= |stream|
    ensures var chunk, taken := Out(request, s.writing), In(request, s, |stream| - from.start);
            && from.start + taken <= |stream|
            && Moved(OutcomeOf(request, allowed, s, stream[from.start..]), request, allowed, from,
                     Mark(|sent| + |chunk|, from.start + taken), sent + chunk, stream)
  {
    hide EncodeRequest, DecodeResponse, Pass;
    var o := OutcomeOf(request, allowed, s, stream[from.start..]);
    var chunk, taken := Out(request, s.writing), In(request, s, |stream| - from.start);
    assert (sent + chunk)[from.wrote..from.wrote + |chunk|] == chunk;
    if o.Answered? || o.Refused? || o.Garbled? {
      assert stream[from.start..][..RESPONSE_SIZE] == stream[from.start..from.start + taken];
      assert o == Verdict(stream[from.start..from.start + taken], request.operation, allowed);
    }
  }

  lemma MovedLonger(o: Outcome, request: Request, allowed: set<int>, from: Mark, to: Mark, sent: seq<Byte>, more: seq<Byte>, stream: seq<Byte>)
    requires Moved(o, request, allowed, from, to, sent, stream)
    ensures Moved(o, request, allowed, from, to, sent + more, stream)
  {
    hide EncodeRequest, Verdict;
    assert (sent + more)[from.wrote..to.wrote] == sent[from.wrote..to.wrote];
  }

  lemma PlacedStep(requests: seq<Request>, allowed: set<int>, outcomes: seq<Outcome>, marks: seq<Mark>, sent: seq<Byte>, stream: seq<Byte>,
                   r: Outcome, to: Mark, chunk: seq<Byte>)
    requires Placed(requests, allowed, outcomes, marks, sent, stream) && |outcomes| < |requests| && |marks| == |outcomes| + 1
    requires Moved(r, requests[|outcomes|], allowed, marks[|outcomes|], to, sent + chunk, stream)
    ensures Placed(requests, allowed, outcomes + [r], marks + [to], sent + chunk, stream)
  {
    hide Moved;
    forall i | 0 <= i < |outcomes| ensures Moved(outcomes[i], requests[i], allowed, marks[i], marks[i + 1], sent + chunk, stream) {
      MovedLonger(outcomes[i], requests[i], allowed, marks[i], marks[i + 1], sent, chunk, stream);
    }
  }

  /** The request about to be written begins a request frame, and the stream
      stands at the answer to that frame. */
  predicate Aligned(m: Mark) {
    m.wrote % REQUEST_SIZE == 0 && m.start == RESPONSE_SIZE * (m.wrote / REQUEST_SIZE)
  }

  /** No transaction before the i-th left an answer unread or part of a request
      behind. */
  ghost predicate Unbroken(outcomes: seq<Outcome>, marks: seq<Mark>, i: nat)
    requires i <= |outcomes| && |marks| == |outcomes| + 1
  {
    forall j :: 0 <= j < i ==> !outcomes[j].Unanswered? && (outcomes[j].Unsent? ==> marks[j + 1].wrote == marks[j].wrote)
  }

  /** Alignment, exactly: the i-th transaction finds the answer to its own
      request if and only if no transaction before it went unanswered and none
      failed with part of its request written; an unsent one that wrote nothing
      does no harm.  After one that does, every later one reads too early. */
  lemma {:induction false} AlignedIff(requests: seq<Request>, allowed: set<int>, outcomes: seq<Outcome>, marks: seq<Mark>,
                                      sent: seq<Byte>, stream: seq<Byte>, i: nat)
    requires Placed(requests, allowed, outcomes, marks, sent, stream) && i <= |outcomes|
    ensures Aligned(marks[i]) <==> Unbroken(outcomes, marks, i)
    ensures REQUEST_SIZE * marks[i].start <= RESPONSE_SIZE * marks[i].wrote
    ensures REQUEST_SIZE * marks[i].start == RESPONSE_SIZE * marks[i].wrote <==> Unbroken(outcomes, marks, i)
  {
    if i > 0 {
      AlignedIff(requests, allowed, outcomes, marks, sent, stream, i - 1);
      assert Moved(outcomes[i - 1], requests[i - 1], allowed, marks[i - 1], marks[i], sent, stream);
      hide EncodeRequest, Verdict, Placed;
      assert Unbroken(outcomes, marks, i) <==>
             && Unbroken(outcomes, marks, i - 1) && !outcomes[i - 1].Unanswered?
             && (outcomes[i - 1].Unsent? ==> marks[i].wrote == marks[i - 1].wrote);
    }
  }

  function Frame(sent: seq<Byte>, k: nat): seq<Byte>
    requires REQUEST_SIZE * (k + 1) <= |sent|
  {
    sent[REQUEST_SIZE * k..REQUEST_SIZE * (k + 1)]
  }

  /** The other side answers each whole frame it is sent, in order. */
  ghost predicate Orderly(sent: seq<Byte>, stream: seq<Byte>, reply: seq<Byte> -> Response) {
    forall k: nat :: REQUEST_SIZE * (k + 1) <= |sent| && RESPONSE_SIZE * (k + 1) <= |stream| ==>
      IsRecordOf(Record(stream, k), reply(Frame(sent, k)))
  }

  /** Until something breaks, an answer is the other side's reply to the request. */
  lemma OwnReply(requests: seq<Request>, allowed: set<int>, outcomes: seq<Outcome>, marks: seq<Mark>, sent: seq<Byte>, stream: seq<Byte>,
                 reply: seq<Byte> -> Response, i: nat)
    requires Placed(requests, allowed, outcomes, marks, sent, stream) && Orderly(sent, stream, reply)
    requires i < |outcomes| && Unbroken(outcomes, marks, i) && outcomes[i].Answered?
    ensures EncodeRequest(requests[i]).Some? && outcomes[i].response == reply(EncodeRequest(requests[i]).value)
  {
    hide EncodeRequest, DecodeResponse, IsRecordOf, Unbroken;
    AlignedIff(requests, allowed, outcomes, marks, sent, stream, i);
    assert Moved(outcomes[i], requests[i], allowed, marks[i], marks[i + 1], sent, stream);
    var k := marks[i].wrote / REQUEST_SIZE;
    assert Frame(sent, k) == EncodeRequest(requests[i]).value;
    assert Record(stream, k) == stream[marks[i].start..marks[i + 1].start];
    ResponseExactly(Record(stream, k), requests[i].operation, outcomes[i].response);
    SameRecord(Record(stream, k), outcomes[i].response, reply(Frame(sent, k)));
  }

  const AT_ONCE := Schedules([Moves(REQUEST_SIZE)], [Moves(RESPONSE_SIZE)])

  lemma AtOnce(request: Request, allowed: set<int>, unread: seq<Byte>, given: Response)
    requires EncodeRequest(request).Some? && |unread| >= RESPONSE_SIZE && IsRecordOf(unread[..RESPONSE_SIZE], given)
    requires given.operation == request.operation && given.status in allowed
    ensures OutcomeOf(request, allowed, AT_ONCE, unread) == Answered(given)
    ensures Out(request, AT_ONCE.writing) == EncodeRequest(request).value && In(request, AT_ONCE, |unread|) == RESPONSE_SIZE
  {
    hide EncodeRequest, DecodeResponse, IsRecordOf;
    ResponseReadsBack(unread[..RESPONSE_SIZE], given);
    assert Pass(AT_ONCE.writing, 0, REQUEST_SIZE, REQUEST_SIZE) == Passage(REQUEST_SIZE, None);
    assert Pass(AT_ONCE.reading, 0, RESPONSE_SIZE, |unread|) == Passage(RESPONSE_SIZE, None);
  }

  lemma WholeRecord(one: seq<Byte>, given: Response, two: seq<Byte>)
    requires IsRecordOf(one, given)
    ensures |one| == RESPONSE_SIZE && one[..RESPONSE_SIZE] == one && (one + two)[..RESPONSE_SIZE] == one
  {
  }

  /** A deadline before the first write, and one after the last. */
  lemma CutShort(request: Request, allowed: set<int>, unread: seq<Byte>)
    requires EncodeRequest(request).Some?
    ensures OutcomeOf(request, allowed, Schedules([], []), unread) == Unsent(ETIMEDOUT)
    ensures Out(request, []) == [] && In(request, Schedules([], []), |unread|) == 0 && unread[0..] == unread
    ensures OutcomeOf(request, allowed, Schedules([Moves(REQUEST_SIZE)], []), unread) == Unanswered(ETIMEDOUT)
    ensures Out(request, [Moves(REQUEST_SIZE)]) == EncodeRequest(request).value
    ensures In(request, Schedules([Moves(REQUEST_SIZE)], []), |unread|) == 0
  {
    hide EncodeRequest, Verdict;
    assert Pass([], 0, REQUEST_SIZE, REQUEST_SIZE) == Passage(0, Some(ETIMEDOUT));
    assert Pass([Moves(REQUEST_SIZE)], 0, REQUEST_SIZE, REQUEST_SIZE) == Passage(REQUEST_SIZE, None);
  }

  /** A request that could not be sent at all does no harm: the next one is the
      first frame and takes the first answer. */
  method UnsentDoesNoHarm(first: Request, second: Request, allowed: set<int>, record: seq<Byte>, given: Response)
    returns (a: Outcome, b: Outcome, written: seq<Byte>)
    requires EncodeRequest(first).Some? && EncodeRequest(second).Some? && IsRecordOf(record, given)
    requires given.operation == second.operation && given.status in allowed
    ensures a == Unsent(ETIMEDOUT) && b == Answered(given) && written == EncodeRequest(second).value
  {
    hide *;
    var out := new RequestPipe();
    var answers := new ResponsePipe(record);
    CutShort(first, allowed, record);
    WholeRecord(record, given, []);
    AtOnce(second, allowed, record, given);
    a := Transact(out, answers, first, allowed, Schedules([], []));
    b := Transact(out, answers, second, allowed, AT_ONCE);
    written := out.written;
  }

  /** An answer that came too late is taken for the next request of the same
      operation. */
  method LateAnswerTaken(first: Request, second: Request, allowed: set<int>, one: seq<Byte>, given: Response, two: seq<Byte>)
    returns (a: Outcome, b: Outcome, written: seq<Byte>)
    requires EncodeRequest(first).Some? && EncodeRequest(second).Some? && IsRecordOf(one, given)
    requires given.operation == first.operation == second.operation && given.status in allowed
    ensures a == Unanswered(ETIMEDOUT) && b == Answered(given)
    ensures written == EncodeRequest(first).value + EncodeRequest(second).value
  {
    hide *;
    var out := new RequestPipe();
    var answers := new ResponsePipe(one + two);
    CutShort(first, allowed, one + two);
    WholeRecord(one, given, two);
    AtOnce(second, allowed, one + two, given);
    a := Transact(out, answers, first, allowed, Schedules([Moves(REQUEST_SIZE)], []));
    b := Transact(out, answers, second, allowed, AT_ONCE);
    written := out.written;
  }

  /** A request sent in part: the other side's first frame is the end of it and
      the beginning of the next. */
  method PartlySentMisframes(first: Request, second: Request, allowed: set<int>, k: nat, stream: seq<Byte>)
    returns (a: Outcome, written: seq<Byte>)
    requires EncodeRequest(first).Some? && EncodeRequest(second).Some? && 0 < k < REQUEST_SIZE
    ensures a == Unsent(ETIMEDOUT) && |written| >= REQUEST_SIZE
    ensures Frame(written, 0) == EncodeRequest(first).value[..k] + EncodeRequest(second).value[..REQUEST_SIZE - k]
  {
    hide EncodeRequest, Pass, Verdict;
    var out := new RequestPipe();
    var answers := new ResponsePipe(stream);
    PartPasses(k);
    a := Transact(out, answers, first, allowed, Schedules([Moves(k)], []));
    var _ := Transact(out, answers, second, allowed, AT_ONCE);
    written := out.written;
  }

  lemma PartPasses(k: nat)
    requires 0 < k < REQUEST_SIZE
    ensures Pass([Moves(k)], 0, REQUEST_SIZE, REQUEST_SIZE) == Passage(k, Some(ETIMEDOUT))
    ensures Pass(AT_ONCE.writing, 0, REQUEST_SIZE, REQUEST_SIZE) == Passage(REQUEST_SIZE, None)
  {
    assert Pass([Moves(k)], 0, REQUEST_SIZE, REQUEST_SIZE) == Pass([Moves(k)][1..], k, REQUEST_SIZE, REQUEST_SIZE);
  }

  /** If the other side answers the requests in order, every answer it gives is
      returned for the request it belongs to. */
  lemma AnswersBelong(requests: seq<Request>, answers: seq<Response>, stream: seq<Byte>, given: seq<Response>, i: nat)
    requires Paired(requests, answers, stream) && i < |answers| && |given| >= |answers|
    requires IsRecordOf(Record(stream, i), given[i])
    ensures answers[i] == given[i] && given[i].operation == requests[i].operation
  {
    hide DecodeResponse, IsRecordOf;
    ResponseExactly(Record(stream, i), requests[i].operation, answers[i]);
    ResponseReadsBack(Record(stream, i), given[i]);
    ResponseExactly(Record(stream, i), given[i].operation, answers[i]);
    SameRecord(Record(stream, i), answers[i], given[i]);
  }

  lemma SameRecord(s: seq<Byte>, a: Response, b: Response)
    requires IsRecordOf(s, a) && IsRecordOf(s, b)
    ensures a == b
  {
    assert a.operation == b.operation by {
      SameOperation(s, a, b);
    }
    hide DecodeResponse, IsRecordOf;
    ResponseReadsBack(s, a);
    ResponseReadsBack(s, b);
  }

  lemma SameOperation(s: seq<Byte>, a: Response, b: Response)
    requires IsRecordOf(s, a) && IsRecordOf(s, b)
    ensures a.operation == b.operation
  {
    assert s == ResponseHead(a) + s[20..] && s == ResponseHead(b) + s[20..] by {
      assert s[..20] == ResponseHead(a) && s[..20] == ResponseHead(b);
    }
    hide ResponseHead, Field;
    ResponseFields(a, s[20..]);
    ResponseFields(b, s[20..]);
  }
}

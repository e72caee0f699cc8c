/** Ownership markers: what is printed on an owned firewall rule, and what is
    read back from it. */
module OwnershipMarkers {
  import opened Lists
  import opened Decimals

  datatype Owner = Owner(pid: nat, start: nat, tun: string)

  predicate TunChar(c: char) {
    'A' <= c <= 'Z' || 'a' <= c <= 'z' || '0' <= c <= '9' || c in "_.-"
  }

  predicate TunName(s: string) {
    1 <= |s| <= 15 && forall i :: 0 <= i < |s| ==> TunChar(s[i])
  }

  predicate Readable(o: Owner) {
    o.pid >= 1 && o.start >= 1 && TunName(o.tun)
  }

  const PID_TEXT := "tcpcc.owner.v1 pid="
  const START_TEXT := " start="
  const TUN_TEXT := " tun="

  function Marker(o: Owner): string {
    PID_TEXT + (Numeral(o.pid) + (START_TEXT + (Numeral(o.start) + (TUN_TEXT + o.tun))))
  }

  // ----- reading a marker from left to right -----

  /** The length of the longest prefix of digits. */
  function Span(s: string): (n: nat)
    ensures n <= |s|
  {
    if s == [] || !Digit(s[0]) then 0 else 1 + Span(s[1..])
  }

  function Strip(prefix: string, s: string): Option<string> {
    if prefix <= s then Some(s[|prefix|..]) else None
  }

  datatype Number = Number(value: nat, rest: string)

  /** A positive numeral without leading zeros, as long as it goes. */
  function TakeNumber(s: string): Option<Number> {
    SpanDigits(s);
    var digits := s[..Span(s)];
    if Positive(digits) then Some(Number(Value(digits), s[Span(s)..])) else None
  }

  /** The full match of the marker pattern. */
  function ParseMarker(comment: string): Option<Owner> {
    match Strip(PID_TEXT, comment)
    case None => None
    case Some(afterPid) =>
      match TakeNumber(afterPid)
      case None => None
      case Some(pid) =>
        match Strip(START_TEXT, pid.rest)
        case None => None
        case Some(afterStart) =>
          match TakeNumber(afterStart)
          case None => None
          case Some(start) =>
            match Strip(TUN_TEXT, start.rest)
            case None => None
            case Some(tun) => if TunName(tun) then Some(Owner(pid.value, start.value, tun)) else None
  }

  lemma {:induction false} SpanDigits(s: string)
    ensures AllDigits(s[..Span(s)]) && (Span(s) < |s| ==> !Digit(s[Span(s)]))
  {
    if s != [] && Digit(s[0]) {
      SpanDigits(s[1..]);
      assert s[..Span(s)] == [s[0]] + s[1..][..Span(s[1..])];
    }
  }

  predicate NoDigitFirst(s: string) {
    s == [] || !Digit(s[0])
  }

  lemma {:induction false} SpanConcat(a: string, b: string)
    requires AllDigits(a) && NoDigitFirst(b)
    ensures Span(a + b) == |a|
  {
    if a == [] {
      assert a + b == b;
    } else {
      assert (a + b)[1..] == a[1..] + b;
      SpanConcat(a[1..], b);
    }
  }

  lemma TakesNumeral(n: nat, rest: string)
    requires n >= 1 && NoDigitFirst(rest)
    ensures TakeNumber(Numeral(n) + rest) == Some(Number(n, rest))
  {
    var s := Numeral(n) + rest;
    NumeralPositive(n);
    NumeralValue(n);
    SpanConcat(Numeral(n), rest);
    assert s[..|Numeral(n)|] == Numeral(n) && s[|Numeral(n)|..] == rest;
  }

  lemma TookNumeral(s: string)
    ensures TakeNumber(s).Some? ==>
              var n := TakeNumber(s).value; n.value >= 1 && s == Numeral(n.value) + n.rest
  {
    SpanDigits(s);
    var digits := s[..Span(s)];
    if Positive(digits) {
      PositiveValue(digits);
      ValueNumeral(digits);
      assert s == digits + s[Span(s)..];
    }
  }

  lemma StripConcat(prefix: string, s: string)
    ensures Strip(prefix, prefix + s) == Some(s)
  {
  }

  lemma StripSplits(prefix: string, s: string)
    ensures Strip(prefix, s).Some? ==> s == prefix + Strip(prefix, s).value
  {
  }

  lemma PrintedReadsBack(o: Owner)
    requires Readable(o)
    ensures ParseMarker(Marker(o)) == Some(o)
  {
    var tunPart := TUN_TEXT + o.tun;
    var startPart := START_TEXT + (Numeral(o.start) + tunPart);
    assert NoDigitFirst(tunPart) && NoDigitFirst(startPart) by {
      assert tunPart[0] == ' ' && startPart[0] == ' ';
    }
    hide Strip, TakeNumber, Numeral;
    StripConcat(PID_TEXT, Numeral(o.pid) + startPart);
    TakesNumeral(o.pid, startPart);
    StripConcat(START_TEXT, Numeral(o.start) + tunPart);
    TakesNumeral(o.start, tunPart);
    StripConcat(TUN_TEXT, o.tun);
  }

  lemma ParsedIsMarker(comment: string)
    ensures ParseMarker(comment).Some? ==>
              Readable(ParseMarker(comment).value) && comment == Marker(ParseMarker(comment).value)
  {
    hide Numeral, Strip, TakeNumber, TunName;
    StripSplits(PID_TEXT, comment);
    if Strip(PID_TEXT, comment).Some? {
      var afterPid := Strip(PID_TEXT, comment).value;
      TookNumeral(afterPid);
      if TakeNumber(afterPid).Some? {
        var pid := TakeNumber(afterPid).value;
        StripSplits(START_TEXT, pid.rest);
        if Strip(START_TEXT, pid.rest).Some? {
          var afterStart := Strip(START_TEXT, pid.rest).value;
          TookNumeral(afterStart);
          if TakeNumber(afterStart).Some? {
            StripSplits(TUN_TEXT, TakeNumber(afterStart).value.rest);
          }
        }
      }
    }
  }

  /** A comment reads as an owner exactly when it is that owner's marker, so a
      printed identity reads back unchanged and no two owners share a marker. */
  lemma MarkerRoundTrip(comment: string, o: Owner)
    ensures ParseMarker(comment) == Some(o) <==> Readable(o) && comment == Marker(o)
  {
    hide Marker, ParseMarker, Readable;
    ParsedIsMarker(comment);
    if Readable(o) {
      PrintedReadsBack(o);
    }
  }
}

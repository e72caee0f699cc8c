/** The start time in a /proc/<pid>/stat file, as the C supervisor and the
    Python host read it. */
module StatFields {
  import opened Bytes
  import opened Lists
  import opened Decimals

  // ----- octets and characters -----

  /** One character for each octet. */
  function Latin(file: seq<Byte>): string {
    seq(|file|, i requires 0 <= i < |file| => file[i] as char)
  }

  /** The octets of an ASCII string. */
  function Octets(s: string): seq<Byte> {
    seq(|s|, i requires 0 <= i < |s| => (s[i] as int % 256) as Byte)
  }

  predicate AsciiString(s: string) {
    forall i :: 0 <= i < |s| ==> s[i] as int < 128
  }

  predicate Lacks(s: string, c: char) {
    forall i :: 0 <= i < |s| ==> s[i] != c
  }

  /** What decoding as ASCII accepts. */
  predicate Ascii(file: seq<Byte>) {
    forall i :: 0 <= i < |file| ==> file[i] < 128
  }

  // ----- words -----

  predicate Space(c: char) {
    c == ' '
  }

  predicate White(c: char) {
    c in " \t\n\r" || c == '\U{B}' || c == '\U{C}' || '\U{1C}' <= c <= '\U{1F}'
  }

  /** How many characters from the start are not separators. */
  function WordLength(s: string, separates: char -> bool): (n: nat)
    ensures n <= |s|
  {
    if s == [] || separates(s[0]) then 0 else 1 + WordLength(s[1..], separates)
  }

  /** The words between runs of separators. */
  function Words(s: string, separates: char -> bool): seq<string>
    decreases |s|
  {
    if s == [] then []
    else if separates(s[0]) then Words(s[1..], separates)
    else
      var n := WordLength(s, separates);
      [s[..n]] + Words(s[n..], separates)
  }

  /** One past the last closing parenthesis. */
  function AfterParen(s: string): (r: Option<nat>)
    ensures r.Some? ==> 1 <= r.value <= |s|
  {
    if s == [] then None
    else if s[|s| - 1] == ')' then Some(|s|)
    else AfterParen(s[..|s| - 1])
  }

  // ----- the Python reader -----

  function TrimLeft(s: string): string {
    if s == [] || !White(s[0]) then s else TrimLeft(s[1..])
  }

  function TrimRight(s: string): string {
    if s == [] || !White(s[|s| - 1]) then s else TrimRight(s[..|s| - 1])
  }

  /** int() of a word without sign or underscore. */
  function PythonInt(word: string): Option<nat> {
    if word != [] && AllDigits(word) then Some(Value(word)) else None
  }

  /** Reading in text mode turns every line end into a line feed. */
  function Universal(s: string): string
    decreases |s|
  {
    if s == [] then []
    else if s[0] == '\r' then "\n" + Universal(if |s| > 1 && s[1] == '\n' then s[2..] else s[1..])
    else [s[0]] + Universal(s[1..])
  }

  /** _process_start_time; None stands for UnicodeDecodeError and ValueError. */
  function PythonStartTime(file: seq<Byte>): Option<nat> {
    if Ascii(file) then StartTimeOf(Universal(Latin(file))) else None
  }

  function StartTimeOf(text: string): Option<nat> {
    var value := TrimRight(TrimLeft(text));
    match AfterParen(value)
    case None => None
    case Some(start) =>
      var fields := Words(value[start..], White);
      if |fields| <= 19 then None
      else match PythonInt(fields[19])
        case None => None
        case Some(n) => if n < 1 then None else Some(n)
  }

  // ----- the C reader -----

  const BUFFER_SIZE: nat := 4096
  const ULLONG_MAX: nat := 0xffff_ffff_ffff_ffff

  function TrimNewlines(s: string): string {
    if s == [] || !(s[|s| - 1] == '\n' || s[|s| - 1] == '\r') then s else TrimNewlines(s[..|s| - 1])
  }

  /** Up to the first NUL. */
  function CString(s: string): string {
    if s == [] || s[0] == '\0' then [] else [s[0]] + CString(s[1..])
  }

  /** tcpcc_read_file: one read into the buffer, line ends cut off. */
  function ReadFile(file: seq<Byte>): string {
    var text := Latin(file);
    CString(TrimNewlines(if |text| < BUFFER_SIZE then text else text[..BUFFER_SIZE - 1]))
  }

  /** strtoull of a word of digits that must be used up and not be zero. */
  function Strtoull(word: string): Option<nat> {
    if word != [] && AllDigits(word) && 1 <= Value(word) <= ULLONG_MAX then Some(Value(word)) else None
  }

  /** The word that tcpcc_process_start_time takes for field 22. */
  function CStartTime(file: seq<Byte>): Option<nat> {
    var line := ReadFile(file);
    match AfterParen(line)
    case None => None
    case Some(start) =>
      var fields := Words(line[start..], Space);
      if |fields| < 20 then None else Strtoull(fields[19])
  }

  lemma {:induction false} WordLengthAt(s: string, separates: char -> bool, n: nat)
    requires n <= |s| && (forall i :: 0 <= i < n ==> !separates(s[i])) && (n < |s| ==> separates(s[n]))
    ensures WordLength(s, separates) == n
  {
    if n > 0 {
      WordLengthAt(s[1..], separates, n - 1);
    }
  }

  lemma WordsSkip(line: string, i: nat)
    requires i < |line| && line[i] == ' '
    ensures Words(line[i..], Space) == Words(line[i + 1..], Space)
  {
    assert line[i..][1..] == line[i + 1..];
  }

  lemma WordsTake(line: string, i: nat, j: nat)
    requires i < j <= |line| && (forall k :: i <= k < j ==> line[k] != ' ') && (j < |line| ==> line[j] == ' ')
    ensures Words(line[i..], Space) == [line[i..j]] + Words(line[j..], Space)
  {
    WordLengthAt(line[i..], Space, j - i);
    assert line[i..][..j - i] == line[i..j] && line[i..][j - i..] == line[j..];
  }

  lemma NoWords(line: string)
    ensures Words(line[|line|..], Space) == []
  {
  }

  /** strrchr for a closing parenthesis. */
  method FindParen(line: string) returns (cursor: nat)
    ensures cursor <= |line| && AfterParen(line) == if cursor == 0 then None else Some(cursor)
  {
    cursor := |line|;
    assert line[..|line|] == line;
    while cursor > 0 && line[cursor - 1] != ')'
      invariant 0 <= cursor <= |line|
      invariant AfterParen(line) == AfterParen(line[..cursor])
    {
      assert line[..cursor][..cursor - 1] == line[..cursor - 1];
      cursor := cursor - 1;
    }
  }

  /** tcpcc_process_start_time after the file was read: a cursor that skips
      spaces and words until field 22. */
  method ScanStartTime(line: string) returns (r: Option<nat>)
    ensures r == match AfterParen(line)
                 case None => None
                 case Some(start) =>
                   var fields := Words(line[start..], Space);
                   if |fields| < 20 then None else Strtoull(fields[19])
  {
    hide Words, Strtoull, AfterParen;
    var cursor := FindParen(line);
    if cursor == 0 {
      return None;
    }
    ghost var fields := Words(line[cursor..], Space);
    var field := 3;
    while true
      invariant 3 <= field <= 22 && 0 <= cursor <= |line|
      invariant |fields| >= field - 3 && fields[field - 3..] == Words(line[cursor..], Space)
      decreases 22 - field
    {
      var start, end := NextWord(line, cursor);
      if start == |line| {
        return None;
      }
      assert fields[field - 3..][0] == line[start..end] && fields[field - 3..][1..] == fields[field - 2..];
      if field == 22 {
        return Strtoull(line[start..end]);
      }
      cursor := end;
      field := field + 1;
    }
  }

  /** Skips spaces, then a word. */
  method NextWord(line: string, from: nat) returns (start: nat, end: nat)
    requires from <= |line|
    ensures from <= start <= end <= |line|
    ensures start == |line| ==> Words(line[from..], Space) == []
    ensures start < |line| ==> Words(line[from..], Space) == [line[start..end]] + Words(line[end..], Space)
  {
    hide Words;
    start := from;
    NoWords(line);
    while start < |line| && line[start] == ' '
      invariant from <= start <= |line|
      invariant Words(line[from..], Space) == Words(line[start..], Space)
    {
      WordsSkip(line, start);
      start := start + 1;
    }
    end := start;
    while end < |line| && line[end] != ' '
      invariant start <= end <= |line|
      invariant forall i :: start <= i < end ==> line[i] != ' '
    {
      end := end + 1;
    }
    if start < |line| {
      WordsTake(line, start, end);
    }
  }

  // ----- both readers on a line the kernel prints -----

  function Joined(fields: seq<string>): string {
    if fields == [] then "" else " " + fields[0] + Joined(fields[1..])
  }

  /** proc_pid_stat: the command is printed as it is, between parentheses. */
  function StatLine(pid: nat, command: seq<Byte>, fields: seq<string>): seq<Byte> {
    Octets(Numeral(pid) + " (") + command + Octets(")" + Joined(fields) + "\n")
  }

  /** Fields after the command: a state letter and numbers. */
  predicate PlainField(f: string) {
    f != [] && forall i :: 0 <= i < |f| ==> !White(f[i]) && f[i] != ')' && f[i] != '\0' && f[i] as int < 128
  }

  ghost predicate PlainFields(fields: seq<string>) {
    forall i :: 0 <= i < |fields| ==> PlainField(fields[i])
  }

  predicate NoParen(s: string) {
    forall i :: 0 <= i < |s| ==> s[i] != ')'
  }

  lemma {:induction false} JoinedPlain(fields: seq<string>)
    requires PlainFields(fields)
    ensures NoParen(Joined(fields))
  {
    if fields != [] {
      assert PlainField(fields[0]);
      JoinedPlain(fields[1..]);
    }
  }

  lemma {:induction false} AfterParenAt(head: string, tail: string)
    requires NoParen(tail)
    ensures AfterParen(head + ")" + tail) == Some(|head| + 1)
  {
    var s := head + ")" + tail;
    if tail != [] {
      assert s[..|s| - 1] == head + ")" + tail[..|tail| - 1];
      AfterParenAt(head, tail[..|tail| - 1]);
    }
  }

  /** A separator test that treats the printed line like its readers do. */
  ghost predicate Separator(separates: char -> bool) {
    separates(' ') && forall c :: separates(c) ==> White(c)
  }

  lemma {:induction false} WordsOfJoined(fields: seq<string>, separates: char -> bool)
    requires PlainFields(fields) && Separator(separates)
    ensures Words(Joined(fields), separates) == fields
  {
    if fields != [] {
      var f, rest := fields[0], Joined(fields[1..]);
      var s := Joined(fields);
      assert PlainField(f);
      assert s == " " + f + rest && s[1..] == f + rest;
      assert rest == [] || rest[0] == ' ';
      WordLengthAt(f + rest, separates, |f|);
      assert (f + rest)[..|f|] == f && (f + rest)[|f|..] == rest;
      WordsOfJoined(fields[1..], separates);
    }
  }

  lemma {:induction false} JoinedLast(fields: seq<string>)
    requires PlainFields(fields) && fields != []
    ensures Joined(fields) != [] && !White(Joined(fields)[|Joined(fields)| - 1])
  {
    assert PlainField(fields[0]);
    if |fields| == 1 {
      assert Joined(fields[1..]) == "";
    } else {
      JoinedLast(fields[1..]);
    }
  }

  /** The line without its line end. */
  function Body(pid: nat, command: string, fields: seq<string>): string {
    Numeral(pid) + " (" + command + ")" + Joined(fields)
  }

  lemma BodyEnds(pid: nat, command: string, fields: seq<string>)
    requires PlainFields(fields) && fields != []
    ensures var body := Body(pid, command, fields); body != [] && !White(body[0]) && !White(body[|body| - 1])
  {
    JoinedLast(fields);
    var body, tail := Body(pid, command, fields), Joined(fields);
    assert Digit(Numeral(pid)[0]);
    assert body[0] == Numeral(pid)[0] && body[|body| - 1] == tail[|tail| - 1];
  }

  lemma TrimsLineEnd(body: string)
    requires body != [] && !White(body[0]) && !White(body[|body| - 1])
    ensures TrimRight(TrimLeft(body + "\n")) == body && TrimNewlines(body + "\n") == body
  {
    var line := body + "\n";
    assert line[0] == body[0] && line[|line| - 1] == '\n' && line[..|line| - 1] == body;
  }

  lemma BodyFields(pid: nat, command: string, fields: seq<string>, separates: char -> bool)
    requires PlainFields(fields) && Separator(separates)
    ensures var body := Body(pid, command, fields);
            && AfterParen(body).Some? && Words(body[AfterParen(body).value..], separates) == fields
  {
    var head, tail := Numeral(pid) + " (" + command, Joined(fields);
    JoinedPlain(fields);
    AfterParenAt(head, tail);
    assert Body(pid, command, fields) == head + ")" + tail;
    assert (head + ")" + tail)[|head| + 1..] == tail;
    WordsOfJoined(fields, separates);
  }

  lemma Separators()
    ensures Separator(Space) && Separator(White)
  {
  }

  // ----- the printed line, decoded -----

  lemma OctetsBack(s: string)
    requires AsciiString(s)
    ensures Latin(Octets(s)) == s && Ascii(Octets(s))
  {
  }

  lemma {:induction false} JoinedAscii(fields: seq<string>)
    requires PlainFields(fields)
    ensures AsciiString(Joined(fields)) && Lacks(Joined(fields), '\0') && Lacks(Joined(fields), '\r')
  {
    if fields != [] {
      assert PlainField(fields[0]);
      JoinedAscii(fields[1..]);
    }
  }

  /** What the kernel prints, as characters; and when it is ASCII. */
  lemma LineIs(pid: nat, command: seq<Byte>, fields: seq<string>)
    requires PlainFields(fields)
    ensures Latin(StatLine(pid, command, fields)) == Body(pid, Latin(command), fields) + "\n"
    ensures Ascii(StatLine(pid, command, fields)) <==> Ascii(command)
  {
    var head, tail := Numeral(pid) + " (", ")" + Joined(fields) + "\n";
    JoinedAscii(fields);
    assert forall i :: 0 <= i < |Numeral(pid)| ==> Digit(Numeral(pid)[i]);
    OctetsBack(head);
    OctetsBack(tail);
    hide Numeral, Joined, PlainFields;
    var a, b := Octets(head), Octets(tail);
    assert StatLine(pid, command, fields) == a + command + b;
    assert Latin(a + command + b) == Latin(a) + Latin(command) + Latin(b);
    assert Ascii(a + command + b) <==> Ascii(command) by {
      if Ascii(a + command + b) {
        assert forall i :: 0 <= i < |command| ==> command[i] == (a + command + b)[|a| + i];
      }
    }
  }

  /** No line end straddles the two parts. */
  predicate Apart(a: string, b: string) {
    a == [] || b == [] || a[|a| - 1] != '\r' || b[0] != '\n'
  }

  lemma {:induction false} UniversalApart(a: string, b: string)
    requires Apart(a, b)
    ensures Universal(a + b) == Universal(a) + Universal(b)
    decreases |a|
  {
    if a == [] {
      assert a + b == b;
    } else {
      var n := if a[0] == '\r' && |a| > 1 && a[1] == '\n' then 2 else 1;
      assert (a + b)[n..] == a[n..] + b && (a + b)[0] == a[0];
      assert |a| > 1 ==> (a + b)[1] == a[1];
      assert |a| == 1 && b != [] ==> (a + b)[1] == b[0];
      UniversalApart(a[n..], b);
    }
  }

  lemma {:induction false} UniversalPlain(s: string)
    requires Lacks(s, '\r')
    ensures Universal(s) == s
  {
    if s != [] {
      UniversalPlain(s[1..]);
    }
  }

  lemma UniversalBetween(head: string, s: string, tail: string)
    requires Lacks(head, '\r') && Lacks(tail, '\r') && tail != [] && tail[0] != '\n'
    ensures Universal(head + s + tail) == head + Universal(s) + tail
  {
    hide Universal;
    UniversalPlain(head);
    UniversalPlain(tail);
    UniversalApart(head, s);
    UniversalApart(head + s, tail);
  }

  /** Translating line ends touches the command only. */
  lemma UniversalLine(pid: nat, command: string, fields: seq<string>)
    requires PlainFields(fields)
    ensures Universal(Body(pid, command, fields) + "\n") == Body(pid, Universal(command), fields) + "\n"
  {
    var head, tail := Numeral(pid) + " (", ")" + Joined(fields) + "\n";
    JoinedAscii(fields);
    assert Lacks(head, '\r') by {
      assert forall i :: 0 <= i < |Numeral(pid)| ==> Digit(Numeral(pid)[i]);
      hide Numeral;
    }
    hide Universal, Numeral, Joined, PlainFields;
    UniversalBetween(head, command, tail);
    assert Body(pid, command, fields) + "\n" == head + command + tail;
    assert Body(pid, Universal(command), fields) + "\n" == head + Universal(command) + tail;
  }

  lemma {:induction false} CStringAll(s: string)
    requires Lacks(s, '\0')
    ensures CString(s) == s
  {
    if s != [] {
      CStringAll(s[1..]);
    }
  }

  lemma BodyHasNoNul(pid: nat, command: string, fields: seq<string>)
    requires PlainFields(fields) && Lacks(command, '\0')
    ensures CString(Body(pid, command, fields)) == Body(pid, command, fields)
  {
    JoinedAscii(fields);
    assert forall i :: 0 <= i < |Numeral(pid)| ==> Digit(Numeral(pid)[i]);
    hide CString, Joined, Numeral, PlainFields;
    CStringAll(Body(pid, command, fields));
  }

  // ----- the two readers -----

  /** The Python reader takes field 22 for the start time if and only if the
      command is ASCII, whatever parentheses, spaces or line ends it holds. */
  lemma PythonReads(pid: nat, command: seq<Byte>, fields: seq<string>, start: nat)
    requires PlainFields(fields) && |fields| >= 20 && fields[19] == Numeral(start) && start >= 1
    ensures PythonStartTime(StatLine(pid, command, fields)) == if Ascii(command) then Some(start) else None
  {
    hide Body, StatLine, Words, AfterParen, TrimLeft, TrimRight, TrimNewlines, PlainFields, Separator, Numeral, Universal, Latin, Ascii;
    var name := Universal(Latin(command));
    LineIs(pid, command, fields);
    UniversalLine(pid, Latin(command), fields);
    BodyEnds(pid, name, fields);
    TrimsLineEnd(Body(pid, name, fields));
    Separators();
    BodyFields(pid, name, fields, White);
    NumeralValue(start);
  }

  /** The C reader does for every command, and fails on a number that does not
      fit 64 bits. */
  lemma CReads(pid: nat, command: seq<Byte>, fields: seq<string>, start: nat)
    requires PlainFields(fields) && |fields| >= 20 && fields[19] == Numeral(start) && start >= 1
    requires |StatLine(pid, command, fields)| < BUFFER_SIZE && forall i :: 0 <= i < |command| ==> command[i] != 0
    ensures CStartTime(StatLine(pid, command, fields)) == if start <= ULLONG_MAX then Some(start) else None
  {
    assert |Latin(StatLine(pid, command, fields))| < BUFFER_SIZE;
    assert Lacks(Latin(command), '\0');
    hide Body, StatLine, Words, AfterParen, TrimNewlines, PlainFields, Separator, Numeral, Latin, CString;
    var name := Latin(command);
    LineIs(pid, command, fields);
    BodyEnds(pid, name, fields);
    TrimsLineEnd(Body(pid, name, fields));
    BodyHasNoNul(pid, name, fields);
    Separators();
    BodyFields(pid, name, fields, Space);
    NumeralValue(start);
  }

  /** The readers agree on every printable start time if and only if the command
      is ASCII. */
  lemma ReadersAgree(pid: nat, command: seq<Byte>, fields: seq<string>, start: nat)
    requires PlainFields(fields) && |fields| >= 20 && fields[19] == Numeral(start) && 1 <= start <= ULLONG_MAX
    requires |StatLine(pid, command, fields)| < BUFFER_SIZE && forall i :: 0 <= i < |command| ==> command[i] != 0
    ensures PythonStartTime(StatLine(pid, command, fields)) == CStartTime(StatLine(pid, command, fields)) <==> Ascii(command)
  {
    hide *;
    PythonReads(pid, command, fields, start);
    CReads(pid, command, fields, start);
  }

  /** A process named with the two octets of an accented letter: the C reader
      gives its start time and the Python reader fails. */
  lemma ReadersDiffer()
    ensures var file := StatLine(1, [195, 169], seq(20, i => "7"));
            PythonStartTime(file) == None && CStartTime(file) == Some(7)
  {
    var fields: seq<string> := seq(20, i => "7");
    assert fields[19] == Numeral(7) && PlainField("7");
    ShortLine(fields);
    var name: seq<Byte> := [195, 169];
    assert name[0] == 195 && !Ascii(name);
    hide StatLine, PythonStartTime, CStartTime, Ascii;
    PythonReads(1, name, fields, 7);
    CReads(1, name, fields, 7);
  }

  lemma ShortLine(fields: seq<string>)
    requires |fields| == 20 && forall i :: 0 <= i < |fields| ==> fields[i] == "7"
    ensures |StatLine(1, [195, 169], fields)| < BUFFER_SIZE
  {
    JoinedLength(fields);
    hide Joined;
  }

  lemma {:induction false} JoinedLength(fields: seq<string>)
    requires forall i :: 0 <= i < |fields| ==> |fields[i]| == 1
    ensures |Joined(fields)| == 2 * |fields|
  {
    if fields != [] {
      JoinedLength(fields[1..]);
    }
  }
}

/** Printing events as JSON lines, and the round trip from a job to the shim's two outputs. */
module NdjsonPrinting {
  import opened Options
  import opened Texts
  import opened JobEvents
  import opened Ndjson
  import X = JobExecution
  import opened Redaction
  import opened RedactedOutput

  // ---------------------------------------------------------------- JSON strings

  function HexDigit(n: nat): char
    requires n < 16
  {
    "0123456789abcdef"[n]
  }

  function HexValue(c: char): Option<nat> {
    if '0' <= c <= '9' then Some((c - '0') as nat)
    else if 'a' <= c <= 'f' then Some((c - 'a') as nat + 10)
    else None
  }

  /** How a character stands inside a JSON string. */
  function Escaped(c: char): string {
    if c == '"' then "\\\""
    else if c == '\\' then "\\\\"
    else if c == '\n' then "\\n"
    else if c == '\r' then "\\r"
    else if c == '\t' then "\\t"
    else if c == '\U{8}' then "\\b"
    else if c == '\U{c}' then "\\f"
    else if c < ' ' then "\\u00" + [HexDigit(c as nat / 16), HexDigit(c as nat % 16)]
    else [c]
  }

  function Escape(data: string): string {
    if data == "" then "" else Escaped(data[0]) + Escape(data[1..])
  }

  /** The character after a backslash, for the short forms. */
  function ShortForm(c: char): Option<char> {
    match c
    case '"' => Some('"')
    case '\\' => Some('\\')
    case 'n' => Some('\n')
    case 'r' => Some('\r')
    case 't' => Some('\t')
    case 'b' => Some('\U{8}')
    case 'f' => Some('\U{c}')
    case _ => None
  }

  /** One character of a string body, and how many characters it took. */
  function NextChar(s: string): Option<(char, nat)> {
    if s == "" then None
    else if s[0] != '\\' then Some((s[0], 1))
    else if |s| >= 2 && ShortForm(s[1]).Some? then Some((ShortForm(s[1]).value, 2))
    else if |s| >= 6 && s[..4] == "\\u00" && HexValue(s[4]).Some? && HexValue(s[5]).Some? then
      Some(((HexValue(s[4]).value * 16 + HexValue(s[5]).value) as char, 6))
    else None
  }

  /** The string whose body begins here, up to its closing quote, and what follows. */
  function Unescape(s: string): Option<(string, string)>
    decreases |s|
  {
    if s == "" then None
    else if s[0] == '"' then Some(("", s[1..]))
    else
      var next := NextChar(s);
      if next.None? || |s| < next.value.1 || next.value.1 == 0 then None else
      var more := Unescape(s[next.value.1..]);
      if more.None? then None else Some(([next.value.0] + more.value.0, more.value.1))
  }

  lemma EscapedReads(c: char, rest: string)
    ensures Escaped(c) != "" && Escaped(c)[0] != '"'
    ensures NextChar(Escaped(c) + rest) == Some((c, |Escaped(c)|))
    ensures '\n' !in Escaped(c)
  {
    if c < ' ' && |Escaped(c)| == 6 {
      var s := Escaped(c) + rest;
      assert s[..4] == "\\u00";
      HexReads(c as nat / 16);
      HexReads(c as nat % 16);
    }
  }

  lemma HexReads(n: nat)
    requires n < 16
    ensures HexValue(HexDigit(n)) == Some(n)
  {
  }

  /** Whatever the data, its string is read back whole and holds no line break. */
  lemma {:induction false} EscapeReads(data: string, rest: string)
    ensures Unescape(Escape(data) + ['"'] + rest) == Some((data, rest))
    ensures '\n' !in Escape(data)
  {
    hide Escaped, NextChar;
    if data == "" {
      assert Escape(data) + ['"'] + rest == ['"'] + rest;
    } else {
      var more := Escape(data[1..]) + ['"'] + rest;
      EscapeReads(data[1..], rest);
      EscapedReads(data[0], more);
      var s := Escaped(data[0]) + more;
      assert Escape(data) + ['"'] + rest == s;
      assert s[|Escaped(data[0])|..] == more;
      assert [data[0]] + data[1..] == data;
    }
  }

  // ---------------------------------------------------------------- numbers

  function Digits(n: nat): (r: string)
    ensures r != ""
  {
    if n < 10 then [HexDigit(n)] else Digits(n / 10) + [HexDigit(n % 10)]
  }

  predicate IsDigit(c: char) {
    '0' <= c <= '9'
  }

  function Number(s: string): nat
    requires forall i :: 0 <= i < |s| ==> IsDigit(s[i])
  {
    if s == "" then 0 else
    assert IsDigit(s[|s| - 1]);
    Number(s[..|s| - 1]) * 10 + (s[|s| - 1] - '0') as nat
  }

  function DigitCount(s: string): (n: nat)
    ensures n <= |s| && (forall i :: 0 <= i < n ==> IsDigit(s[i])) && (n < |s| ==> !IsDigit(s[n]))
  {
    if s == "" || !IsDigit(s[0]) then 0 else 1 + DigitCount(s[1..])
  }

  lemma DigitReads(n: nat)
    requires n < 10
    ensures IsDigit(HexDigit(n)) && (HexDigit(n) - '0') as nat == n
  {
  }

  lemma {:induction false} DigitsRead(n: nat)
    ensures (forall i :: 0 <= i < |Digits(n)| ==> IsDigit(Digits(n)[i])) && Number(Digits(n)) == n
  {
    hide HexDigit;
    if n < 10 {
      DigitReads(n);
      assert Digits(n)[..0] == "";
    } else {
      DigitsRead(n / 10);
      DigitReads(n % 10);
      var first, last := Digits(n / 10), HexDigit(n % 10);
      assert Digits(n) == first + [last];
      assert (first + [last])[..|first|] == first;
    }
  }

  lemma NumberReads(n: nat, rest: string)
    requires rest != "" && !IsDigit(rest[0])
    ensures DigitCount(Digits(n) + rest) == |Digits(n)|
    ensures (Digits(n) + rest)[..|Digits(n)|] == Digits(n) && (Digits(n) + rest)[|Digits(n)|..] == rest
  {
    DigitsRead(n);
    var s := Digits(n) + rest;
    assert s[|Digits(n)|] == rest[0];
    assert forall i :: 0 <= i < |Digits(n)| ==> s[i] == Digits(n)[i];
  }

  // ---------------------------------------------------------------- events

  const STDOUT_HEAD := "{\"type\":\"stdout\",\"data\":\""
  const STDERR_HEAD := "{\"type\":\"stderr\",\"data\":\""
  const EXIT_HEAD := "{\"type\":\"exit\",\"exit_code\":"

  function ExitTail(truncated: bool, cancelled: bool): string {
    ",\"truncated\":" + (if truncated then "true" else "false")
    + (if cancelled then ",\"cancelled\":true" else "") + "}"
  }

  function PrintNumber(n: int): string {
    if n < 0 then "-" + Digits(-n) else Digits(n)
  }

  function Print(e: Event): string {
    match e
    case Output(Stdout, data) => STDOUT_HEAD + Escape(data) + ['"'] + "}"
    case Output(Stderr, data) => STDERR_HEAD + Escape(data) + ['"'] + "}"
    case Exit(code, truncated, cancelled) => EXIT_HEAD + PrintNumber(code) + ExitTail(truncated, cancelled)
  }

  function PrintAll(events: seq<Event>): string {
    if events == [] then "" else PrintAll(events[..|events| - 1]) + Print(events[|events| - 1]) + ['\n']
  }

  function ParseTail(tail: string): Option<(bool, bool)> {
    if tail == ExitTail(false, false) then Some((false, false))
    else if tail == ExitTail(false, true) then Some((false, true))
    else if tail == ExitTail(true, false) then Some((true, false))
    else if tail == ExitTail(true, true) then Some((true, true))
    else None
  }

  function ParseExit(s: string): Option<Event> {
    var n := DigitCount(s);
    var flags := ParseTail(s[n..]);
    if n == 0 || flags.None? then None else Some(Exit(Number(s[..n]), flags.value.0, flags.value.1))
  }

  function ParseOutput(channel: Channel, s: string): Option<Event> {
    var body := Unescape(s);
    if body.Some? && body.value.1 == "}" then Some(Output(channel, body.value.0)) else None
  }

  /** A parser for the lines that `Print` makes. */
  function ParsePrinted(line: string): Option<Event> {
    if STDOUT_HEAD <= line then ParseOutput(Stdout, line[|STDOUT_HEAD|..])
    else if STDERR_HEAD <= line then ParseOutput(Stderr, line[|STDERR_HEAD|..])
    else if EXIT_HEAD <= line then ParseExit(line[|EXIT_HEAD|..])
    else None
  }

  /** The lines as they stand on the wire. */
  lemma PrintedOutput(data: string)
    ensures Print(Output(Stdout, data)) == "{\"type\":\"stdout\",\"data\":\"" + Escape(data) + "\"}"
    ensures Print(Output(Stderr, data)) == "{\"type\":\"stderr\",\"data\":\"" + Escape(data) + "\"}"
  {
    hide Escape;
    assert forall s: string :: s + ['"'] + "}" == s + "\"}";
  }

  lemma PrintedExit(code: nat, truncated: bool, cancelled: bool)
    ensures
      var head := "{\"type\":\"exit\",\"exit_code\":" + Digits(code);
      Print(Exit(code, truncated, cancelled)) == head + PrintedFlags(truncated, cancelled)
  {
    hide Digits;
    PrintedTail(truncated, cancelled);
  }

  function PrintedFlags(truncated: bool, cancelled: bool): string {
    match (truncated, cancelled)
    case (false, false) => ",\"truncated\":false}"
    case (true, false) => ",\"truncated\":true}"
    case (false, true) => ",\"truncated\":false,\"cancelled\":true}"
    case (true, true) => ",\"truncated\":true,\"cancelled\":true}"
  }

  lemma PrintedTail(truncated: bool, cancelled: bool)
    ensures ExitTail(truncated, cancelled) == PrintedFlags(truncated, cancelled)
  {
    var head := ",\"truncated\":" + if truncated then "true" else "false";
    assert head == if truncated then ",\"truncated\":true" else ",\"truncated\":false";
    assert head + "" == head;
  }

  predicate Printable(e: Event) {
    e.Exit? ==> 0 <= e.exitCode <= 255
  }

  /** What the shim needs of its JSON parser: that it undoes the printer. */
  ghost predicate Inverts(parse: Parser) {
    forall e :: Printable(e) ==> parse(Print(e)) == Some(e)
  }

  lemma OutputReads(head: string, channel: Channel, data: string)
    requires head == if channel.Stdout? then STDOUT_HEAD else STDERR_HEAD
    ensures ParsePrinted(head + Escape(data) + ['"'] + "}") == Some(Output(channel, data))
    ensures '\n' !in head + Escape(data) + ['"'] + "}"
  {
    hide Escape, Unescape, ParseExit;
    EscapeReads(data, "}");
    var body := Escape(data) + ['"'] + "}";
    var line := head + Escape(data) + ['"'] + "}";
    assert line == head + body && line[|head|..] == body && line[..|head|] == head;
    assert channel.Stderr? ==> line[12] == 'e' && STDOUT_HEAD[12] == 'o';
  }

  lemma ExitHeadLeads(rest: string)
    ensures ParsePrinted(EXIT_HEAD + rest) == ParseExit(rest)
  {
    hide ParseExit, ParseOutput;
    var line := EXIT_HEAD + rest;
    assert line[|EXIT_HEAD|..] == rest && line[..|EXIT_HEAD|] == EXIT_HEAD;
    assert line[9] == 'e' && STDOUT_HEAD[9] == 's' && STDERR_HEAD[9] == 's';
  }

  lemma TailReads(truncated: bool, cancelled: bool)
    ensures ParseTail(ExitTail(truncated, cancelled)) == Some((truncated, cancelled))
  {
    hide ExitTail;
    TailsDiffer();
    assert truncated ==> forall c :: ExitTail(false, c) != ExitTail(truncated, cancelled);
  }

  lemma ExitBodyReads(code: nat, truncated: bool, cancelled: bool)
    ensures ParseExit(Digits(code) + ExitTail(truncated, cancelled)) == Some(Exit(code, truncated, cancelled))
    ensures '\n' !in Digits(code) + ExitTail(truncated, cancelled)
  {
    hide Digits, Number, DigitCount, ExitTail, ParseTail;
    var tail := ExitTail(truncated, cancelled);
    TailReads(truncated, cancelled);
    TailIsPlain(truncated, cancelled);
    NumberReads(code, tail);
    DigitsRead(code);
    assert '\n' !in Digits(code);
  }

  lemma HeadIsPlain(rest: string)
    requires '\n' !in rest
    ensures '\n' !in EXIT_HEAD + rest
  {
    assert '\n' !in EXIT_HEAD;
  }

  lemma ExitReads(code: nat, truncated: bool, cancelled: bool)
    ensures ParsePrinted(EXIT_HEAD + PrintNumber(code) + ExitTail(truncated, cancelled))
            == Some(Exit(code, truncated, cancelled))
    ensures '\n' !in EXIT_HEAD + PrintNumber(code) + ExitTail(truncated, cancelled)
  {
    hide Digits, ParsePrinted, ParseExit, ExitTail;
    var tail := ExitTail(truncated, cancelled);
    Regroup(EXIT_HEAD, Digits(code), tail);
    ExitHeadLeads(Digits(code) + tail);
    ExitBodyReads(code, truncated, cancelled);
    HeadIsPlain(Digits(code) + tail);
  }

  lemma TailsDiffer()
    ensures ExitTail(false, false) != ExitTail(false, true) && ExitTail(true, false) != ExitTail(true, true)
    ensures forall c, d :: ExitTail(false, c) != ExitTail(true, d)
  {
    assert |ExitTail(false, false)| < |ExitTail(false, true)| && |ExitTail(true, false)| < |ExitTail(true, true)|;
    forall c, d
      ensures ExitTail(false, c) != ExitTail(true, d)
    {
      assert ExitTail(false, c)[13] == 'f' && ExitTail(true, d)[13] == 't';
    }
  }

  lemma TailIsPlain(truncated: bool, cancelled: bool)
    ensures
      var tail := ExitTail(truncated, cancelled);
      '\n' !in tail && tail != "" && tail[0] == ','
  {
  }

  /** A printed event is one line, and reads back as itself. */
  lemma PrintReads(e: Event)
    requires Printable(e)
    ensures ParsePrinted(Print(e)) == Some(e)
    ensures '\n' !in Print(e) && Print(e) != ""
  {
    hide ParsePrinted, Escape, PrintNumber, ExitTail;
    match e
    case Output(Stdout, data) => OutputReads(STDOUT_HEAD, Stdout, data);
    case Output(Stderr, data) => OutputReads(STDERR_HEAD, Stderr, data);
    case Exit(code, truncated, cancelled) => ExitReads(code, truncated, cancelled);
  }

  /** There are such parsers. */
  lemma PrinterCanBeInverted()
    ensures Inverts(ParsePrinted)
  {
    hide ParsePrinted, Print;
    forall e | Printable(e)
      ensures ParsePrinted(Print(e)) == Some(e)
    {
      PrintReads(e);
    }
  }

  // ---------------------------------------------------------------- the round trip

  lemma {:induction false} OutputsRead(parse: Parser, events: seq<Event>)
    requires Inverts(parse) && NeverEnds(events)
    ensures Feed(parse, UNREAD, PrintAll(events))
            == (Reading(None, Text(Stdout, events), Text(Stderr, events), false), "")
  {
    hide Print, Feed, Inverts;
    if events == [] {
      FeedNothing(parse);
    } else {
      var n := |events| - 1;
      OutputsRead(parse, events[..n]);
      var r := Reading(None, Text(Stdout, events[..n]), Text(Stderr, events[..n]), false);
      OneMoreReads(parse, events[..n], events[n], r);
      assert events == events[..n] + [events[n]];
      assert Consume(parse, r, Print(events[n])) == Written(r, events[n].channel, events[n].data);
      assert Text(Stdout, events[..n]) + "" == Text(Stdout, events[..n]);
      assert Text(Stderr, events[..n]) + "" == Text(Stderr, events[..n]);
    }
  }

  lemma FeedNothing(parse: Parser)
    ensures Feed(parse, UNREAD, "") == (UNREAD, "")
  {
  }

  /** One more printed event is one more event read. */
  lemma OneMoreReads(parse: Parser, events: seq<Event>, e: Event, r: Reading)
    requires Inverts(parse) && Printable(e) && Feed(parse, UNREAD, PrintAll(events)) == (r, "")
    ensures parse(Print(e)) == Some(e) && Print(e) != ""
    ensures Feed(parse, UNREAD, PrintAll(events + [e])) == (Consume(parse, r, Print(e)), "")
  {
    hide Print, Consume;
    assert (events + [e])[..|events|] == events;
    PrintReads(e);
    var line := Print(e) + ['\n'];
    assert PrintAll(events + [e]) == PrintAll(events) + line;
    FeedJoins(parse, UNREAD, PrintAll(events), line);
    assert "" + line == Print(e) + ['\n'] + "";
    FeedLine(parse, r, Print(e), "");
    assert LineEnd("") == 0;
  }

  /**
   * Round trip: output events and one exit, printed and cut anywhere, are read back as the same two
   * texts and the same exit code.
   */
  lemma RoundTrip(parse: Parser, events: seq<Event>, chunks: seq<string>, failureMessage: string)
    requires Inverts(parse) && EndsOnce(events) && Printable(events[|events| - 1])
    requires Flatten(chunks) == PrintAll(events)
    ensures Read(parse, Flatten(chunks), failureMessage)
            == Outcome(events[|events| - 1].exitCode, false, Text(Stdout, events), Text(Stderr, events))
  {
    hide Print, PrintAll, Feed;
    var n := |events| - 1;
    var outs, exit := events[..n], events[n];
    assert events == outs + [exit];
    OutputsRead(parse, outs);
    var r := Reading(None, Text(Stdout, outs), Text(Stderr, outs), false);
    OneMoreReads(parse, outs, exit, r);
    assert Consume(parse, r, Print(exit)) == r.(exitCode := Some(exit.exitCode));
  }

  /** Merging touches no exit. */
  lemma CoalesceKeepsEnd(events: seq<Event>)
    ensures events == [] <==> Coalesce(events) == []
    ensures events != [] ==>
              var last, merged := events[|events| - 1], Coalesce(events)[|Coalesce(events)| - 1];
              (last.Exit? <==> merged.Exit?) && (last.Exit? ==> last == merged)
  {
  }

  /** The exit code of an execution, by how it settled and whether it had been aborted. */
  function CodeOf(settlement: X.Settlement, aborted: bool): int {
    match settlement
    case Resolved(code, _) => code
    case Rejected => if aborted then 130 else 1
  }

  /** What a failure adds to standard error. */
  function MessageOf(settlement: X.Settlement, aborted: bool): string {
    match settlement
    case Resolved(_, _) => ""
    case Rejected => if aborted then "CLI execution cancelled\n" else "CLI execution failed\n"
  }

  /**
   * From end to end, for every execution: whenever a client subscribed to the job, however late data
   * arrived and however the client's stream was cut, reading it as the shim reads gives the redacted
   * text of each output stream, the message of a failure, and the command's exit code, or 130 or 1
   * after a failure.
   */
  lemma ReaderHearsTheWholeJob(
    parse: Parser, u: X.Setup, steps: seq<X.Step>, who: Subscriber, chunks: seq<string>, failureMessage: string)
    requires Inverts(parse) && NonEmpty(u.secrets) && X.Leave(who) !in steps
    requires
      var e := X.ActAll(u, X.SPAWNED, steps);
      && who in e.job.sent
      && e.delivered.Some?
      && e.settled.Some?
      && 0 <= CodeOf(e.settled.value, e.delivered.value) <= 255
      && Flatten(chunks) == PrintAll(e.job.sent[who])
    ensures
      var e := X.ActAll(u, X.SPAWNED, steps);
      Read(parse, Flatten(chunks), failureMessage)
      == Outcome(CodeOf(e.settled.value, e.delivered.value), false, X.Heard(u, e.stdout),
                 X.Heard(u, e.stderr) + MessageOf(e.settled.value, e.delivered.value))
  {
    hide Read, PrintAll, Inverts, Text, Coalesce, X.ActAll, X.FedRight, X.SaidRight, X.Heard;
    var e := X.ActAll(u, X.SPAWNED, steps);
    var sent := e.job.sent[who];
    X.RunKeepsInv(u, steps);
    X.SubscribersMissNothing(u, steps, who);
    X.JobSaysRedactedOutput(u, steps);
    CoalesceKeepsEnd(e.said);
    CoalesceKeepsEnd(sent);
    RoundTrip(parse, sent, chunks, failureMessage);
    CoalesceKeepsText(Stdout, e.said);
    CoalesceKeepsText(Stderr, e.said);
    CoalesceKeepsText(Stdout, sent);
    CoalesceKeepsText(Stderr, sent);
  }
}

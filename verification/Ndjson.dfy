/**
 * Events as lines of JSON: how the server prints them and how the command-line shim reads them back
 * from a body that arrives in pieces.
 */
module Ndjson {
  import opened Options
  import opened Texts
  import opened JobEvents

  const HELPER_FAILURE_EXIT_CODE := 125

  /** What the shim makes of one line: nothing if it is not JSON or not an event. */
  type Parser = string -> Option<Event>

  /** What has been written so far, and the exit code once it came; or that reading has failed. */
  datatype Reading = Reading(exitCode: Option<int>, stdout: string, stderr: string, failed: bool)

  datatype Outcome = Outcome(code: int, failed: bool, stdout: string, stderr: string)

  const UNREAD := Reading(None, "", "", false)

  // ---------------------------------------------------------------- reading

  function Written(r: Reading, channel: Channel, data: string): Reading {
    match channel
    case Stdout => r.(stdout := r.stdout + data)
    case Stderr => r.(stderr := r.stderr + data)
  }

  /** One line; an empty one is skipped, and nothing is read after a failure. */
  function Consume(parse: Parser, r: Reading, line: string): Reading {
    if r.failed || line == "" then r
    else if r.exitCode.Some? then r.(failed := true)
    else match parse(line)
      case None => r.(failed := true)
      case Some(Output(channel, data)) => Written(r, channel, data)
      case Some(Exit(code, _, _)) => if 0 <= code <= 255 then r.(exitCode := Some(code)) else r.(failed := true)
  }

  /** The first line break, or the length. */
  function LineEnd(text: string): (k: nat)
    ensures k <= |text| && '\n' !in text[..k] && (k < |text| ==> text[k] == '\n')
  {
    if text == "" || text[0] == '\n' then 0 else
    var k := LineEnd(text[1..]);
    assert text[..k + 1] == [text[0]] + text[1..][..k];
    k + 1
  }

  /** Consumes the complete lines and leaves the rest. */
  function Feed(parse: Parser, r: Reading, text: string): (Reading, string)
    decreases |text|
  {
    var k := LineEnd(text);
    if k == |text| then (r, text) else Feed(parse, Consume(parse, r, text[..k]), text[k + 1..])
  }

  /** The end of the body: what is left is a line, and without an exit code the run has failed. */
  function Conclude(parse: Parser, r: Reading, rest: string, failureMessage: string): Outcome {
    var end := Consume(parse, r, rest);
    var failed := end.failed || end.exitCode.None?;
    if failed then Outcome(HELPER_FAILURE_EXIT_CODE, true, end.stdout, end.stderr + failureMessage)
    else Outcome(end.exitCode.value, false, end.stdout, end.stderr)
  }

  function Read(parse: Parser, text: string, failureMessage: string): Outcome {
    var (r, rest) := Feed(parse, UNREAD, text);
    Conclude(parse, r, rest, failureMessage)
  }

  lemma LineEndIs(line: string, rest: string)
    requires '\n' !in line
    ensures LineEnd(line + ['\n'] + rest) == |line|
    ensures LineEnd(line) == |line|
  {
    var text := line + ['\n'] + rest;
    assert text[|line|] == '\n';
    assert forall i :: 0 <= i < |line| ==> text[i] == line[i];
  }

  lemma FeedLine(parse: Parser, r: Reading, line: string, rest: string)
    requires '\n' !in line
    ensures Feed(parse, r, line + ['\n'] + rest) == Feed(parse, Consume(parse, r, line), rest)
  {
    LineEndIs(line, rest);
    var text := line + ['\n'] + rest;
    assert text[..|line|] == line && text[|line| + 1..] == rest;
  }

  /** Feeding in two pieces is feeding at once. */
  lemma {:induction false} FeedJoins(parse: Parser, r: Reading, a: string, b: string)
    ensures var (m, rest) := Feed(parse, r, a);
            Feed(parse, r, a + b) == Feed(parse, m, rest + b)
    decreases |a|
  {
    var k := LineEnd(a);
    if k < |a| {
      var line, tail := a[..k], a[k + 1..];
      FeedJoins(parse, Consume(parse, r, line), tail, b);
      assert a + b == line + ['\n'] + (tail + b);
      FeedLine(parse, r, line, tail + b);
    }
  }

  lemma {:induction false} FailureStays(parse: Parser, r: Reading, text: string)
    requires r.failed
    ensures Feed(parse, r, text).0 == r
    decreases |text|
  {
    var k := LineEnd(text);
    if k < |text| {
      FailureStays(parse, r, text[k + 1..]);
    }
  }

  /** The shim's loop over the pieces of the body: however cut, it reads the whole. */
  method RunRequest(parse: Parser, chunks: seq<string>, failureMessage: string) returns (outcome: Outcome)
    ensures outcome == Read(parse, Flatten(chunks), failureMessage)
  {
    hide Consume, Flatten;
    FlattenTwo("", "", []);
    var buffered := "";
    var r := UNREAD;
    for i := 0 to |chunks|
      invariant !r.failed && Feed(parse, UNREAD, Flatten(chunks[..i])) == (r, buffered)
    {
      assert chunks[..i + 1] == chunks[..i] + [chunks[i]];
      FlattenAppend(chunks[..i], chunks[i]);
      FeedJoins(parse, UNREAD, Flatten(chunks[..i]), chunks[i]);
      buffered := buffered + chunks[i];
      var newline := LineEnd(buffered);
      while newline < |buffered|
        invariant newline == LineEnd(buffered)
        invariant !r.failed && Feed(parse, r, buffered) == Feed(parse, UNREAD, Flatten(chunks[..i + 1]))
        decreases |buffered|
      {
        var line := buffered[..newline];
        buffered := buffered[newline + 1..];
        r := Consume(parse, r, line);
        if r.failed {
          FailedForGood(parse, r, buffered, chunks, i + 1, failureMessage);
          return Outcome(HELPER_FAILURE_EXIT_CODE, true, r.stdout, r.stderr + failureMessage);
        }
        newline := LineEnd(buffered);
      }
    }
    assert chunks[..|chunks|] == chunks;
    if buffered != "" {
      r := Consume(parse, r, buffered);
    }
    SkipsEmpty(parse, r);
    outcome :=
      if r.failed || r.exitCode.None? then Outcome(HELPER_FAILURE_EXIT_CODE, true, r.stdout, r.stderr + failureMessage)
      else Outcome(r.exitCode.value, false, r.stdout, r.stderr);
  }

  lemma SkipsEmpty(parse: Parser, r: Reading)
    ensures Consume(parse, r, "") == r
  {
  }

  /** Once reading has failed, the pieces still to come change nothing. */
  lemma FailedForGood(parse: Parser, r: Reading, buffered: string, chunks: seq<string>, i: nat, failureMessage: string)
    requires i <= |chunks| && r.failed
    requires Feed(parse, r, buffered) == Feed(parse, UNREAD, Flatten(chunks[..i]))
    ensures Read(parse, Flatten(chunks), failureMessage)
            == Outcome(HELPER_FAILURE_EXIT_CODE, true, r.stdout, r.stderr + failureMessage)
  {
    var more := Flatten(chunks[i..]);
    FlattenJoins(chunks[..i], chunks[i..]);
    assert chunks[..i] + chunks[i..] == chunks;
    FailureStays(parse, r, buffered);
    var (m, rest) := Feed(parse, UNREAD, Flatten(chunks[..i]));
    FeedJoins(parse, UNREAD, Flatten(chunks[..i]), more);
    FailureStays(parse, r, rest + more);
  }

  // ---------------------------------------------------------------- what a body says

  /** The lines of a body that are not empty, the unfinished last one among them. */
  function Lines(text: string): seq<string>
    decreases |text|
  {
    var k := LineEnd(text);
    var line := if k == 0 then [] else [text[..k]];
    if k == |text| then line else line + Lines(text[k + 1..])
  }

  function ReadLines(parse: Parser, lines: seq<string>): Reading {
    if lines == [] then UNREAD else
    Consume(parse, ReadLines(parse, lines[..|lines| - 1]), lines[|lines| - 1])
  }

  lemma ReadLast(parse: Parser, lines: seq<string>, line: string)
    ensures ReadLines(parse, lines + [line]) == Consume(parse, ReadLines(parse, lines), line)
  {
    assert (lines + [line])[..|lines|] == lines;
  }

  lemma {:induction false} FeedIsReadLines(parse: Parser, before: seq<string>, text: string)
    ensures var (r, rest) := Feed(parse, ReadLines(parse, before), text);
            Consume(parse, r, rest) == ReadLines(parse, before + Lines(text))
    decreases |text|
  {
    hide Consume, ReadLines;
    var k := LineEnd(text);
    var line := if k == 0 then [] else [text[..k]];
    if k == 0 {
      SkipsEmpty(parse, ReadLines(parse, before));
      assert before + line == before && text[..k] == "";
    } else {
      ReadLast(parse, before, text[..k]);
    }
    if k == |text| {
      assert text[..k] == text;
    } else {
      FeedIsReadLines(parse, before + line, text[k + 1..]);
      assert before + line + Lines(text[k + 1..]) == before + (line + Lines(text[k + 1..]));
    }
  }

  predicate IsOutput(e: Option<Event>) {
    e.Some? && e.value.Output?
  }

  predicate IsExit(e: Option<Event>) {
    e.Some? && e.value.Exit? && 0 <= e.value.exitCode <= 255
  }

  /** Output events, and then one exit. */
  predicate Proper(parse: Parser, lines: seq<string>) {
    && lines != []
    && (forall i :: 0 <= i < |lines| - 1 ==> IsOutput(parse(lines[i])))
    && IsExit(parse(lines[|lines| - 1]))
  }

  predicate NonEmptyLines(lines: seq<string>) {
    forall i :: 0 <= i < |lines| ==> lines[i] != ""
  }

  lemma {:induction false} ReadLinesSays(parse: Parser, lines: seq<string>)
    requires NonEmptyLines(lines)
    ensures var r := ReadLines(parse, lines);
            && (!r.failed && r.exitCode.None? <==> forall i :: 0 <= i < |lines| ==> IsOutput(parse(lines[i])))
            && (!r.failed && r.exitCode.Some? <==> Proper(parse, lines))
            && (Proper(parse, lines) ==> r.exitCode.value == parse(lines[|lines| - 1]).value.exitCode)
  {
    if lines != [] {
      var n := |lines| - 1;
      ReadLinesSays(parse, lines[..n]);
      assert lines == lines[..n] + [lines[n]];
    }
  }

  /** The first `n` lines are output events, and the next one, if any, is not. */
  predicate Leads(parse: Parser, lines: seq<string>, n: nat) {
    && n <= |lines|
    && (forall i :: 0 <= i < n ==> parse(lines[i]).Some? && parse(lines[i]).value.Output?)
    && (n < |lines| ==> !IsOutput(parse(lines[n])))
  }

  function Parsed(parse: Parser, lines: seq<string>): seq<Event>
    requires forall i :: 0 <= i < |lines| ==> parse(lines[i]).Some? && parse(lines[i]).value.Output?
  {
    seq(|lines|, i requires 0 <= i < |lines| => parse(lines[i]).value)
  }

  lemma ParsedLast(parse: Parser, lines: seq<string>, n: nat, channel: Channel)
    requires n == |lines| - 1
    requires forall i :: 0 <= i < |lines| ==> parse(lines[i]).Some? && parse(lines[i]).value.Output?
    ensures
      var e := parse(lines[n]).value;
      Text(channel, Parsed(parse, lines))
      == Text(channel, Parsed(parse, lines[..n])) + if e.channel == channel then e.data else ""
  {
    assert Parsed(parse, lines) == Parsed(parse, lines[..n]) + [parse(lines[n]).value];
    TextLast(Parsed(parse, lines[..n]), parse(lines[n]).value, channel);
  }

  /** What is written is what the leading output events say. */
  lemma {:induction false} ReadLinesWrites(parse: Parser, lines: seq<string>, n: nat)
    requires NonEmptyLines(lines) && Leads(parse, lines, n)
    ensures
      var r, said := ReadLines(parse, lines), Parsed(parse, lines[..n]);
      r.stdout == Text(Stdout, said) && r.stderr == Text(Stderr, said)
  {
    hide Text;
    if lines == [] {
      NothingSaid(parse);
    } else {
      var k := |lines| - 1;
      var before := lines[..k];
      assert lines == before + [lines[k]];
      ReadLinesSays(parse, before);
      if n <= k {
        assert before[..n] == lines[..n];
        ReadLinesWrites(parse, before, n);
      } else {
        ReadLinesWrites(parse, before, k);
        assert before[..k] == before && lines[..n] == lines;
        ParsedLast(parse, lines, k, Stdout);
        ParsedLast(parse, lines, k, Stderr);
      }
    }
  }

  lemma NothingSaid(parse: Parser)
    ensures forall channel :: Text(channel, Parsed(parse, [][..0])) == ""
  {
  }

  lemma {:induction false} LinesAreNotEmpty(text: string)
    ensures NonEmptyLines(Lines(text))
    decreases |text|
  {
    var k := LineEnd(text);
    if k < |text| {
      LinesAreNotEmpty(text[k + 1..]);
    }
  }

  /**
   * For every body: reading succeeds exactly if its lines are output events followed by one exit
   * with a code from 0 to 255. No exit, an exit out of range, anything after the exit or anything
   * else that is not an event gives the failure code.
   */
  lemma SucceedsExactlyOnProperStreams(parse: Parser, text: string, failureMessage: string)
    ensures var o := Read(parse, text, failureMessage);
            var lines := Lines(text);
            && (!o.failed <==> Proper(parse, lines))
            && (o.failed ==> o.code == 125)
            && (!o.failed ==> o.code == parse(lines[|lines| - 1]).value.exitCode)
  {
    hide Lines, Consume, Feed, Proper;
    FeedIsReadLines(parse, [], text);
    assert [] + Lines(text) == Lines(text);
    LinesAreNotEmpty(text);
    ReadLinesSays(parse, Lines(text));
  }

  /**
   * For every body: what the shim writes is the data of the output events before the first line that is
   * anything else, each on its channel, and after a failure the message on the standard error.
   */
  lemma WritesLeadingOutput(parse: Parser, text: string, failureMessage: string, n: nat)
    requires Leads(parse, Lines(text), n)
    ensures
      var o, said := Read(parse, text, failureMessage), Parsed(parse, Lines(text)[..n]);
      && o.stdout == Text(Stdout, said)
      && o.stderr == Text(Stderr, said) + if o.failed then failureMessage else ""
  {
    hide Lines, Consume, Feed, Leads, Text;
    FeedIsReadLines(parse, [], text);
    assert [] + Lines(text) == Lines(text);
    LinesAreNotEmpty(text);
    ReadLinesWrites(parse, Lines(text), n);
  }
}

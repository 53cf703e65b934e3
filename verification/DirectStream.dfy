/**
 * The stream that a command is run over directly, which is the one the shim reads: events go out
 * unmerged, a failure is reported unless the request was aborted, and an aborted one ends without
 * an exit.
 */
module DirectStream {
  import opened Options
  import opened Texts
  import opened Redaction
  import opened RedactedOutput
  import opened JobEvents
  import opened Ndjson
  import opened NdjsonPrinting
  import X = JobExecution

  /**
   * `open` until the client goes away; `sent` is what it was sent; `ended` is set when the reaction of
   * the promise ran, with what it read of the abort signal.
   */
  datatype Direct = Direct(
    stdout: X.Feed,
    stderr: X.Feed,
    settled: Option<X.Settlement>,
    aborted: bool,
    open: bool,
    sent: seq<Event>,
    ended: Option<bool>)

  const SPAWNED := Direct(X.Feed(OPENED, [], ""), X.Feed(OPENED, [], ""), None, false, true, [], None)

  datatype Step =
    | Data(channel: Channel, chunk: string)
    | Settle(settlement: X.Settlement, stdoutTail: string, stderrTail: string)
    | Deliver
    | Abort
    | Disconnect

  function FeedOf(d: Direct, channel: Channel): X.Feed {
    match channel
    case Stdout => d.stdout
    case Stderr => d.stderr
  }

  function Send(d: Direct, events: seq<Event>): Direct {
    if d.open then d.(sent := d.sent + events) else d
  }

  function Advance(d: Direct, channel: Channel, feed: X.Feed): Direct {
    var events := Outputs(channel, X.Emitted(FeedOf(d, channel).stream, feed.stream));
    match channel
    case Stdout => Send(d.(stdout := feed), events)
    case Stderr => Send(d.(stderr := feed), events)
  }

  /** The exit that the reaction sends, if any: none after an abort. */
  function ExitSent(settlement: X.Settlement, aborted: bool): Option<Event> {
    match settlement
    case Resolved(code, truncated) => Some(Exit(code, truncated, false))
    case Rejected => if aborted then None else Some(Exit(1, false, false))
  }

  /** What it says before. */
  function Complaint(settlement: X.Settlement, aborted: bool): string {
    if settlement.Rejected? && !aborted then X.FailureMessage(false) else ""
  }

  function Report(d: Direct, settlement: X.Settlement): Direct {
    var exit := ExitSent(settlement, d.aborted);
    var complaint := Complaint(settlement, d.aborted);
    var told := if complaint == "" then d else Send(d, [Output(Stderr, complaint)]);
    (if exit.Some? then Send(told, [exit.value]) else told).(ended := Some(d.aborted))
  }

  function Act(u: X.Setup, d: Direct, s: Step): Direct
    requires NonEmpty(u.secrets)
  {
    match s
    case Data(channel, chunk) => Advance(d, channel, X.PushFeed(u, FeedOf(d, channel), chunk))
    case Settle(settlement, stdoutTail, stderrTail) =>
      if d.settled.Some? then d else
      var one := Advance(d, Stdout, X.FlushFeed(u, d.stdout, stdoutTail));
      var both := Advance(one, Stderr, X.FlushFeed(u, one.stderr, stderrTail));
      both.(settled := Some(settlement))
    case Deliver => if d.settled.None? || d.ended.Some? then d else Report(d, d.settled.value)
    case Abort => d.(aborted := true)
    case Disconnect => d.(aborted := true, open := false)
  }

  function ActAll(u: X.Setup, steps: seq<Step>): Direct
    requires NonEmpty(u.secrets)
  {
    if steps == [] then SPAWNED else Act(u, ActAll(u, steps[..|steps| - 1]), steps[|steps| - 1])
  }

  // ---------------------------------------------------------------- the invariant

  ghost predicate Ordered(d: Direct) {
    && (d.stdout.stream.flushed <==> d.settled.Some?)
    && (d.stderr.stream.flushed <==> d.settled.Some?)
    && (d.ended.Some? ==> d.settled.Some?)
  }

  /** The exit sent so far. */
  function Exited(d: Direct): Option<Event> {
    if d.ended.Some? && d.settled.Some? then ExitSent(d.settled.value, d.ended.value) else None
  }

  /** What has been said beyond the streams. */
  function Said(d: Direct): string {
    if d.ended.Some? && d.settled.Some? then Complaint(d.settled.value, d.ended.value) else ""
  }

  ghost predicate SentRight(d: Direct) {
    d.open ==>
      && Text(Stdout, d.sent) == Flatten(d.stdout.stream.sink.emitted)
      && Text(Stderr, d.sent) == Flatten(d.stderr.stream.sink.emitted) + Said(d)
      && if Exited(d).Some? then EndsOnce(d.sent) && d.sent[|d.sent| - 1] == Exited(d).value else NeverEnds(d.sent)
  }

  ghost predicate Inv(u: X.Setup, d: Direct)
    requires NonEmpty(u.secrets)
  {
    X.FedRight(u, d.stdout) && X.FedRight(u, d.stderr) && Ordered(d) && SentRight(d)
  }

  lemma AdvanceKeeps(d: Direct, channel: Channel, feed: X.Feed)
    requires SentRight(d) && d.ended.None?
    requires FeedOf(d, channel).stream.sink.emitted <= feed.stream.sink.emitted
    ensures SentRight(Advance(d, channel, feed))
  {
    hide Text, Flatten;
    var before, after := FeedOf(d, channel).stream.sink.emitted, feed.stream.sink.emitted;
    var pieces := X.Emitted(FeedOf(d, channel).stream, feed.stream);
    assert before + pieces == after;
    FlattenJoins(before, pieces);
    OutputsText(d.sent, channel, pieces, Stdout);
    OutputsText(d.sent, channel, pieces, Stderr);
    assert Text(Stdout, d.sent) + "" == Text(Stdout, d.sent) && Text(Stderr, d.sent) + "" == Text(Stderr, d.sent);
    assert Flatten(d.stderr.stream.sink.emitted) + "" == Flatten(d.stderr.stream.sink.emitted);
    assert Flatten(after) + "" == Flatten(after);
  }

  lemma AdvanceNothing(d: Direct, channel: Channel)
    ensures Advance(d, channel, FeedOf(d, channel)) == d
  {
    assert d.sent + Outputs(channel, []) == d.sent;
  }

  lemma ReportKeeps(d: Direct, settlement: X.Settlement)
    requires SentRight(d) && d.settled == Some(settlement) && d.ended.None?
    ensures SentRight(Report(d, settlement))
  {
    hide Text, Flatten;
    var exit := ExitSent(settlement, d.aborted);
    var complaint := Complaint(settlement, d.aborted);
    var told := if complaint == "" then d else Send(d, [Output(Stderr, complaint)]);
    TextLast(d.sent, Output(Stderr, complaint), Stdout);
    TextLast(d.sent, Output(Stderr, complaint), Stderr);
    if exit.Some? {
      TextLast(told.sent, exit.value, Stdout);
      TextLast(told.sent, exit.value, Stderr);
    }
    assert forall t: string :: t + "" == t;
  }

  lemma ActKeepsInv(u: X.Setup, d: Direct, s: Step)
    requires NonEmpty(u.secrets) && Inv(u, d)
    ensures Inv(u, Act(u, d, s))
  {
    hide X.FedRight, X.PushFeed, X.FlushFeed, X.Emitted, Text, Flatten, EndsOnce, NeverEnds;
    match s {
      case Data(channel, chunk) =>
        X.PushFeedsRight(u, FeedOf(d, channel), chunk);
        if d.settled.Some? {
          AdvanceNothing(d, channel);
        } else {
          AdvanceKeeps(d, channel, X.PushFeed(u, FeedOf(d, channel), chunk));
        }
      case Settle(settlement, stdoutTail, stderrTail) =>
        if d.settled.None? {
          X.FlushFeedsRight(u, d.stdout, stdoutTail);
          AdvanceKeeps(d, Stdout, X.FlushFeed(u, d.stdout, stdoutTail));
          var one := Advance(d, Stdout, X.FlushFeed(u, d.stdout, stdoutTail));
          X.FlushFeedsRight(u, one.stderr, stderrTail);
          AdvanceKeeps(one, Stderr, X.FlushFeed(u, one.stderr, stderrTail));
        }
      case Deliver =>
        if d.settled.Some? && d.ended.None? {
          ReportKeeps(d, d.settled.value);
        }
      case Abort =>
      case Disconnect =>
    }
  }

  lemma {:induction false} RunKeepsInv(u: X.Setup, steps: seq<Step>)
    requires NonEmpty(u.secrets)
    ensures Inv(u, ActAll(u, steps))
  {
    if steps == [] {
      assert X.FedRight(u, X.Feed(OPENED, [], ""));
    } else {
      RunKeepsInv(u, steps[..|steps| - 1]);
      ActKeepsInv(u, ActAll(u, steps[..|steps| - 1]), steps[|steps| - 1]);
    }
  }

  // ---------------------------------------------------------------- end to end

  /**
   * For every execution whose client stays: however late data arrived and however the stream was cut,
   * the shim ends with the redacted text of each output stream and the command's own exit code; after
   * a failure with its message and 1; and after a failure that was aborted with the failure code.
   */
  lemma ShimHearsTheCommand(
    parse: Parser, u: X.Setup, steps: seq<Step>, chunks: seq<string>, failureMessage: string)
    requires Inverts(parse) && NonEmpty(u.secrets)
    requires
      var d := ActAll(u, steps);
      && d.open
      && d.ended.Some?
      && d.settled.Some?
      && (d.settled.value.Resolved? ==> 0 <= d.settled.value.exitCode <= 255)
      && Flatten(chunks) == PrintAll(d.sent)
    ensures
      var d := ActAll(u, steps);
      Read(parse, Flatten(chunks), failureMessage)
      == match d.settled.value
         case Resolved(code, _) => Outcome(code, false, X.Heard(u, d.stdout), X.Heard(u, d.stderr))
         case Rejected =>
           if d.ended.value then Outcome(125, true, X.Heard(u, d.stdout), X.Heard(u, d.stderr) + failureMessage)
           else Outcome(1, false, X.Heard(u, d.stdout), X.Heard(u, d.stderr) + "CLI execution failed\n")
  {
    hide ActAll, X.FedRight, Received, Text, PrintAll, Inverts, Feed;
    var d := ActAll(u, steps);
    RunKeepsInv(u, steps);
    X.FlushedReceives(u, d.stdout);
    X.FlushedReceives(u, d.stderr);
    assert X.Heard(u, d.stderr) + "" == X.Heard(u, d.stderr);
    if Exited(d).Some? {
      RoundTrip(parse, d.sent, chunks, failureMessage);
    } else {
      OutputsRead(parse, d.sent);
    }
  }

  /** The abort flag that counts is the one at the reaction; it can be set at any time before. */
  lemma AbortIsRemembered(u: X.Setup, d: Direct)
    requires NonEmpty(u.secrets)
    ensures Act(u, d, Abort) == d.(aborted := true)
    ensures Act(u, d, Disconnect) == d.(aborted := true, open := false)
    ensures d.settled.Some? && d.ended.None? ==> Act(u, d, Deliver).ended == Some(d.aborted)
    ensures d.settled.Some? && d.ended.None? && d.open ==>
              Act(u, d, Deliver).sent == d.sent + match d.settled.value
                                                  case Resolved(code, truncated) => [Exit(code, truncated, false)]
                                                  case Rejected =>
                                                    if d.aborted then []
                                                    else [Output(Stderr, "CLI execution failed\n"),
                                                          Exit(1, false, false)]
  {
    if d.settled.Some? && d.settled.value.Rejected? && d.aborted {
      assert d.sent + [] == d.sent;
    }
  }
}

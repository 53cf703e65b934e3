/**
 * A command as it runs: its two output streams, the one settlement of its promise, and the job that
 * reports it. Data may arrive at any time, also late; settling flushes both streams first, and what
 * is pushed into a flushed stream is dropped.
 */
module JobExecution {
  import opened Options
  import opened Texts
  import opened Redaction
  import opened RedactedOutput
  import opened JobEvents

  datatype Setup = Setup(limit: Option<nat>, secrets: seq<string>)

  datatype Settlement = Resolved(exitCode: int, truncated: bool) | Rejected

  /** One output stream, and what went into it: the chunks until it was flushed, and the flush's own text. */
  datatype Feed = Feed(stream: Stream, chunks: seq<string>, tail: string)

  /**
   * `delivered` is set when the promise's reaction ran, with what it read of the abort signal; `said` is
   * all that was emitted.
   */
  datatype Execution = Execution(
    stdout: Feed,
    stderr: Feed,
    settled: Option<Settlement>,
    delivered: Option<bool>,
    job: Job,
    said: seq<Event>)

  const SPAWNED := Execution(Feed(OPENED, [], ""), Feed(OPENED, [], ""), None, None, BEGUN, [])

  /** `aborted` is what the reaction reads of the abort signal. */
  datatype Step =
    | Data(channel: Channel, chunk: string)
    | Settle(settlement: Settlement, stdoutTail: string, stderrTail: string)
    | Deliver(aborted: bool)
    | Join(who: Subscriber)
    | Leave(who: Subscriber)

  function FeedOf(e: Execution, channel: Channel): Feed {
    match channel
    case Stdout => e.stdout
    case Stderr => e.stderr
  }

  /** What a stream emitted on the way from `before` to `after`. */
  function Emitted(before: Stream, after: Stream): seq<string> {
    if |before.sink.emitted| <= |after.sink.emitted| then after.sink.emitted[|before.sink.emitted|..] else []
  }

  function Say(e: Execution, channel: Channel, pieces: seq<string>): Execution {
    e.(job := EmitPieces(e.job, channel, pieces), said := e.said + Outputs(channel, pieces))
  }

  /** The feed of `channel` moves on, and the job reports what it emits. */
  function Advance(e: Execution, channel: Channel, feed: Feed): Execution {
    var pieces := Emitted(FeedOf(e, channel).stream, feed.stream);
    match channel
    case Stdout => Say(e.(stdout := feed), channel, pieces)
    case Stderr => Say(e.(stderr := feed), channel, pieces)
  }

  function PushFeed(u: Setup, f: Feed, chunk: string): Feed
    requires NonEmpty(u.secrets)
  {
    f.(stream := Pushed(u.limit, u.secrets, f.stream, chunk),
       chunks := if f.stream.flushed then f.chunks else f.chunks + [chunk])
  }

  function FlushFeed(u: Setup, f: Feed, tail: string): Feed
    requires NonEmpty(u.secrets)
  {
    f.(stream := Flushed(u.limit, u.secrets, f.stream, tail), tail := if f.stream.flushed then f.tail else tail)
  }

  function FailureMessage(cancelled: bool): string {
    if cancelled then "CLI execution cancelled\n" else "CLI execution failed\n"
  }

  function ExitOf(settlement: Settlement, aborted: bool): Event {
    match settlement
    case Resolved(code, truncated) => Exit(code, truncated, false)
    case Rejected => Exit(if aborted then 130 else 1, false, aborted)
  }

  /** The reaction: a rejection is first said on standard error, then the end is reported. */
  function Report(e: Execution, settlement: Settlement, aborted: bool): Execution {
    var told := if settlement.Rejected? then Say(e, Stderr, [FailureMessage(aborted)]) else e;
    var exit := ExitOf(settlement, aborted);
    told.(delivered := Some(aborted),
          said := if told.job.running then told.said + [exit] else told.said,
          job := Finished(told.job, exit))
  }

  function Act(u: Setup, e: Execution, s: Step): Execution
    requires NonEmpty(u.secrets)
  {
    match s
    case Data(channel, chunk) => Advance(e, channel, PushFeed(u, FeedOf(e, channel), chunk))
    case Settle(settlement, stdoutTail, stderrTail) =>
      if e.settled.Some? then e else
      var one := Advance(e, Stdout, FlushFeed(u, e.stdout, stdoutTail));
      var both := Advance(one, Stderr, FlushFeed(u, one.stderr, stderrTail));
      both.(settled := Some(settlement))
    case Deliver(aborted) =>
      if e.settled.None? || e.delivered.Some? then e else Report(e, e.settled.value, aborted)
    case Join(who) => if who in e.job.sent then e else e.(job := Joined(e.job, who))
    case Leave(who) => e.(job := Left(e.job, who))
  }

  function ActAll(u: Setup, e: Execution, steps: seq<Step>): Execution
    requires NonEmpty(u.secrets)
  {
    if steps == [] then e else Act(u, ActAll(u, e, steps[..|steps| - 1]), steps[|steps| - 1])
  }

  // ---------------------------------------------------------------- the streams

  /** A feed is where its chunks have brought it. */
  ghost predicate FedRight(u: Setup, f: Feed)
    requires NonEmpty(u.secrets)
  {
    var open := PushedAll(u.limit, u.secrets, OPENED, f.chunks);
    !open.flushed && f.stream == if f.stream.flushed then Flushed(u.limit, u.secrets, open, f.tail) else open
  }

  lemma {:induction false} EmitAllGrows(limit: Option<nat>, sink: Sink, pieces: seq<string>)
    ensures sink.emitted <= EmitAll(limit, sink, pieces).emitted
    decreases |pieces|
  {
    if pieces != [] {
      EmitAllGrows(limit, RedactedOutput.Emit(limit, sink, pieces[0]), pieces[1..]);
    }
  }

  lemma PushFeedsRight(u: Setup, f: Feed, chunk: string)
    requires NonEmpty(u.secrets) && FedRight(u, f)
    ensures
      var g := PushFeed(u, f, chunk);
      && FedRight(u, g)
      && g.stream.flushed == f.stream.flushed
      && f.stream.sink.emitted <= g.stream.sink.emitted
      && (f.stream.flushed ==> g == f)
  {
    hide Drained, EmitAll;
    if !f.stream.flushed {
      PushedLast(u.limit, u.secrets, OPENED, f.chunks, chunk);
      EmitAllGrows(u.limit, f.stream.sink, Drained(f.stream.pending + chunk, u.secrets, false).pieces);
    }
  }

  lemma FlushFeedsRight(u: Setup, f: Feed, tail: string)
    requires NonEmpty(u.secrets) && FedRight(u, f) && !f.stream.flushed
    ensures
      var g := FlushFeed(u, f, tail);
      && FedRight(u, g)
      && g.stream.flushed
      && f.stream.sink.emitted <= g.stream.sink.emitted
  {
    hide Drained, EmitAll;
    EmitAllGrows(u.limit, f.stream.sink, Drained(f.stream.pending + tail, u.secrets, true).pieces);
  }

  /** A flushed feed has given its sink the redacted text of everything fed to it. */
  lemma FlushedReceives(u: Setup, f: Feed)
    requires NonEmpty(u.secrets) && FedRight(u, f) && f.stream.flushed
    ensures Flatten(f.stream.sink.emitted) == Received(u.limit, f.chunks, f.tail, u.secrets)
  {
    hide StreamPieces, EmitAll, Pushed, Flushed;
    StreamReceives(u.limit, u.secrets, OPENED, f.chunks, f.tail);
  }

  // ---------------------------------------------------------------- the invariant

  /** The streams are flushed exactly once the execution is settled; the job ends after that. */
  ghost predicate Ordered(e: Execution) {
    && (e.stdout.stream.flushed <==> e.settled.Some?)
    && (e.stderr.stream.flushed <==> e.settled.Some?)
    && (e.delivered.Some? ==> e.settled.Some?)
    && (e.job.running <==> e.delivered.None?)
  }

  /** What the job said on each channel is what the streams emitted, and the message of a failure. */
  ghost predicate SaidRight(e: Execution) {
    && Text(Stdout, e.said) == Flatten(e.stdout.stream.sink.emitted)
    && Text(Stderr, e.said) == Flatten(e.stderr.stream.sink.emitted) + Complaint(e)
  }

  function Complaint(e: Execution): string {
    if e.settled == Some(Rejected) && e.delivered.Some? then FailureMessage(e.delivered.value) else ""
  }

  ghost predicate LoggedRight(e: Execution) {
    && WellLogged(e.job)
    && e.job.events == Coalesce(e.said)
    && (e.delivered.Some? ==>
          && e.settled.Some?
          && e.said != []
          && e.said[|e.said| - 1] == ExitOf(e.settled.value, e.delivered.value))
  }

  ghost predicate Inv(u: Setup, e: Execution)
    requires NonEmpty(u.secrets)
  {
    FedRight(u, e.stdout) && FedRight(u, e.stderr) && Ordered(e) && SaidRight(e) && LoggedRight(e)
  }

  lemma SayKeepsLog(e: Execution, channel: Channel, pieces: seq<string>)
    requires LoggedRight(e) && e.job.running && e.delivered.None?
    ensures LoggedRight(Say(e, channel, pieces)) && Say(e, channel, pieces).job.running
  {
    hide Coalesce, WellLogged;
    PiecesLogWell(e.job, channel, pieces, e.said);
  }

  /** Moving a feed on while the job runs. */
  lemma AdvanceKeeps(e: Execution, channel: Channel, feed: Feed)
    requires LoggedRight(e) && SaidRight(e) && e.job.running && e.delivered.None?
    requires FeedOf(e, channel).stream.sink.emitted <= feed.stream.sink.emitted
    ensures LoggedRight(Advance(e, channel, feed)) && SaidRight(Advance(e, channel, feed))
    ensures Advance(e, channel, feed).job.running
  {
    hide Coalesce, WellLogged, LoggedRight, Text, Flatten, EmitPieces;
    var before, after := FeedOf(e, channel).stream.sink.emitted, feed.stream.sink.emitted;
    var pieces := Emitted(FeedOf(e, channel).stream, feed.stream);
    assert before + pieces == after;
    FlattenJoins(before, pieces);
    OutputsText(e.said, channel, pieces, Stdout);
    OutputsText(e.said, channel, pieces, Stderr);
    assert Text(Stdout, e.said) + "" == Text(Stdout, e.said) && Text(Stderr, e.said) + "" == Text(Stderr, e.said);
    var moved := if channel.Stdout? then e.(stdout := feed) else e.(stderr := feed);
    SameLog(e, moved);
    SayKeepsLog(moved, channel, pieces);
    assert Flatten(e.stderr.stream.sink.emitted) + "" == Flatten(e.stderr.stream.sink.emitted);
    assert Flatten(after) + "" == Flatten(after);
  }

  lemma SameLog(e: Execution, n: Execution)
    requires LoggedRight(e) && n.job == e.job && n.said == e.said
    requires n.delivered == e.delivered && n.settled == e.settled
    ensures LoggedRight(n)
  {
  }

  /** A feed that does not move says nothing. */
  lemma AdvanceNothing(e: Execution, channel: Channel)
    ensures Advance(e, channel, FeedOf(e, channel)) == e
  {
    assert e.said + Outputs(channel, []) == e.said;
  }

  lemma DataKeepsInv(u: Setup, e: Execution, channel: Channel, chunk: string)
    requires NonEmpty(u.secrets) && Inv(u, e)
    ensures Inv(u, Act(u, e, Data(channel, chunk)))
    ensures e.settled.Some? ==> Act(u, e, Data(channel, chunk)) == e
  {
    hide FedRight, SaidRight, LoggedRight, PushFeed, Emitted, EmitPieces;
    var feed := FeedOf(e, channel);
    PushFeedsRight(u, feed, chunk);
    if e.settled.Some? {
      AdvanceNothing(e, channel);
    } else {
      AdvanceKeeps(e, channel, PushFeed(u, feed, chunk));
    }
  }

  lemma SettleKeepsInv(u: Setup, e: Execution, settlement: Settlement, stdoutTail: string, stderrTail: string)
    requires NonEmpty(u.secrets) && Inv(u, e)
    ensures Inv(u, Act(u, e, Settle(settlement, stdoutTail, stderrTail)))
  {
    hide FedRight, LoggedRight, SaidRight, FlushFeed, Emitted, EmitPieces;
    if e.settled.None? {
      FlushFeedsRight(u, e.stdout, stdoutTail);
      AdvanceKeeps(e, Stdout, FlushFeed(u, e.stdout, stdoutTail));
      var one := Advance(e, Stdout, FlushFeed(u, e.stdout, stdoutTail));
      FlushFeedsRight(u, one.stderr, stderrTail);
      AdvanceKeeps(one, Stderr, FlushFeed(u, one.stderr, stderrTail));
      var both := Advance(one, Stderr, FlushFeed(u, one.stderr, stderrTail));
      Settling(both, settlement);
    }
  }

  lemma Settling(e: Execution, settlement: Settlement)
    requires LoggedRight(e) && SaidRight(e) && e.delivered.None?
    ensures LoggedRight(e.(settled := Some(settlement))) && SaidRight(e.(settled := Some(settlement)))
  {
  }

  lemma ReportKeepsLog(e: Execution, settlement: Settlement, aborted: bool)
    requires LoggedRight(e) && e.job.running && e.delivered.None? && e.settled == Some(settlement)
    ensures LoggedRight(Report(e, settlement, aborted)) && !Report(e, settlement, aborted).job.running
  {
    hide Coalesce, WellLogged;
    var told := if settlement.Rejected? then Say(e, Stderr, [FailureMessage(aborted)]) else e;
    var exit := ExitOf(settlement, aborted);
    if settlement.Rejected? {
      SayKeepsLog(e, Stderr, [FailureMessage(aborted)]);
    }
    FinishLogsWell(told.job, exit);
    CoalesceStep(told.said, exit);
  }

  lemma ReportSaysRight(e: Execution, settlement: Settlement, aborted: bool)
    requires SaidRight(e) && e.job.running && e.settled == Some(settlement) && e.delivered.None?
    ensures SaidRight(Report(e, settlement, aborted))
  {
    hide Text, Flatten, EmitPieces;
    var message := FailureMessage(aborted);
    var told := if settlement.Rejected? then Say(e, Stderr, [message]) else e;
    OutputsText(e.said, Stderr, [message], Stdout);
    OutputsText(e.said, Stderr, [message], Stderr);
    FlattenTwo(message, "", []);
    PiecesKeepRunning(e.job, Stderr, [message]);
    TextLast(told.said, ExitOf(settlement, aborted), Stdout);
    TextLast(told.said, ExitOf(settlement, aborted), Stderr);
    assert Text(Stdout, e.said) + "" == Text(Stdout, e.said);
    assert Text(Stdout, told.said) + "" == Text(Stdout, told.said);
    assert Text(Stderr, told.said) + "" == Text(Stderr, told.said);
    assert Flatten(e.stderr.stream.sink.emitted) + "" == Flatten(e.stderr.stream.sink.emitted);
  }

  lemma {:induction false} PiecesKeepRunning(j: Job, channel: Channel, pieces: seq<string>)
    ensures EmitPieces(j, channel, pieces).running == j.running
    decreases |pieces|
  {
    if pieces != [] {
      PiecesKeepRunning(JobEvents.Emit(j, Output(channel, pieces[0])), channel, pieces[1..]);
    }
  }

  lemma ActKeepsInv(u: Setup, e: Execution, s: Step)
    requires NonEmpty(u.secrets) && Inv(u, e)
    ensures Inv(u, Act(u, e, s))
  {
    hide FedRight, LoggedRight, SaidRight;
    match s {
      case Data(channel, chunk) => DataKeepsInv(u, e, channel, chunk);
      case Settle(settlement, stdoutTail, stderrTail) => SettleKeepsInv(u, e, settlement, stdoutTail, stderrTail);
      case Deliver(aborted) =>
        if e.settled.Some? && e.delivered.None? {
          ReportKeepsLog(e, e.settled.value, aborted);
          ReportSaysRight(e, e.settled.value, aborted);
        }
      case Join(who) => ListenersAside(e, Act(u, e, s));
      case Leave(who) => ListenersAside(e, Act(u, e, s));
    }
  }

  lemma ListenersAside(e: Execution, n: Execution)
    requires LoggedRight(e) && SaidRight(e)
    requires n == e.(job := e.job.(listeners := n.job.listeners, sent := n.job.sent))
    ensures LoggedRight(n) && SaidRight(n)
  {
  }

  lemma {:induction false} RunKeepsInv(u: Setup, steps: seq<Step>)
    requires NonEmpty(u.secrets)
    ensures Inv(u, ActAll(u, SPAWNED, steps))
  {
    if steps == [] {
      assert FedRight(u, Feed(OPENED, [], ""));
    } else {
      RunKeepsInv(u, steps[..|steps| - 1]);
      ActKeepsInv(u, ActAll(u, SPAWNED, steps[..|steps| - 1]), steps[|steps| - 1]);
    }
  }

  // ---------------------------------------------------------------- nothing follows the settlement

  /**
   * Once an execution has settled, whatever data still arrives and however often it is settled
   * again, nothing more is said but the report of its end; and after that nothing at all.
   */
  lemma {:induction false} NothingFollowsSettlement(u: Setup, steps: seq<Step>, more: seq<Step>)
    requires NonEmpty(u.secrets) && ActAll(u, SPAWNED, steps).settled.Some?
    requires ActAll(u, SPAWNED, steps).delivered.Some? || forall i :: 0 <= i < |more| ==> !more[i].Deliver?
    ensures
      var e, n := ActAll(u, SPAWNED, steps), ActAll(u, ActAll(u, SPAWNED, steps), more);
      && n.said == e.said
      && n.job.events == e.job.events
      && n.settled == e.settled
      && n.delivered == e.delivered
      && Inv(u, n)
  {
    hide FedRight, LoggedRight, SaidRight;
    var e := ActAll(u, SPAWNED, steps);
    RunKeepsInv(u, steps);
    if more != [] {
      var before, last := more[..|more| - 1], more[|more| - 1];
      NothingFollowsSettlement(u, steps, before);
      var m := ActAll(u, e, before);
      ActKeepsInv(u, m, last);
      if last.Data? {
        DataKeepsInv(u, m, last.channel, last.chunk);
      }
    }
  }

  // ---------------------------------------------------------------- subscribers

  lemma ActServes(u: Setup, e: Execution, s: Step, who: Subscriber)
    requires NonEmpty(u.secrets) && Inv(u, e) && Served(e.job, who) && s != Leave(who)
    ensures Served(Act(u, e, s).job, who)
  {
    hide FedRight, SaidRight, Served, EmitPieces, Emitted, PushFeed, FlushFeed;
    match s {
      case Data(channel, chunk) =>
        if e.settled.Some? {
          DataKeepsInv(u, e, channel, chunk);
        } else {
          PiecesServe(e.job, channel,
                      Emitted(FeedOf(e, channel).stream, PushFeed(u, FeedOf(e, channel), chunk).stream), who);
        }
      case Settle(settlement, stdoutTail, stderrTail) =>
        if e.settled.None? {
          var pieces := Emitted(e.stdout.stream, FlushFeed(u, e.stdout, stdoutTail).stream);
          PiecesServe(e.job, Stdout, pieces, who);
          PiecesKeepRunning(e.job, Stdout, pieces);
          PiecesServe(EmitPieces(e.job, Stdout, pieces), Stderr,
                      Emitted(e.stderr.stream, FlushFeed(u, e.stderr, stderrTail).stream), who);
        }
      case Deliver(aborted) =>
        if e.settled.Some? && e.delivered.None? {
          PiecesServe(e.job, Stderr, [FailureMessage(aborted)], who);
          FinishServes(e.job, ExitOf(e.settled.value, aborted), who);
          FinishServes(EmitPieces(e.job, Stderr, [FailureMessage(aborted)]), ExitOf(e.settled.value, aborted), who);
        }
      case Join(other) => JoinServes(e.job, who, other);
      case Leave(other) => LeaveServes(e.job, who, other);
    }
  }

  lemma LeaveServes(j: Job, who: Subscriber, other: Subscriber)
    requires Served(j, who) && other != who
    ensures Served(Left(j, other), who)
  {
  }

  lemma {:induction false} RunServes(u: Setup, steps: seq<Step>, who: Subscriber)
    requires NonEmpty(u.secrets) && Leave(who) !in steps
    ensures Served(ActAll(u, SPAWNED, steps).job, who)
  {
    hide Act, Inv;
    if steps != [] {
      var n := |steps| - 1;
      RunServes(u, steps[..n], who);
      RunKeepsInv(u, steps[..n]);
      ActServes(u, ActAll(u, SPAWNED, steps[..n]), steps[n], who);
    }
  }

  /**
   * In every execution, with data arriving at any time: whenever it joined, a subscriber that does
   * not leave has been sent exactly what the job said, and once the end is reported exactly one
   * exit, last.
   */
  lemma SubscribersMissNothing(u: Setup, steps: seq<Step>, who: Subscriber)
    requires NonEmpty(u.secrets) && Leave(who) !in steps && who in ActAll(u, SPAWNED, steps).job.sent
    ensures
      var e := ActAll(u, SPAWNED, steps);
      && Coalesce(e.job.sent[who]) == e.job.events == Coalesce(e.said)
      && Symbols(e.job.sent[who]) == Symbols(e.said)
      && (e.delivered.Some? ==> EndsOnce(e.job.sent[who]) && EndsOnce(e.job.events))
  {
    hide ActAll, FedRight, SaidRight;
    var e := ActAll(u, SPAWNED, steps);
    RunKeepsInv(u, steps);
    RunServes(u, steps, who);
    CoalesceSaysTheSame(e.job.sent[who]);
    CoalesceSaysTheSame(e.said);
  }

  /** The text fed to a stream, redacted and bounded. */
  function Heard(u: Setup, f: Feed): string
    requires NonEmpty(u.secrets)
  {
    Received(u.limit, f.chunks, f.tail, u.secrets)
  }

  /**
   * Once settled, what the job said on each channel is the redacted text of what was fed to it; and
   * after a failure was reported, its message on standard error.
   */
  lemma JobSaysRedactedOutput(u: Setup, steps: seq<Step>)
    requires NonEmpty(u.secrets) && ActAll(u, SPAWNED, steps).settled.Some?
    ensures
      var e := ActAll(u, SPAWNED, steps);
      && Text(Stdout, e.said) == Heard(u, e.stdout)
      && Text(Stderr, e.said) == Heard(u, e.stderr) + Complaint(e)
  {
    hide ActAll, FedRight, LoggedRight, Received, Text, Flatten;
    var e := ActAll(u, SPAWNED, steps);
    RunKeepsInv(u, steps);
    FlushedReceives(u, e.stdout);
    FlushedReceives(u, e.stderr);
  }

  // ---------------------------------------------------------------- one step, told by its inputs

  /** Settling flushes standard output first, then standard error, once. */
  lemma SettlingFlushesInOrder(u: Setup, e: Execution, settlement: Settlement, stdoutTail: string, stderrTail: string)
    requires NonEmpty(u.secrets) && e.settled.None?
    ensures
      var n := Act(u, e, Settle(settlement, stdoutTail, stderrTail));
      && n.settled == Some(settlement)
      && n.stdout == FlushFeed(u, e.stdout, stdoutTail)
      && n.stderr == FlushFeed(u, e.stderr, stderrTail)
      && n.said == e.said + Outputs(Stdout, Emitted(e.stdout.stream, n.stdout.stream))
                   + Outputs(Stderr, Emitted(e.stderr.stream, n.stderr.stream))
  {
    hide EmitPieces, FlushFeed, Emitted;
  }

  /** Data is said on the channel it came on. */
  lemma DataIsSaid(u: Setup, e: Execution, channel: Channel, chunk: string)
    requires NonEmpty(u.secrets)
    ensures
      var n := Act(u, e, Data(channel, chunk));
      && FeedOf(n, channel) == PushFeed(u, FeedOf(e, channel), chunk)
      && n.said == e.said + Outputs(channel, Emitted(FeedOf(e, channel).stream, FeedOf(n, channel).stream))
      && (channel == Stdout ==> n.stderr == e.stderr) && (channel == Stderr ==> n.stdout == e.stdout)
      && n.settled == e.settled && n.delivered == e.delivered
  {
    hide EmitPieces, PushFeed, Emitted;
  }

  /** The report: a resolved command's own code and flag; after a failure a message and 130 or 1. */
  lemma ReportIs(u: Setup, e: Execution, aborted: bool)
    requires NonEmpty(u.secrets) && e.settled.Some? && e.delivered.None? && e.job.running
    ensures
      var n := Act(u, e, Deliver(aborted));
      && n.delivered == Some(aborted)
      && n.said == e.said + match e.settled.value
                            case Resolved(code, truncated) => [Exit(code, truncated, false)]
                            case Rejected =>
                              if aborted then [Output(Stderr, "CLI execution cancelled\n"), Exit(130, false, true)]
                              else [Output(Stderr, "CLI execution failed\n"), Exit(1, false, false)]
  {
    hide EmitPieces;
    if e.settled.value.Rejected? {
      PiecesKeepRunning(e.job, Stderr, [FailureMessage(aborted)]);
      assert Outputs(Stderr, [FailureMessage(aborted)]) == [Output(Stderr, FailureMessage(aborted))];
    }
  }

  /** Over every run: whoever leaves is sent nothing more. */
  lemma {:induction false} LeaversHearNothing(u: Setup, steps: seq<Step>, who: Subscriber, more: seq<Step>)
    requires NonEmpty(u.secrets) && who in ActAll(u, SPAWNED, steps).job.sent
    ensures
      var e, n := ActAll(u, SPAWNED, steps), ActAll(u, SPAWNED, steps + [Leave(who)] + more);
      who in n.job.sent && n.job.sent[who] == e.job.sent[who] && who !in n.job.listeners
    decreases |more|
  {
    hide Inv, Act;
    var left := steps + [Leave(who)];
    if more == [] {
      assert left + more == left && left[..|steps|] == steps;
      LeaveLeaves(u, ActAll(u, SPAWNED, steps), who);
    } else {
      var k := |more| - 1;
      LeaversHearNothing(u, steps, who, more[..k]);
      assert (left + more)[..|left| + k] == left + more[..k];
      RunKeepsInv(u, left + more[..k]);
      LeavingEndsDelivery(u, ActAll(u, SPAWNED, left + more[..k]), more[k], who);
    }
  }

  lemma LeaveLeaves(u: Setup, e: Execution, who: Subscriber)
    requires NonEmpty(u.secrets)
    ensures
      var n := Act(u, e, Leave(who));
      n.job.sent == e.job.sent && who !in n.job.listeners
  {
  }

  lemma LeavingEndsDelivery(u: Setup, e: Execution, s: Step, who: Subscriber)
    requires NonEmpty(u.secrets) && who in e.job.sent && who !in e.job.listeners && Inv(u, e)
    ensures
      var n := Act(u, e, s);
      who in n.job.sent && n.job.sent[who] == e.job.sent[who] && who !in n.job.listeners
  {
    hide FedRight, SaidRight, LoggedRight, PushFeed, FlushFeed, Emitted, FailureMessage;
    match s {
      case Data(channel, chunk) =>
        PiecesPassBy(e.job, channel,
                     Emitted(FeedOf(e, channel).stream, PushFeed(u, FeedOf(e, channel), chunk).stream), who);
      case Settle(settlement, stdoutTail, stderrTail) =>
        var pieces := Emitted(e.stdout.stream, FlushFeed(u, e.stdout, stdoutTail).stream);
        PiecesPassBy(e.job, Stdout, pieces, who);
        PiecesPassBy(EmitPieces(e.job, Stdout, pieces), Stderr,
                     Emitted(e.stderr.stream, FlushFeed(u, e.stderr, stderrTail).stream), who);
      case Deliver(aborted) => PiecesPassBy(e.job, Stderr, [FailureMessage(aborted)], who);
      case Join(_) =>
      case Leave(_) =>
    }
  }

  lemma {:induction false} PiecesPassBy(j: Job, channel: Channel, pieces: seq<string>, who: Subscriber)
    requires who in j.sent && who !in j.listeners
    ensures
      var n := EmitPieces(j, channel, pieces);
      who in n.sent && n.sent[who] == j.sent[who] && n.listeners == j.listeners
    decreases |pieces|
  {
    if pieces != [] {
      PiecesPassBy(JobEvents.Emit(j, Output(channel, pieces[0])), channel, pieces[1..], who);
    }
  }
}

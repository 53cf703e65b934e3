/**
 * A job's event log and its subscribers. The log merges neighbouring output in place; a subscriber
 * is sent the log as it stands and then every later event as it comes.
 */
module JobEvents {
  import opened Texts

  datatype Channel = Stdout | Stderr

  datatype Event =
    | Output(channel: Channel, data: string)
    | Exit(exitCode: int, truncated: bool, cancelled: bool)

  type Subscriber = nat

  // ---------------------------------------------------------------- merging

  predicate Mergeable(a: Event, b: Event) {
    a.Output? && b.Output? && a.channel == b.channel
  }

  /** The log with one more event. */
  function Append(log: seq<Event>, e: Event): seq<Event> {
    var n := |log| - 1;
    if log != [] && Mergeable(log[n], e) then log[n := Output(e.channel, log[n].data + e.data)] else log + [e]
  }

  function Coalesce(events: seq<Event>): seq<Event> {
    if events == [] then [] else
    var n := |events| - 1;
    Append(Coalesce(events[..n]), events[n])
  }

  predicate Merged(events: seq<Event>) {
    forall i :: 0 < i < |events| ==> !Mergeable(events[i - 1], events[i])
  }

  /** One symbol of what a job says: a character on a channel, or its end. */
  datatype Symbol = Char(channel: Channel, c: char) | End(exit: Event)

  function SymbolsOf(e: Event): seq<Symbol> {
    if e.Exit? then [End(e)] else seq(|e.data|, i requires 0 <= i < |e.data| => Char(e.channel, e.data[i]))
  }

  function Symbols(events: seq<Event>): seq<Symbol> {
    if events == [] then [] else
    var n := |events| - 1;
    Symbols(events[..n]) + SymbolsOf(events[n])
  }

  lemma AppendMerges(log: seq<Event>, e: Event)
    requires Merged(log)
    ensures Merged(Append(log, e))
  {
  }

  lemma SymbolsLast(events: seq<Event>, e: Event)
    ensures Symbols(events + [e]) == Symbols(events) + SymbolsOf(e)
  {
    assert (events + [e])[..|events|] == events;
  }

  lemma AppendSays(log: seq<Event>, e: Event)
    ensures Symbols(Append(log, e)) == Symbols(log) + SymbolsOf(e)
  {
    hide Symbols, SymbolsOf;
    var n := |log| - 1;
    if log != [] && Mergeable(log[n], e) {
      var joined := Output(e.channel, log[n].data + e.data);
      assert Append(log, e) == log[..n] + [joined] && log == log[..n] + [log[n]];
      SymbolsLast(log[..n], joined);
      SymbolsLast(log[..n], log[n]);
      SymbolsJoin(log[n], e);
      Regroup(Symbols(log[..n]), SymbolsOf(log[n]), SymbolsOf(e));
    } else {
      SymbolsLast(log, e);
    }
  }

  lemma SymbolsJoin(a: Event, b: Event)
    requires Mergeable(a, b)
    ensures SymbolsOf(Output(b.channel, a.data + b.data)) == SymbolsOf(a) + SymbolsOf(b)
  {
  }

  /** Merging says the same, symbol for symbol, with no two neighbours left to merge. */
  lemma {:induction false} CoalesceSaysTheSame(events: seq<Event>)
    ensures Symbols(Coalesce(events)) == Symbols(events)
    ensures Merged(Coalesce(events))
  {
    if events != [] {
      var n := |events| - 1;
      CoalesceSaysTheSame(events[..n]);
      AppendMerges(Coalesce(events[..n]), events[n]);
      AppendSays(Coalesce(events[..n]), events[n]);
    }
  }

  /** So no two neighbours of a merged log are output on one channel. */
  lemma NeighboursDiffer(events: seq<Event>, i: nat)
    requires 0 < i < |Coalesce(events)|
    ensures
      match (Coalesce(events)[i - 1], Coalesce(events)[i])
      case (Output(one, _), Output(next, _)) => one != next
      case _ => true
  {
    hide Coalesce;
    CoalesceSaysTheSame(events);
  }

  lemma {:induction false} MergedStays(events: seq<Event>)
    requires Merged(events)
    ensures Coalesce(events) == events
  {
    if events != [] {
      var n := |events| - 1;
      MergedStays(events[..n]);
      assert events == events[..n] + [events[n]];
      assert n > 0 ==> events[..n][n - 1] == events[n - 1];
    }
  }

  lemma CoalesceStep(events: seq<Event>, e: Event)
    ensures Coalesce(events + [e]) == Append(Coalesce(events), e)
  {
    assert (events + [e])[..|events|] == events;
  }

  // ---------------------------------------------------------------- the job

  /** `sent` is what each subscriber was sent; `listeners` are those that get more. */
  datatype Job = Job(
    running: bool,
    events: seq<Event>,
    listeners: set<Subscriber>,
    sent: map<Subscriber, seq<Event>>)

  /** Sends `e` to the listeners in `to`. */
  function Sent(sent: map<Subscriber, seq<Event>>, to: set<Subscriber>, e: Event): map<Subscriber, seq<Event>> {
    map s | s in sent :: if s in to then sent[s] + [e] else sent[s]
  }

  function Emit(j: Job, e: Event): Job {
    j.(events := Append(j.events, e), sent := Sent(j.sent, j.listeners, e))
  }

  /** The end is reported once, and then nobody is left to listen. */
  function Finished(j: Job, exit: Event): Job {
    if !j.running then j else Emit(j.(running := false), exit).(listeners := {})
  }

  /** Replays the log, and listens if there is more to come. */
  function Joined(j: Job, who: Subscriber): Job {
    j.(sent := j.sent[who := j.events], listeners := if j.running then j.listeners + {who} else j.listeners)
  }

  function Left(j: Job, who: Subscriber): Job {
    j.(listeners := j.listeners - {who})
  }

  const BEGUN := Job(true, [], {}, map[])

  /** The only exit is the last event. */
  predicate EndsOnce(events: seq<Event>) {
    && events != []
    && forall i :: 0 <= i < |events| ==> (events[i].Exit? <==> i == |events| - 1)
  }

  predicate NeverEnds(events: seq<Event>) {
    forall i :: 0 <= i < |events| ==> !events[i].Exit?
  }

  ghost predicate WellLogged(j: Job) {
    Merged(j.events) && if j.running then NeverEnds(j.events) else EndsOnce(j.events)
  }

  /** `who`, if it has joined, was sent what the log says, and will be sent the rest. */
  ghost predicate Served(j: Job, who: Subscriber) {
    who in j.sent ==>
      && Coalesce(j.sent[who]) == j.events
      && if j.running then who in j.listeners && NeverEnds(j.sent[who]) else EndsOnce(j.sent[who])
  }

  lemma EmitLogsWell(j: Job, e: Event)
    requires WellLogged(j) && j.running && e.Output?
    ensures WellLogged(Emit(j, e))
  {
    AppendMerges(j.events, e);
  }

  lemma FinishLogsWell(j: Job, exit: Event)
    requires WellLogged(j) && exit.Exit?
    ensures WellLogged(Finished(j, exit))
    ensures j.running ==> Finished(j, exit).events == j.events + [exit]
  {
    AppendMerges(j.events, exit);
  }

  lemma EmitServes(j: Job, e: Event, who: Subscriber)
    requires Served(j, who) && j.running && e.Output?
    ensures Served(Emit(j, e), who)
  {
    hide Coalesce, Append;
    if who in j.sent {
      CoalesceStep(j.sent[who], e);
    }
  }

  lemma FinishServes(j: Job, exit: Event, who: Subscriber)
    requires Served(j, who) && exit.Exit?
    ensures Served(Finished(j, exit), who)
  {
    hide Coalesce, Append;
    if who in j.sent {
      CoalesceStep(j.sent[who], exit);
    }
  }

  lemma JoinServes(j: Job, who: Subscriber, other: Subscriber)
    requires WellLogged(j) && Served(j, who)
    ensures Served(Joined(j, other), who)
  {
    hide Coalesce;
    MergedStays(j.events);
  }

  // ---------------------------------------------------------------- several pieces of output

  function Outputs(channel: Channel, pieces: seq<string>): (r: seq<Event>)
    ensures |r| == |pieces| && forall i :: 0 <= i < |r| ==> r[i] == Output(channel, pieces[i])
  {
    seq(|pieces|, i requires 0 <= i < |pieces| => Output(channel, pieces[i]))
  }

  function EmitPieces(j: Job, channel: Channel, pieces: seq<string>): Job
    decreases |pieces|
  {
    if pieces == [] then j else EmitPieces(Emit(j, Output(channel, pieces[0])), channel, pieces[1..])
  }

  lemma {:induction false} PiecesLogWell(j: Job, channel: Channel, pieces: seq<string>, said: seq<Event>)
    requires WellLogged(j) && j.running && j.events == Coalesce(said)
    ensures WellLogged(EmitPieces(j, channel, pieces)) && EmitPieces(j, channel, pieces).running
    ensures EmitPieces(j, channel, pieces).events == Coalesce(said + Outputs(channel, pieces))
    ensures EmitPieces(j, channel, pieces).sent.Keys == j.sent.Keys
    decreases |pieces|
  {
    hide Coalesce, WellLogged, Append;
    if pieces == [] {
      assert said + Outputs(channel, pieces) == said;
    } else {
      var e := Output(channel, pieces[0]);
      EmitLogsWell(j, e);
      CoalesceStep(said, e);
      PiecesLogWell(Emit(j, e), channel, pieces[1..], said + [e]);
      assert said + Outputs(channel, pieces) == said + [e] + Outputs(channel, pieces[1..]);
    }
  }

  lemma {:induction false} PiecesServe(j: Job, channel: Channel, pieces: seq<string>, who: Subscriber)
    requires Served(j, who) && j.running
    ensures Served(EmitPieces(j, channel, pieces), who)
    decreases |pieces|
  {
    hide Served;
    if pieces != [] {
      EmitServes(j, Output(channel, pieces[0]), who);
      PiecesServe(Emit(j, Output(channel, pieces[0])), channel, pieces[1..], who);
    }
  }

  // ---------------------------------------------------------------- what the events say

  /** What the events say on a channel. */
  function Text(channel: Channel, events: seq<Event>): string {
    if events == [] then "" else
    var e := events[|events| - 1];
    Text(channel, events[..|events| - 1]) + if e.Output? && e.channel == channel then e.data else ""
  }

  lemma AppendText(channel: Channel, log: seq<Event>, e: Event)
    ensures Text(channel, Append(log, e))
            == Text(channel, log) + if e.Output? && e.channel == channel then e.data else ""
  {
    var n := |log| - 1;
    if log != [] && Mergeable(log[n], e) {
      assert Append(log, e)[..n] == log[..n];
    } else {
      assert (log + [e])[..|log|] == log;
    }
  }

  lemma {:induction false} CoalesceKeepsText(channel: Channel, events: seq<Event>)
    ensures Text(channel, Coalesce(events)) == Text(channel, events)
  {
    if events != [] {
      var n := |events| - 1;
      CoalesceKeepsText(channel, events[..n]);
      AppendText(channel, Coalesce(events[..n]), events[n]);
    }
  }

  lemma TextLast(events: seq<Event>, e: Event, channel: Channel)
    ensures Text(channel, events + [e])
            == Text(channel, events) + if e.Output? && e.channel == channel then e.data else ""
  {
    assert (events + [e])[..|events|] == events;
  }

  lemma {:induction false} OutputsText(said: seq<Event>, channel: Channel, pieces: seq<string>, heard: Channel)
    ensures Text(heard, said + Outputs(channel, pieces))
            == Text(heard, said) + if heard == channel then Flatten(pieces) else ""
    decreases |pieces|
  {
    hide Text, Flatten;
    FlattenTwo("", "", []);
    if pieces == [] {
      assert said + Outputs(channel, pieces) == said;
      assert Text(heard, said) + "" == Text(heard, said);
    } else {
      var n := |pieces| - 1;
      var most := said + Outputs(channel, pieces[..n]);
      OutputsText(said, channel, pieces[..n], heard);
      assert said + Outputs(channel, pieces) == most + [Output(channel, pieces[n])];
      TextLast(most, Output(channel, pieces[n]), heard);
      FlattenAppend(pieces[..n], pieces[n]);
      assert pieces[..n] + [pieces[n]] == pieces;
      Regroup(Text(heard, said), Flatten(pieces[..n]), pieces[n]);
      assert Text(heard, most) + "" == Text(heard, most);
    }
  }

  // ---------------------------------------------------------------- the job as an object

  lemma SentToOneMore(sent: map<Subscriber, seq<Event>>, to: set<Subscriber>, one: Subscriber, e: Event)
    requires one in sent && one !in to
    ensures one in Sent(sent, to, e)
    ensures Sent(sent, to, e)[one := Sent(sent, to, e)[one] + [e]] == Sent(sent, to + {one}, e)
  {
  }

  lemma SentToNone(sent: map<Subscriber, seq<Event>>, e: Event)
    ensures Sent(sent, {}, e) == sent
  {
  }

  class LiveJob {
    var running: bool
    var events: seq<Event>
    var listeners: set<Subscriber>
    var sent: map<Subscriber, seq<Event>>

    ghost function View(): Job
      reads this
    {
      Job(running, events, listeners, sent)
    }

    constructor ()
      ensures View() == BEGUN
    {
      running, events, listeners, sent := true, [], {}, map[];
    }

    method Notify(e: Event)
      requires listeners <= sent.Keys
      modifies this`sent
      ensures sent == Sent(old(sent), listeners, e)
    {
      hide Sent;
      var left := listeners;
      SentToNone(sent, e);
      assert listeners - left == {};
      while left != {}
        invariant left <= listeners
        invariant sent == Sent(old(sent), listeners - left, e)
        decreases |left|
      {
        var listener :| listener in left;
        assert listener in old(sent);
        SentToOneMore(old(sent), listeners - left, listener, e);
        assert listeners - (left - {listener}) == (listeners - left) + {listener};
        left := left - {listener};
        sent := sent[listener := sent[listener] + [e]];
      }
      assert listeners - left == listeners;
    }

    method EmitEvent(e: Event)
      requires listeners <= sent.Keys
      modifies this`events, this`sent
      ensures View() == Emit(old(View()), e)
    {
      if |events| > 0 && e.Output? && events[|events| - 1].Output? && events[|events| - 1].channel == e.channel {
        events := events[|events| - 1 := Output(e.channel, events[|events| - 1].data + e.data)];
      } else {
        events := events + [e];
      }
      Notify(e);
    }

    method FinishJob(exit: Event)
      requires listeners <= sent.Keys
      modifies this
      ensures View() == Finished(old(View()), exit)
    {
      if !running {
        return;
      }
      running := false;
      EmitEvent(exit);
      listeners := {};
    }

    method Subscribe(who: Subscriber)
      modifies this`sent, this`listeners
      ensures View() == Joined(old(View()), who)
    {
      var replayed := [];
      for i := 0 to |events|
        invariant replayed == events[..i]
      {
        replayed := replayed + [events[i]];
      }
      assert events[..|events|] == events;
      sent := sent[who := replayed];
      if running {
        listeners := listeners + {who};
      }
    }

    method Cancel(who: Subscriber)
      modifies this`listeners
      ensures View() == Left(old(View()), who)
    {
      listeners := listeners - {who};
    }
  }
}

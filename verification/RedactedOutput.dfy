/** The byte budget of a redacted stream, and the stream itself. */
module RedactedOutput {
  import opened Options
  import opened Texts
  import opened Redaction

  // ---------------------------------------------------------------- the byte budget

  /** Bytes of one character in UTF-8. */
  function Width(c: char): nat {
    if c < '\U{80}' then 1 else if c < '\U{800}' then 2 else if c < '\U{10000}' then 3 else 4
  }

  function Bytes(s: string): nat {
    if s == "" then 0 else Width(s[0]) + Bytes(s[1..])
  }

  /** How many characters at the front of `s` fit whole into `room` bytes. */
  function Whole(s: string, room: nat): (n: nat)
    ensures n <= |s| && Bytes(s[..n]) <= room
  {
    if s == "" || room < Width(s[0]) then 0 else
    var n := Whole(s[1..], room - Width(s[0]));
    assert s[..n + 1][1..] == s[1..][..n];
    n + 1
  }

  const REPLACEMENT_CHARACTER := '\U{fffd}'

  /**
   * The bytes of `s` cut to `room` and decoded again, less one final replacement character: either
   * the remains of a character that was cut in two, or one that stood there before.
   */
  function Fitted(s: string, room: Option<nat>): string {
    var n := if room.Some? then Whole(s, room.value) else |s|;
    var cutInTwo := room.Some? && n < |s| && Bytes(s[..n]) < room.value;
    if !cutInTwo && n > 0 && s[n - 1] == REPLACEMENT_CHARACTER then s[..n - 1] else s[..n]
  }

  datatype Sink = Sink(emitted: seq<string>, bytes: nat)

  function Emit(limit: Option<nat>, sink: Sink, data: string): Sink {
    if data == "" || (limit.Some? && limit.value <= sink.bytes) then sink else
    var fitted := Fitted(data, if limit.Some? then Some(limit.value - sink.bytes) else None);
    Sink(if fitted == "" then sink.emitted else sink.emitted + [fitted], sink.bytes + Bytes(fitted))
  }

  function EmitAll(limit: Option<nat>, sink: Sink, pieces: seq<string>): Sink
    decreases |pieces|
  {
    if pieces == [] then sink else EmitAll(limit, Emit(limit, sink, pieces[0]), pieces[1..])
  }

  lemma {:induction false} BytesJoin(a: string, b: string)
    ensures Bytes(a + b) == Bytes(a) + Bytes(b)
  {
    if a == "" {
      assert a + b == b;
    } else {
      BytesJoin(a[1..], b);
      assert (a + b)[1..] == a[1..] + b;
    }
  }

  /** The emitted bytes are counted, and never exceed the limit. */
  ghost predicate Counted(limit: Option<nat>, sink: Sink) {
    && sink.bytes == Bytes(Flatten(sink.emitted))
    && (limit.Some? ==> sink.bytes <= limit.value)
  }

  lemma FittedFits(s: string, room: nat)
    ensures Bytes(Fitted(s, Some(room))) <= room
  {
    var n := Whole(s, room);
    if n > 0 {
      assert s[..n - 1] + [s[n - 1]] == s[..n];
      BytesJoin(s[..n - 1], [s[n - 1]]);
    }
  }

  lemma EmitCounts(limit: Option<nat>, sink: Sink, data: string)
    requires Counted(limit, sink)
    ensures Counted(limit, Emit(limit, sink, data))
  {
    hide Fitted;
    if data != "" && (limit.None? || sink.bytes < limit.value) {
      var room := if limit.Some? then Some(limit.value - sink.bytes) else None;
      var fitted := Fitted(data, room);
      if room.Some? {
        FittedFits(data, room.value);
      }
      FlattenAppend(sink.emitted, fitted);
      BytesJoin(Flatten(sink.emitted), fitted);
    }
  }

  lemma {:induction false} OutputNeverExceedsLimit(limit: Option<nat>, sink: Sink, pieces: seq<string>)
    requires Counted(limit, sink)
    ensures Counted(limit, EmitAll(limit, sink, pieces))
    decreases |pieces|
  {
    hide Emit, Counted;
    if pieces != [] {
      EmitCounts(limit, sink, pieces[0]);
      OutputNeverExceedsLimit(limit, Emit(limit, sink, pieces[0]), pieces[1..]);
    }
  }

  /** The code points that fit into the payload of `n` bytes of UTF-8. */
  function Payload(n: nat): nat {
    match n
    case 0 => 0
    case 1 => 0x80
    case 2 => 0x800
    case 3 => 0x1_0000
    case _ => 0x20_0000
  }

  /** A character takes the fewest bytes that can hold it. */
  lemma WidthIsLeast(c: char)
    ensures 1 <= Width(c) <= 4
    ensures Payload(Width(c) - 1) <= c as nat < Payload(Width(c))
  {
  }

  /** As many characters as fit, and not one more. */
  lemma {:induction false} WholeIsMost(s: string, room: nat)
    ensures
      var n := Whole(s, room);
      Bytes(s[..n]) <= room && forall k :: n < k <= |s| ==> Bytes(s[..k]) > room
  {
    if s != "" && Width(s[0]) <= room {
      var n := Whole(s, room);
      WholeIsMost(s[1..], room - Width(s[0]));
      forall k | n < k <= |s|
        ensures Bytes(s[..k]) > room
      {
        assert s[..k][1..] == s[1..][..k - 1];
      }
    } else {
      forall k | 0 < k <= |s|
        ensures Bytes(s[..k]) > room
      {
        assert s[..k][0] == s[0];
      }
    }
  }

  /**
   * A piece is cut to the most whole characters the budget allows, and a piece that ends with them on the
   * budget's last byte or its own loses a final U+FFFD. Nothing is emitted once the budget is used up.
   */
  lemma EmitsMost(limit: nat, sink: Sink, data: string, n: nat)
    requires n <= |data| && sink.bytes < limit
    requires Bytes(data[..n]) <= limit - sink.bytes
    requires forall k :: n < k <= |data| ==> Bytes(data[..k]) > limit - sink.bytes
    ensures
      var room, out := limit - sink.bytes, Flatten(Emit(Some(limit), sink, data).emitted);
      if n > 0 && data[n - 1] == '\U{fffd}' && (n == |data| || Bytes(data[..n]) == room) then
        out == Flatten(sink.emitted) + data[..n - 1]
      else out == Flatten(sink.emitted) + data[..n]
    ensures sink.bytes >= limit ==> Emit(Some(limit), sink, data) == sink
  {
    hide Flatten, Bytes;
    WholeIsMost(data, limit - sink.bytes);
    assert Whole(data, limit - sink.bytes) == n;
    FlattenAppend(sink.emitted, Fitted(data, Some(limit - sink.bytes)));
    assert data[..0] == "";
    assert Flatten(sink.emitted) + "" == Flatten(sink.emitted);
  }

  // ---------------------------------------------------------------- single-byte text

  predicate SingleByte(s: string) {
    forall i :: 0 <= i < |s| ==> s[i] < '\U{80}'
  }

  function Take(s: string, n: nat): string {
    if n < |s| then s[..n] else s
  }

  lemma {:induction false} SingleBytes(s: string, room: nat)
    requires SingleByte(s)
    ensures Bytes(s) == |s|
    ensures Whole(s, room) == if room < |s| then room else |s|
    decreases |s|
  {
    if s != "" {
      SingleBytes(s[1..], if room == 0 then 0 else room - 1);
    }
  }

  lemma FittedIsPrefix(s: string, room: nat)
    requires SingleByte(s)
    ensures Fitted(s, Some(room)) == Take(s, room)
  {
    SingleBytes(s, room);
    SingleBytes(Take(s, room), room);
    assert s[..|s|] == s;
  }

  /** The sink holds the first `limit` characters of `shown`. */
  ghost predicate HoldsPrefix(limit: nat, sink: Sink, shown: string) {
    && SingleByte(shown)
    && Flatten(sink.emitted) == Take(shown, limit)
    && sink.bytes == |Take(shown, limit)|
  }

  lemma EmitHoldsPrefix(limit: nat, sink: Sink, shown: string, data: string)
    requires HoldsPrefix(limit, sink, shown) && SingleByte(data)
    ensures HoldsPrefix(limit, Emit(Some(limit), sink, data), shown + data)
  {
    hide Fitted, Bytes, Flatten;
    if data == "" {
      assert shown + data == shown;
    } else if sink.bytes < limit {
      var room := limit - sink.bytes;
      FittedIsPrefix(data, room);
      FlattenAppend(sink.emitted, Take(data, room));
      SingleBytes(Take(data, room), 0);
      assert Take(shown + data, limit) == shown + Take(data, room);
    } else {
      assert Take(shown + data, limit) == Take(shown, limit);
    }
  }

  lemma {:induction false} EmitAllHoldsPrefix(limit: nat, sink: Sink, shown: string, pieces: seq<string>)
    requires HoldsPrefix(limit, sink, shown) && SingleByte(Flatten(pieces))
    ensures HoldsPrefix(limit, EmitAll(Some(limit), sink, pieces), shown + Flatten(pieces))
    decreases |pieces|
  {
    hide Emit, HoldsPrefix;
    if pieces == [] {
      assert shown + Flatten(pieces) == shown;
    } else {
      var rest := Flatten(pieces[1..]);
      assert forall i :: 0 <= i < |pieces[0]| ==> (pieces[0] + rest)[i] == pieces[0][i];
      assert forall i :: 0 <= i < |rest| ==> (pieces[0] + rest)[i + |pieces[0]|] == rest[i];
      EmitHoldsPrefix(limit, sink, shown, pieces[0]);
      EmitAllHoldsPrefix(limit, Emit(Some(limit), sink, pieces[0]), shown + pieces[0], pieces[1..]);
      Regroup(shown, pieces[0], rest);
    }
  }

  // ---------------------------------------------------------------- unlimited text

  predicate EndsReplaced(piece: string) {
    piece != "" && piece[|piece| - 1] == REPLACEMENT_CHARACTER
  }

  /** How many pieces lose their last character. */
  function Losses(pieces: seq<string>): nat {
    if pieces == [] then 0 else (if EndsReplaced(pieces[0]) then 1 else 0) + Losses(pieces[1..])
  }

  lemma UnlimitedEmit(sink: Sink, piece: string)
    ensures
      var out := Flatten(Emit(None, sink, piece).emitted);
      if EndsReplaced(piece) then out == Flatten(sink.emitted) + piece[..|piece| - 1]
      else out == Flatten(sink.emitted) + piece
  {
    hide Bytes, Whole, Flatten;
    assert piece[..|piece|] == piece;
    FlattenAppend(sink.emitted, Fitted(piece, None));
  }

  lemma {:induction false} UnlimitedLoses(sink: Sink, pieces: seq<string>)
    ensures |Flatten(EmitAll(None, sink, pieces).emitted)|
            == |Flatten(sink.emitted)| + |Flatten(pieces)| - Losses(pieces)
    ensures Losses(pieces) == 0 ==>
              Flatten(EmitAll(None, sink, pieces).emitted) == Flatten(sink.emitted) + Flatten(pieces)
    decreases |pieces|
  {
    hide Emit;
    if pieces != [] {
      UnlimitedEmit(sink, pieces[0]);
      UnlimitedLoses(Emit(None, sink, pieces[0]), pieces[1..]);
      Regroup(Flatten(sink.emitted), pieces[0], Flatten(pieces[1..]));
    }
  }

  lemma {:induction false} NoLosses(pieces: seq<string>)
    ensures Losses(pieces) == 0 <==> forall piece :: piece in pieces ==> !EndsReplaced(piece)
  {
    if pieces != [] {
      NoLosses(pieces[1..]);
      assert forall piece :: piece in pieces <==> piece == pieces[0] || piece in pieces[1..];
    }
  }

  /** Without a limit the sink receives all of the pieces exactly if none of them ends in a replacement character. */
  lemma UnlimitedEmitsAllExactly(pieces: seq<string>)
    ensures Flatten(EmitAll(None, Sink([], 0), pieces).emitted) == Flatten(pieces)
            <==> forall piece :: piece in pieces ==> !EndsReplaced(piece)
  {
    hide EndsReplaced;
    UnlimitedLoses(Sink([], 0), pieces);
    NoLosses(pieces);
    assert "" + Flatten(pieces) == Flatten(pieces);
  }

  // ---------------------------------------------------------------- whole streams

  /** Everything handed on between the first chunk and the flush. */
  function StreamPieces(pending: string, chunks: seq<string>, tail: string, secrets: seq<string>): seq<string>
    requires NonEmpty(secrets)
    decreases |chunks|
  {
    if chunks == [] then Drained(pending + tail, secrets, true).pieces else
    var d := Drained(pending + chunks[0], secrets, false);
    d.pieces + StreamPieces(d.rest, chunks[1..], tail, secrets)
  }

  lemma {:induction false} StreamShowsPieces(pending: string, chunks: seq<string>, tail: string, secrets: seq<string>)
    requires NonEmpty(secrets)
    ensures Shown(Streamed(pending, chunks, tail, secrets)) == Flatten(StreamPieces(pending, chunks, tail, secrets))
    decreases |chunks|
  {
    hide Drained, Shown;
    if chunks == [] {
      DrainShowsPieces(pending + tail, secrets, true);
    } else {
      var d := Drained(pending + chunks[0], secrets, false);
      DrainShowsPieces(pending + chunks[0], secrets, false);
      StreamShowsPieces(d.rest, chunks[1..], tail, secrets);
      ShownJoins(d.glyphs, Streamed(d.rest, chunks[1..], tail, secrets));
      FlattenJoins(d.pieces, StreamPieces(d.rest, chunks[1..], tail, secrets));
    }
  }

  /** What a character predicate says of the text and of the marker it says of what is shown. */
  lemma {:induction false} ShownStays(g: seq<Glyph>, p: char -> bool)
    requires forall i :: 0 <= i < |Raw(g)| ==> p(Raw(g)[i])
    requires forall i :: 0 <= i < |MARKER| ==> p(MARKER[i])
    ensures forall i :: 0 <= i < |Shown(g)| ==> p(Shown(g)[i])
  {
    if g != [] {
      var first, rest := RawOf(g[0]), Raw(g[1..]);
      assert Raw(g) == first + rest;
      forall i | 0 <= i < |rest|
        ensures p(rest[i])
      {
        assert rest[i] == Raw(g)[i + |first|];
      }
      ShownStays(g[1..], p);
      if g[0].Plain? {
        assert g[0].c == Raw(g)[0];
      }
      assert Shown(g) == ShownOf(g[0]) + Shown(g[1..]);
    }
  }

  /** What a sink with this limit has received by the end of the stream. */
  function Received(limit: Option<nat>, chunks: seq<string>, tail: string, secrets: seq<string>): string
    requires NonEmpty(secrets)
  {
    Flatten(EmitAll(limit, Sink([], 0), StreamPieces("", chunks, tail, secrets)).emitted)
  }

  /** Single-byte text, however cut: the first `limit` bytes of one pass over all of it. */
  lemma BoundedOutputIsPrefix(limit: nat, chunks: seq<string>, tail: string, secrets: seq<string>)
    requires NonEmpty(secrets) && !CutShort(secrets) && SingleByte(Flatten(chunks) + tail)
    ensures Received(Some(limit), chunks, tail, secrets) == Take(Shown(Pass(Flatten(chunks) + tail, secrets)), limit)
  {
    hide StreamPieces, Streamed, Pass, EmitAll, CutShort, Shown, Raw;
    var pieces := StreamPieces("", chunks, tail, secrets);
    assert "" + (Flatten(chunks) + tail) == Flatten(chunks) + tail;
    StreamIsPass("", chunks, tail, secrets);
    StreamShowsPieces("", chunks, tail, secrets);
    StreamCovers("", chunks, tail, secrets);
    ShownStays(Streamed("", chunks, tail, secrets), c => c < '\U{80}');
    assert HoldsPrefix(limit, Sink([], 0), "");
    EmitAllHoldsPrefix(limit, Sink([], 0), "", pieces);
    assert "" + Flatten(pieces) == Flatten(pieces);
  }

  /**
   * Without a limit, any text: the sink receives one pass over all of it exactly if no piece that
   * the stream hands on ends in a replacement character.
   */
  lemma UnboundedOutputIsPassExactly(chunks: seq<string>, tail: string, secrets: seq<string>)
    requires NonEmpty(secrets) && !CutShort(secrets)
    ensures Received(None, chunks, tail, secrets) == Shown(Pass(Flatten(chunks) + tail, secrets))
            <==> forall piece :: piece in StreamPieces("", chunks, tail, secrets) ==> !EndsReplaced(piece)
  {
    hide StreamPieces, Streamed, Pass, EmitAll, CutShort, Shown, EndsReplaced;
    assert "" + (Flatten(chunks) + tail) == Flatten(chunks) + tail;
    StreamIsPass("", chunks, tail, secrets);
    StreamShowsPieces("", chunks, tail, secrets);
    UnlimitedEmitsAllExactly(StreamPieces("", chunks, tail, secrets));
  }

  lemma WithoutSecrets(a: string, final: bool)
    requires a != ""
    ensures Drained(a, [], final) == Drain(Plains(a), [a], "")
  {
    hide LongestHead, IsHeld;
    assert a[..|a|] == a && a[|a|..] == "";
    assert Held(a, []) == 0 by {
      NothingIsHeld(a, Held(a, []));
    }
  }

  lemma NothingIsHeld(a: string, n: nat)
    ensures !IsHeld(a, [], n)
  {
  }

  lemma TwoChunks(a: string, b: string)
    requires a != "" && b != ""
    ensures StreamPieces("", [a, b], "", []) == [a, b]
    ensures StreamPieces("", [a], "", []) == [a]
  {
    hide Drained;
    WithoutSecrets(a, false);
    WithoutSecrets(b, false);
    assert "" + a == a && "" + b == b;
    assert [a, b][1..] == [b] && [b][1..] == [] && [a][1..] == [];
    NothingLeft();
    assert StreamPieces("", [b], "", []) == [b] + StreamPieces("", [], "", []);
  }

  lemma NothingLeft()
    ensures StreamPieces("", [], "", []) == []
  {
  }

  lemma EmitTwo(limit: Option<nat>, a: string, b: string)
    ensures EmitAll(limit, Sink([], 0), [a, b]) == Emit(limit, Emit(limit, Sink([], 0), a), b)
    ensures EmitAll(limit, Sink([], 0), [a]) == Emit(limit, Sink([], 0), a)
  {
    hide Emit;
    assert [a, b][1..] == [b] && [b][1..] == [] && [a][1..] == [];
    var first := Emit(limit, Sink([], 0), a);
    assert EmitAll(limit, first, [b]) == Emit(limit, first, b);
  }

  /** A replacement character at the end of a chunk is lost even without a limit. */
  lemma ReplacementCharacterIsLost()
    ensures Received(None, [[REPLACEMENT_CHARACTER], "a"], "", []) == "a"
    ensures Received(None, [[REPLACEMENT_CHARACTER, 'a']], "", []) == [REPLACEMENT_CHARACTER, 'a']
  {
    hide StreamPieces, EmitAll, Bytes, Whole;
    var lone, two := [REPLACEMENT_CHARACTER], [REPLACEMENT_CHARACTER, 'a'];
    TwoChunks(lone, "a");
    TwoChunks(two, "a");
    EmitTwo(None, lone, "a");
    EmitTwo(None, two, "a");
    assert two[..2] == two && "a"[..1] == "a";
    assert Emit(None, Sink([], 0), lone).emitted == [];
    assert Fitted("a", None) == "a" && Fitted(two, None) == two;
    assert [] + ["a"] == ["a"] && [] + [two] == [two];
    FlattenTwo("a", "", []);
    FlattenTwo(two, "", []);
  }

  /** A character too wide for the budget is skipped, and narrower ones after it still pass. */
  lemma WideCharacterIsSkipped(wide: char)
    requires Width(wide) == 2
    ensures Received(Some(1), [[wide], "a"], "", []) == "a"
  {
    hide StreamPieces, EmitAll;
    var lone := [wide];
    TwoChunks(lone, "a");
    EmitTwo(Some(1), lone, "a");
    assert Emit(Some(1), Sink([], 0), lone) == Sink([], 0);
    FittedIsPrefix("a", 1);
    assert [] + ["a"] == ["a"];
    FlattenTwo("a", "", []);
  }

  // ---------------------------------------------------------------- the stream

  /** The first index of `s` in `value`, or -1. */
  function IndexOf(value: string, s: string, from: nat := 0): (i: int)
    requires from <= |value|
    ensures i == -1 || (from <= i && OccursAt(value, i, s))
    ensures forall j :: from <= j && OccursAt(value, j, s) ==> i != -1 && i <= j
    decreases |value| - from
  {
    if |value| < from + |s| then -1
    else if value[from..from + |s|] == s then from
    else if from == |value| then -1
    else IndexOf(value, s, from + 1)
  }

  method EarliestSecret(value: string, secrets: seq<string>) returns (found: Option<Match>)
    requires NonEmpty(secrets)
    ensures found == Earliest(value, secrets)
  {
    found := None;
    for k := 0 to |secrets|
      invariant IsEarliest(value, secrets[..k], found)
    {
      var secret := secrets[k];
      assert secrets[..k + 1] == secrets[..k] + [secret];
      var index := IndexOf(value, secret);
      if index < 0 {
        continue;
      }
      if found.None? || index < found.value.index || (index == found.value.index && |secret| > |found.value.secret|) {
        found := Some(Match(index, secret));
      }
    }
    assert secrets[..|secrets|] == secrets;
    EarliestIsUnique(value, secrets, found, Earliest(value, secrets));
  }

  lemma HeldBySome(value: string, secrets: seq<string>, secret: string)
    ensures forall n: nat :: IsHeld(value, secrets + [secret], n) ==>
              || IsHeld(value, secrets, n)
              || (n <= |value| && n < |secret| && secret[..n] == value[|value| - n..])
  {
  }

  method LongestSecretPrefixSuffix(value: string, secrets: seq<string>) returns (longest: nat)
    requires NonEmpty(secrets)
    ensures longest == Held(value, secrets)
  {
    longest := 0;
    for k := 0 to |secrets|
      invariant longest <= |value|
      invariant longest != 0 ==> IsHeld(value, secrets[..k], longest)
      invariant forall n: nat :: longest < n ==> !IsHeld(value, secrets[..k], n)
    {
      var secret := secrets[k];
      assert secrets[..k + 1] == secrets[..k] + [secret];
      assert secret in secrets;
      var length := if |value| < |secret| - 1 then |value| else |secret| - 1;
      while length > longest
        invariant 0 <= length <= |value| && length < |secret|
        invariant forall n :: length < n < |secret| && n <= |value| ==> secret[..n] != value[|value| - n..]
      {
        if secret[..length] == value[|value| - length..] {
          longest := length;
          break;
        }
        length := length - 1;
      }
      HeldBySome(value, secrets[..k], secret);
    }
    assert secrets[..|secrets|] == secrets;
  }

  /** The state of a stream: what it holds back, what it has emitted, and whether it is closed. */
  datatype Stream = Stream(pending: string, sink: Sink, flushed: bool)

  const OPENED := Stream("", Sink([], 0), false)

  /** A push does nothing once the stream is flushed. */
  function Pushed(limit: Option<nat>, secrets: seq<string>, s: Stream, chunk: string): Stream
    requires NonEmpty(secrets)
  {
    if s.flushed then s else
    var d := Drained(s.pending + chunk, secrets, false);
    Stream(d.rest, EmitAll(limit, s.sink, d.pieces), false)
  }

  function Flushed(limit: Option<nat>, secrets: seq<string>, s: Stream, tail: string): Stream
    requires NonEmpty(secrets)
  {
    if s.flushed then s else
    Stream("", EmitAll(limit, s.sink, Drained(s.pending + tail, secrets, true).pieces), true)
  }

  function PushedAll(limit: Option<nat>, secrets: seq<string>, s: Stream, chunks: seq<string>): Stream
    requires NonEmpty(secrets)
    decreases |chunks|
  {
    if chunks == [] then s else PushedAll(limit, secrets, Pushed(limit, secrets, s, chunks[0]), chunks[1..])
  }

  lemma {:induction false} EmitAllJoins(limit: Option<nat>, sink: Sink, a: seq<string>, b: seq<string>)
    ensures EmitAll(limit, sink, a + b) == EmitAll(limit, EmitAll(limit, sink, a), b)
    decreases |a|
  {
    hide Emit;
    if a == [] {
      assert a + b == b;
    } else {
      assert (a + b)[1..] == a[1..] + b;
      EmitAllJoins(limit, Emit(limit, sink, a[0]), a[1..], b);
    }
  }

  /** Pushing and flushing a stream gives its sink what `StreamPieces` says. */
  lemma {:induction false} StreamReceives(limit: Option<nat>, secrets: seq<string>, s: Stream, chunks: seq<string>,
                                          tail: string)
    requires NonEmpty(secrets) && !s.flushed
    ensures !PushedAll(limit, secrets, s, chunks).flushed
    ensures Flushed(limit, secrets, PushedAll(limit, secrets, s, chunks), tail)
            == Stream("", EmitAll(limit, s.sink, StreamPieces(s.pending, chunks, tail, secrets)), true)
    decreases |chunks|
  {
    hide Drained, Emit, EmitAll;
    if chunks != [] {
      var next := Pushed(limit, secrets, s, chunks[0]);
      StreamReceives(limit, secrets, next, chunks[1..], tail);
      EmitAllJoins(limit, s.sink, Drained(s.pending + chunks[0], secrets, false).pieces,
                   StreamPieces(next.pending, chunks[1..], tail, secrets));
    }
  }

  lemma {:induction false} PushedLast(limit: Option<nat>, secrets: seq<string>, s: Stream, chunks: seq<string>,
                                      chunk: string)
    requires NonEmpty(secrets)
    ensures PushedAll(limit, secrets, s, chunks + [chunk])
            == Pushed(limit, secrets, PushedAll(limit, secrets, s, chunks), chunk)
    decreases |chunks|
  {
    hide Pushed;
    if chunks == [] {
      assert chunks + [chunk] == [chunk] && [chunk][1..] == [];
    } else {
      assert (chunks + [chunk])[1..] == chunks[1..] + [chunk];
      PushedLast(limit, secrets, Pushed(limit, secrets, s, chunks[0]), chunks[1..], chunk);
    }
  }

  class RedactedOutputStream {
    const limit: Option<nat>
    const secrets: seq<string>
    var pending: string
    var emittedBytes: nat
    var flushed: bool
    var emitted: seq<string>

    ghost predicate Valid()
      reads this
    {
      NonEmpty(secrets)
    }

    ghost function View(): Stream
      reads this
    {
      Stream(pending, Sink(emitted, emittedBytes), flushed)
    }

    constructor (limit: Option<nat>, secrets: seq<string>)
      requires NonEmpty(secrets)
      ensures Valid() && this.limit == limit && this.secrets == secrets
      ensures View() == OPENED
    {
      this.limit, this.secrets := limit, secrets;
      pending, emittedBytes, flushed, emitted := "", 0, false, [];
    }

    method EmitBounded(data: string)
      modifies this`emittedBytes, this`emitted
      ensures View().sink == Emit(limit, old(View()).sink, data)
    {
      if data == "" || (limit.Some? && limit.value - emittedBytes <= 0) {
        return;
      }
      var bounded := Fitted(data, if limit.Some? then Some(limit.value - emittedBytes) else None);
      emittedBytes := emittedBytes + Bytes(bounded);
      if bounded != "" {
        emitted := emitted + [bounded];
      }
    }

    method Drain(final: bool)
      requires Valid()
      modifies this`pending, this`emittedBytes, this`emitted
      ensures pending == Drained(old(pending), secrets, final).rest
      ensures View().sink == EmitAll(limit, old(View()).sink, Drained(old(pending), secrets, final).pieces)
    {
      hide Emit, Turn, Plains, LongestHead, IsEarliest, Earliest, IsHeld, Held;
      while pending != ""
        invariant Drained(pending, secrets, final).rest == Drained(old(pending), secrets, final).rest
        invariant EmitAll(limit, View().sink, Drained(pending, secrets, final).pieces)
                  == EmitAll(limit, old(View()).sink, Drained(old(pending), secrets, final).pieces)
        decreases |pending|
      {
        var found := EarliestSecret(pending, secrets);
        ghost var pieces := Drained(pending, secrets, final).pieces;
        if found.Some? {
          var index, secret := found.value.index, found.value.secret;
          assert pieces[1..] == [MARKER] + Drained(pending[index + |secret|..], secrets, final).pieces;
          assert pieces[1..][1..] == Drained(pending[index + |secret|..], secrets, final).pieces;
          EmitBounded(pending[..index]);
          EmitBounded(MARKER);
          pending := pending[index + |secret|..];
          continue;
        }
        assert pieces[1..] == [];
        if !final {
          var retained := LongestSecretPrefixSuffix(pending, secrets);
          EmitBounded(pending[..|pending| - retained]);
          pending := pending[|pending| - retained..];
          return;
        }
        EmitBounded(pending);
        pending := "";
      }
    }

    /** `chunk` is what the decoder makes of the bytes that came in. */
    method Push(chunk: string)
      requires Valid()
      modifies this
      ensures View() == Pushed(limit, secrets, old(View()), chunk)
    {
      if flushed {
        return;
      }
      pending := pending + chunk;
      Drain(false);
    }

    /** `tail` is what the decoder still held; after the first flush nothing is emitted any more. */
    method Flush(tail: string)
      requires Valid()
      modifies this
      ensures View() == Flushed(limit, secrets, old(View()), tail)
    {
      if flushed {
        return;
      }
      flushed := true;
      pending := pending + tail;
      DrainKeepsText(pending, secrets, true);
      Drain(true);
    }
  }
}

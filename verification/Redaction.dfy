/**
 * Hiding secrets in a text that arrives in pieces. Whatever the pieces, no occurrence of a secret
 * goes by untouched; and for the secrets that allow it the pieces make no difference at all.
 */
module Redaction {
  import opened Options
  import opened Texts

  /** What a reader is shown: a character as it is, or the mark that stands for a secret. */
  datatype Glyph = Plain(c: char) | Redacted(secret: string)

  datatype Match = Match(index: nat, secret: string)

  // ---------------------------------------------------------------- searching

  predicate OccursAt(text: string, i: int, s: string) {
    0 <= i && i + |s| <= |text| && text[i..i + |s|] == s
  }

  predicate NonEmpty(secrets: seq<string>) {
    forall s :: s in secrets ==> s != ""
  }

  /** The longest secret that `text` begins with. */
  function LongestHead(text: string, secrets: seq<string>): (r: Option<string>)
    ensures r.None? <==> forall s :: s in secrets ==> !OccursAt(text, 0, s)
    ensures r.Some? ==> r.value in secrets && OccursAt(text, 0, r.value)
    ensures r.Some? ==> forall s :: s in secrets && OccursAt(text, 0, s) ==> |s| <= |r.value|
  {
    if secrets == [] then None else
    var r := LongestHead(text, secrets[1..]);
    assert forall s :: s in secrets <==> s == secrets[0] || s in secrets[1..];
    if OccursAt(text, 0, secrets[0]) && (r.None? || |r.value| < |secrets[0]|) then Some(secrets[0]) else r
  }

  /** The leftmost match, and the longest one there. */
  ghost predicate IsEarliest(text: string, secrets: seq<string>, m: Option<Match>) {
    match m
    case None => forall i, s :: s in secrets ==> !OccursAt(text, i, s)
    case Some(Match(index, secret)) =>
      && secret in secrets
      && OccursAt(text, index, secret)
      && (forall i, s :: s in secrets && OccursAt(text, i, s) ==> index <= i)
      && (forall s :: s in secrets && OccursAt(text, index, s) ==> |s| <= |secret|)
  }

  lemma EarliestIsUnique(text: string, secrets: seq<string>, m: Option<Match>, n: Option<Match>)
    requires IsEarliest(text, secrets, m) && IsEarliest(text, secrets, n)
    ensures m == n
  {
    if m.Some? && n.Some? {
      assert m.value.index == n.value.index;
      assert |m.value.secret| == |n.value.secret|;
    }
  }

  lemma OccursInTail(text: string, i: nat, s: string)
    requires i < |text|
    ensures OccursAt(text, i + 1, s) <==> OccursAt(text[1..], i, s)
  {
    if i + 1 + |s| <= |text| {
      assert text[i + 1..i + 1 + |s|] == text[1..][i..i + |s|];
    }
  }

  function Earliest(text: string, secrets: seq<string>): (m: Option<Match>)
    requires NonEmpty(secrets)
    ensures IsEarliest(text, secrets, m)
    ensures m.Some? ==> OccursAt(text, m.value.index, m.value.secret) && m.value.secret != ""
  {
    var here := LongestHead(text, secrets);
    if here.Some? then Some(Match(0, here.value))
    else if text == "" then None else
    var later := Earliest(text[1..], secrets);
    assert forall i, s :: i >= 0 && s in secrets && OccursAt(text, i, s) ==> OccursAt(text[1..], i - 1, s) by {
      forall i, s | i >= 0 && s in secrets && OccursAt(text, i, s)
        ensures OccursAt(text[1..], i - 1, s)
      {
        assert i != 0;
        OccursInTail(text, i - 1, s);
      }
    }
    if later.None? then None else
    assert OccursAt(text, later.value.index + 1, later.value.secret) by {
      OccursInTail(text, later.value.index, later.value.secret);
    }
    assert forall s :: s in secrets && OccursAt(text, later.value.index + 1, s) ==>
             OccursAt(text[1..], later.value.index, s);
    Some(Match(later.value.index + 1, later.value.secret))
  }

  /** The last `n` characters of `text` are the beginning of a longer secret. */
  predicate IsHeld(text: string, secrets: seq<string>, n: nat) {
    n <= |text| && exists s :: s in secrets && n < |s| && s[..n] == text[|text| - n..]
  }

  /** How much of the end of `text` might still grow into a secret. */
  function Held(text: string, secrets: seq<string>, most: nat := |text|): (n: nat)
    requires most <= |text|
    ensures n <= most
    ensures n != 0 ==> IsHeld(text, secrets, n)
    ensures forall k :: n < k <= most ==> !IsHeld(text, secrets, k)
  {
    if most == 0 || IsHeld(text, secrets, most) then most else Held(text, secrets, most - 1)
  }

  // ---------------------------------------------------------------- glyphs

  function Plains(text: string): (r: seq<Glyph>)
    ensures |r| == |text| && forall i :: 0 <= i < |r| ==> r[i] == Plain(text[i])
  {
    seq(|text|, i requires 0 <= i < |text| => Plain(text[i]))
  }

  function RawOf(g: Glyph): string {
    if g.Plain? then [g.c] else g.secret
  }

  function ShownOf(g: Glyph): string {
    if g.Plain? then [g.c] else MARKER
  }

  const MARKER := "[redacted]"

  /** The text that the glyphs stand for. */
  function Raw(g: seq<Glyph>): string {
    if g == [] then "" else RawOf(g[0]) + Raw(g[1..])
  }

  /** Which characters of that text are hidden. */
  function Mask(g: seq<Glyph>): (m: seq<bool>)
    ensures |m| == |Raw(g)|
  {
    if g == [] then [] else seq(|RawOf(g[0])|, _ => g[0].Redacted?) + Mask(g[1..])
  }

  function Shown(g: seq<Glyph>): string {
    if g == [] then "" else ShownOf(g[0]) + Shown(g[1..])
  }

  lemma {:induction false} RawJoins(a: seq<Glyph>, b: seq<Glyph>)
    ensures Raw(a + b) == Raw(a) + Raw(b)
  {
    if a == [] {
      assert a + b == b;
    } else {
      RawJoins(a[1..], b);
      assert (a + b)[1..] == a[1..] + b;
      Regroup(RawOf(a[0]), Raw(a[1..]), Raw(b));
    }
  }

  lemma {:induction false} MaskJoins(a: seq<Glyph>, b: seq<Glyph>)
    ensures Mask(a + b) == Mask(a) + Mask(b)
  {
    if a == [] {
      assert a + b == b;
    } else {
      MaskJoins(a[1..], b);
      assert (a + b)[1..] == a[1..] + b;
      var first := seq(|RawOf(a[0])|, _ => a[0].Redacted?);
      Regroup(first, Mask(a[1..]), Mask(b));
    }
  }

  lemma {:induction false} ShownJoins(a: seq<Glyph>, b: seq<Glyph>)
    ensures Shown(a + b) == Shown(a) + Shown(b)
  {
    if a == [] {
      assert a + b == b;
    } else {
      ShownJoins(a[1..], b);
      assert (a + b)[1..] == a[1..] + b;
      Regroup(ShownOf(a[0]), Shown(a[1..]), Shown(b));
    }
  }

  lemma {:induction false} PlainsShow(text: string)
    ensures Raw(Plains(text)) == text && Shown(Plains(text)) == text
    ensures forall i :: 0 <= i < |text| ==> !Mask(Plains(text))[i]
  {
    if text != "" {
      PlainsShow(text[1..]);
      assert Plains(text)[1..] == Plains(text[1..]);
    }
  }

  // ---------------------------------------------------------------- one pass over the whole text

  function Pass(text: string, secrets: seq<string>): seq<Glyph>
    requires NonEmpty(secrets)
    decreases |text|
  {
    var here := LongestHead(text, secrets);
    if here.Some? then [Redacted(here.value)] + Pass(text[|here.value|..], secrets)
    else if text == "" then []
    else [Plain(text[0])] + Pass(text[1..], secrets)
  }

  // ---------------------------------------------------------------- the text in pieces

  /** One turn of the loop: the characters before a match, and its mark. */
  function Turn(pending: string, m: Match): seq<Glyph>
    requires OccursAt(pending, m.index, m.secret)
  {
    Plains(pending[..m.index]) + [Redacted(m.secret)]
  }

  /** What draining emits, as glyphs and as the strings handed on, and what it keeps for later. */
  datatype Drain = Drain(glyphs: seq<Glyph>, pieces: seq<string>, rest: string)

  function Drained(pending: string, secrets: seq<string>, final: bool): Drain
    requires NonEmpty(secrets)
    decreases |pending|
  {
    if pending == "" then Drain([], [], "") else
    match Earliest(pending, secrets)
    case Some(m) =>
      var more := Drained(pending[m.index + |m.secret|..], secrets, final);
      Drain(Turn(pending, m) + more.glyphs, [pending[..m.index], MARKER] + more.pieces, more.rest)
    case None =>
      if final then Drain(Plains(pending), [pending], "") else
      var cut := |pending| - Held(pending, secrets);
      Drain(Plains(pending[..cut]), [pending[..cut]], pending[cut..])
  }

  /** Pushes the chunks one after the other, and flushes; `tail` is what the decoder holds until then. */
  function Streamed(pending: string, chunks: seq<string>, tail: string, secrets: seq<string>): seq<Glyph>
    requires NonEmpty(secrets)
    decreases |chunks|
  {
    if chunks == [] then Drained(pending + tail, secrets, true).glyphs else
    var d := Drained(pending + chunks[0], secrets, false);
    d.glyphs + Streamed(d.rest, chunks[1..], tail, secrets)
  }

  // ---------------------------------------------------------------- no occurrence goes by untouched

  predicate Touched(mask: seq<bool>, i: int, n: int) {
    exists k :: i <= k < i + n && 0 <= k < |mask| && mask[k]
  }

  /** Every occurrence in `text` that begins under `mask` is touched by it. */
  ghost predicate Covers(mask: seq<bool>, text: string, secrets: seq<string>) {
    forall i, s :: i < |mask| && s in secrets && OccursAt(text, i, s) ==> Touched(mask, i, |s|)
  }

  lemma LoneMark(secret: string)
    ensures Raw([Redacted(secret)]) == secret && Shown([Redacted(secret)]) == MARKER
    ensures Mask([Redacted(secret)]) == seq(|secret|, _ => true)
    ensures Raw([]) == "" && Shown([]) == ""
  {
    assert [Redacted(secret)][1..] == [];
  }

  lemma TurnHides(pending: string, m: Match)
    requires OccursAt(pending, m.index, m.secret)
    ensures forall k :: m.index <= k < m.index + |m.secret| ==>
              k < |Mask(Turn(pending, m))| && Mask(Turn(pending, m))[k]
  {
    hide Raw, Shown, Mask, Plains;
    var before := Plains(pending[..m.index]);
    PlainsShow(pending[..m.index]);
    MaskJoins(before, [Redacted(m.secret)]);
    LoneMark(m.secret);
    assert |Mask(before)| == m.index;
    assert Mask(Turn(pending, m)) == Mask(before) + seq(|m.secret|, _ => true);
  }

  lemma TurnIsExact(pending: string, m: Match)
    requires OccursAt(pending, m.index, m.secret)
    ensures Raw(Turn(pending, m)) == pending[..m.index + |m.secret|]
    ensures Shown(Turn(pending, m)) == pending[..m.index] + MARKER
  {
    hide Raw, Shown, Mask, Plains;
    PlainsShow(pending[..m.index]);
    RawJoins(Plains(pending[..m.index]), [Redacted(m.secret)]);
    ShownJoins(Plains(pending[..m.index]), [Redacted(m.secret)]);
    LoneMark(m.secret);
    assert pending[..m.index] + m.secret == pending[..m.index + |m.secret|];
  }

  /** One turn of draining, or its end. */
  lemma DrainStep(pending: string, secrets: seq<string>, final: bool)
    requires NonEmpty(secrets)
    ensures
      var d := Drained(pending, secrets, final);
      if pending == "" then d == Drain([], [], "") else
      match Earliest(pending, secrets)
      case Some(m) =>
        var more := Drained(pending[m.index + |m.secret|..], secrets, final);
        d == Drain(Turn(pending, m) + more.glyphs, [pending[..m.index], MARKER] + more.pieces, more.rest)
      case None =>
        var cut := if final then |pending| else |pending| - Held(pending, secrets);
        d == Drain(Plains(pending[..cut]), [pending[..cut]], pending[cut..])
  {
    hide LongestHead, IsEarliest, Earliest, Held, IsHeld, Turn, Plains;
    assert pending[..|pending|] == pending && pending[|pending|..] == "";
  }

  lemma {:induction false} DrainKeepsText(pending: string, secrets: seq<string>, final: bool)
    requires NonEmpty(secrets)
    ensures Raw(Drained(pending, secrets, final).glyphs) + Drained(pending, secrets, final).rest == pending
    ensures final ==> Drained(pending, secrets, final).rest == ""
    decreases |pending|
  {
    hide LongestHead, IsEarliest, Earliest, Held, IsHeld, Mask, Raw, Shown, Turn, Plains, Drained;
    LoneMark("");
    DrainStep(pending, secrets, final);
    if pending != "" {
      match Earliest(pending, secrets)
      case Some(m) =>
        var tail := pending[m.index + |m.secret|..];
        DrainKeepsText(tail, secrets, final);
        TurnIsExact(pending, m);
        var more := Drained(tail, secrets, final);
        RawJoins(Turn(pending, m), more.glyphs);
        Regroup(Raw(Turn(pending, m)), Raw(more.glyphs), more.rest);
        assert pending[..m.index + |m.secret|] + tail == pending;
      case None =>
        var cut := if final then |pending| else |pending| - Held(pending, secrets);
        PlainsShow(pending[..cut]);
        assert pending[..cut] + pending[cut..] == pending;
    }
  }

  lemma {:induction false} DrainShowsPieces(pending: string, secrets: seq<string>, final: bool)
    requires NonEmpty(secrets)
    ensures Shown(Drained(pending, secrets, final).glyphs) == Flatten(Drained(pending, secrets, final).pieces)
    decreases |pending|
  {
    hide LongestHead, IsEarliest, Earliest, Held, IsHeld, Mask, Raw, Shown, Turn, Plains, Flatten, Drained;
    LoneMark("");
    FlattenTwo("", "", []);
    DrainStep(pending, secrets, final);
    if pending != "" {
      match Earliest(pending, secrets)
      case Some(m) =>
        var more := Drained(pending[m.index + |m.secret|..], secrets, final);
        DrainShowsPieces(pending[m.index + |m.secret|..], secrets, final);
        TurnIsExact(pending, m);
        ShownJoins(Turn(pending, m), more.glyphs);
        FlattenTwo(pending[..m.index], MARKER, more.pieces);
      case None =>
        var cut := if final then |pending| else |pending| - Held(pending, secrets);
        PlainsShow(pending[..cut]);
        FlattenTwo(pending[..cut], "", []);
    }
  }

  /** A longer text has an occurrence where the shorter one has it. */
  lemma OccursInside(text: string, future: string, i: int, s: string)
    requires i + |s| <= |text|
    ensures OccursAt(text + future, i, s) <==> OccursAt(text, i, s)
  {
    if 0 <= i {
      assert (text + future)[i..i + |s|] == text[i..i + |s|];
    }
  }

  lemma OccursAfter(text: string, n: nat, i: int, s: string)
    requires n <= |text| && n <= i
    ensures OccursAt(text, i, s) <==> OccursAt(text[n..], i - n, s)
  {
    if i + |s| <= |text| {
      assert text[i..i + |s|] == text[n..][i - n..i - n + |s|];
    }
  }

  /** An occurrence that reaches past the end of what is there would be held back. */
  lemma ReachingOutIsHeld(pending: string, future: string, secrets: seq<string>, i: nat, s: string)
    requires s in secrets && i <= |pending| < i + |s| && OccursAt(pending + future, i, s)
    ensures IsHeld(pending, secrets, |pending| - i)
  {
    var n := |pending| - i;
    assert s[..n] == (pending + future)[i..i + |s|][..n] == pending[i..];
  }

  lemma NothingStartsBefore(pending: string, future: string, secrets: seq<string>, final: bool, cut: nat)
    requires NonEmpty(secrets) && Earliest(pending, secrets).None? && (final ==> future == "")
    requires cut == if final then |pending| else |pending| - Held(pending, secrets)
    ensures forall i, s :: i < cut && s in secrets ==> !OccursAt(pending + future, i, s)
  {
    forall i, s | i < cut && s in secrets
      ensures !OccursAt(pending + future, i, s)
    {
      if OccursAt(pending + future, i, s) {
        if i + |s| <= |pending| {
          OccursInside(pending, future, i, s);
        } else {
          ReachingOutIsHeld(pending, future, secrets, i, s);
        }
        assert false;
      }
    }
  }

  lemma UncutCovers(pending: string, future: string, secrets: seq<string>, final: bool)
    requires NonEmpty(secrets) && pending != "" && Earliest(pending, secrets).None?
    requires final ==> future == ""
    ensures Covers(Mask(Drained(pending, secrets, final).glyphs), pending + future, secrets)
  {
    var g := Drained(pending, secrets, final).glyphs;
    var cut := if final then |pending| else |pending| - Held(pending, secrets);
    assert pending[..|pending|] == pending;
    PlainsShow(pending[..cut]);
    NothingStartsBefore(pending, future, secrets, final, cut);
  }

  lemma TurnCovers(pending: string, future: string, secrets: seq<string>, m: Match)
    requires NonEmpty(secrets) && IsEarliest(pending, secrets, Some(m))
    ensures Covers(Mask(Turn(pending, m)), pending + future, secrets)
  {
    hide Turn, Mask, Raw, Shown;
    var mask := Mask(Turn(pending, m));
    TurnIsExact(pending, m);
    TurnHides(pending, m);
    forall i, s | i < |mask| && s in secrets && OccursAt(pending + future, i, s)
      ensures Touched(mask, i, |s|)
    {
      if i < m.index {
        if i + |s| <= |pending| {
          OccursInside(pending, future, i, s);
          assert false;
        }
        assert mask[m.index];
      } else {
        assert mask[i];
      }
    }
  }

  lemma JoinCovers(a: seq<bool>, b: seq<bool>, text: string, secrets: seq<string>)
    requires |a| <= |text| && Covers(a, text, secrets) && Covers(b, text[|a|..], secrets)
    ensures Covers(a + b, text, secrets)
  {
    forall i, s | i < |a + b| && s in secrets && OccursAt(text, i, s)
      ensures Touched(a + b, i, |s|)
    {
      if i < |a| {
        var k :| i <= k < i + |s| && 0 <= k < |a| && a[k];
        assert (a + b)[k];
      } else {
        OccursAfter(text, |a|, i, s);
        var k :| i - |a| <= k < i - |a| + |s| && 0 <= k < |b| && b[k];
        assert (a + b)[|a| + k];
      }
    }
  }

  lemma {:induction false} DrainCovers(pending: string, future: string, secrets: seq<string>, final: bool)
    requires NonEmpty(secrets) && (final ==> future == "")
    ensures Covers(Mask(Drained(pending, secrets, final).glyphs), pending + future, secrets)
    decreases |pending|
  {
    hide LongestHead, IsEarliest, Earliest, IsHeld, Held, Raw, Mask, Shown, Turn, Covers, Drained;
    DrainStep(pending, secrets, final);
    if pending == "" {
      EmptyCovers(pending + future, secrets);
    } else {
      match Earliest(pending, secrets)
      case Some(m) =>
        var n := m.index + |m.secret|;
        DrainCovers(pending[n..], future, secrets, final);
        TurnCovers(pending, future, secrets, m);
        TurnIsExact(pending, m);
        assert (pending + future)[n..] == pending[n..] + future;
        var more := Drained(pending[n..], secrets, final).glyphs;
        JoinCovers(Mask(Turn(pending, m)), Mask(more), pending + future, secrets);
        MaskJoins(Turn(pending, m), more);
      case None => UncutCovers(pending, future, secrets, final);
    }
  }

  lemma EmptyCovers(text: string, secrets: seq<string>)
    requires NonEmpty(secrets)
    ensures Covers(Mask([]), text, secrets)
  {
  }

  lemma {:induction false} StreamCovers(pending: string, chunks: seq<string>, tail: string, secrets: seq<string>)
    requires NonEmpty(secrets)
    ensures Raw(Streamed(pending, chunks, tail, secrets)) == pending + (Flatten(chunks) + tail)
    ensures Covers(Mask(Streamed(pending, chunks, tail, secrets)), pending + (Flatten(chunks) + tail), secrets)
    decreases |chunks|
  {
    hide Drained, Raw, Mask, Covers;
    if chunks == [] {
      assert Flatten(chunks) + tail == tail;
      DrainKeepsText(pending + tail, secrets, true);
      DrainCovers(pending + tail, "", secrets, true);
      assert pending + tail + "" == pending + tail;
    } else {
      var d := Drained(pending + chunks[0], secrets, false);
      var future := Flatten(chunks[1..]) + tail;
      var more := Streamed(d.rest, chunks[1..], tail, secrets);
      var text := pending + (Flatten(chunks) + tail);
      Regroup(chunks[0], Flatten(chunks[1..]), tail);
      Regroup(pending, chunks[0], future);
      DrainKeepsText(pending + chunks[0], secrets, false);
      DrainCovers(pending + chunks[0], future, secrets, false);
      StreamCovers(d.rest, chunks[1..], tail, secrets);
      RawJoins(d.glyphs, more);
      Regroup(Raw(d.glyphs), d.rest, future);
      MaskJoins(d.glyphs, more);
      assert text[|Mask(d.glyphs)|..] == d.rest + future;
      JoinCovers(Mask(d.glyphs), Mask(more), text, secrets);
    }
  }

  /**
   * For every set of secrets, every text and every way of cutting it, each occurrence of a secret
   * overlaps a redaction; and nothing but secrets is redacted away.
   */
  lemma EveryOccurrenceIsTouched(chunks: seq<string>, tail: string, secrets: seq<string>, i: int, s: string)
    requires NonEmpty(secrets) && s in secrets && OccursAt(Flatten(chunks) + tail, i, s)
    ensures Raw(Streamed("", chunks, tail, secrets)) == Flatten(chunks) + tail
    ensures Touched(Mask(Streamed("", chunks, tail, secrets)), i, |s|)
  {
    hide Streamed, Raw, Mask, Flatten;
    StreamCovers("", chunks, tail, secrets);
    assert "" + (Flatten(chunks) + tail) == Flatten(chunks) + tail;
    assert s != "";
  }

  // ---------------------------------------------------------------- when cutting makes no difference

  /** Some secret occurs in another one and ends before it does. */
  predicate CutShort(secrets: seq<string>) {
    exists s, t, i :: s in secrets && t in secrets && 0 <= i < |t| && OccursAt(t, i, s) && i + |s| < |t|
  }

  lemma PlainsFirst(text: string, n: nat)
    requires 0 < n <= |text|
    ensures Plains(text[..n]) == [Plain(text[0])] + Plains(text[1..][..n - 1])
  {
  }

  lemma {:induction false} PassSkips(text: string, secrets: seq<string>, n: nat)
    requires NonEmpty(secrets) && n <= |text|
    requires forall i, s :: i < n && s in secrets ==> !OccursAt(text, i, s)
    ensures Pass(text, secrets) == Plains(text[..n]) + Pass(text[n..], secrets)
    decreases |text|
  {
    hide LongestHead, Plains;
    if n == 0 {
      assert text[n..] == text;
    } else {
      assert LongestHead(text, secrets).None?;
      forall i, s | i < n - 1 && s in secrets
        ensures !OccursAt(text[1..], i, s)
      {
        if 0 <= i {
          OccursInTail(text, i, s);
        }
      }
      PassSkips(text[1..], secrets, n - 1);
      assert text[1..][n - 1..] == text[n..];
      PlainsFirst(text, n);
      Regroup([Plain(text[0])], Plains(text[1..][..n - 1]), Pass(text[n..], secrets));
    }
  }

  lemma PassTurns(text: string, secrets: seq<string>, m: Match)
    requires NonEmpty(secrets) && IsEarliest(text, secrets, Some(m))
    ensures Pass(text, secrets) == Turn(text, m) + Pass(text[m.index + |m.secret|..], secrets)
  {
    hide LongestHead, Plains, Pass;
    PassSkips(text, secrets, m.index);
    var tail := text[m.index..];
    OccursAfter(text, m.index, m.index, m.secret);
    var head := LongestHead(tail, secrets);
    assert head.Some?;
    OccursAfter(text, m.index, m.index, head.value);
    assert head.value == m.secret;
    PassOfHead(tail, secrets, m.secret);
    assert tail[|m.secret|..] == text[m.index + |m.secret|..];
    Regroup(Plains(text[..m.index]), [Redacted(m.secret)], Pass(tail[|m.secret|..], secrets));
  }

  lemma PassOfHead(text: string, secrets: seq<string>, head: string)
    requires NonEmpty(secrets) && LongestHead(text, secrets) == Some(head)
    ensures Pass(text, secrets) == [Redacted(head)] + Pass(text[|head|..], secrets)
  {
    hide LongestHead;
  }

  lemma OccursWithin(text: string, i: nat, s: string, j: nat, t: string)
    requires OccursAt(text, i, s) && OccursAt(text, j, t) && i <= j && j + |t| <= i + |s|
    ensures OccursAt(s, j - i, t)
  {
    assert forall n :: 0 <= n < |s| ==> s[n] == text[i..i + |s|][n] == text[i + n];
    assert forall n :: 0 <= n < |t| ==> t[n] == text[j..j + |t|][n] == text[j + n];
    assert s[j - i..j - i + |t|] == t;
  }

  /** Later text cannot change the earliest match, unless it completes a secret around it. */
  lemma EarliestStays(pending: string, future: string, secrets: seq<string>, m: Match)
    requires NonEmpty(secrets) && !CutShort(secrets) && IsEarliest(pending, secrets, Some(m))
    ensures IsEarliest(pending + future, secrets, Some(m))
  {
    var text := pending + future;
    OccursInside(pending, future, m.index, m.secret);
    forall i, s | s in secrets && i <= m.index && OccursAt(text, i, s)
      ensures i == m.index && |s| <= |m.secret|
    {
      if i + |s| <= |pending| {
        OccursInside(pending, future, i, s);
      } else {
        OccursWithin(text, i, s, m.index, m.secret);
        assert false;
      }
    }
  }

  lemma UncutIsPass(pending: string, future: string, secrets: seq<string>, final: bool, cut: nat)
    requires NonEmpty(secrets) && Earliest(pending, secrets).None? && (final ==> future == "")
    requires cut == if final then |pending| else |pending| - Held(pending, secrets)
    ensures Pass(pending + future, secrets) == Plains(pending[..cut]) + Pass(pending[cut..] + future, secrets)
  {
    hide LongestHead, Pass, Plains;
    NothingStartsBefore(pending, future, secrets, final, cut);
    PassSkips(pending + future, secrets, cut);
    assert (pending + future)[..cut] == pending[..cut];
    assert (pending + future)[cut..] == pending[cut..] + future;
  }

  lemma {:induction false} DrainIsPass(pending: string, future: string, secrets: seq<string>, final: bool)
    requires NonEmpty(secrets) && !CutShort(secrets) && (final ==> future == "")
    ensures var d := Drained(pending, secrets, final);
            Pass(pending + future, secrets) == d.glyphs + Pass(d.rest + future, secrets)
    decreases |pending|
  {
    hide LongestHead, IsEarliest, Earliest, IsHeld, Held, Turn, Plains, Pass, CutShort, Drained;
    DrainStep(pending, secrets, final);
    var text := pending + future;
    if pending != "" {
      match Earliest(pending, secrets)
      case Some(m) =>
        var n := m.index + |m.secret|;
        DrainIsPass(pending[n..], future, secrets, final);
        EarliestStays(pending, future, secrets, m);
        PassTurns(text, secrets, m);
        assert text[n..] == pending[n..] + future;
        var d := Drained(pending[n..], secrets, final);
        Regroup(Turn(pending, m), d.glyphs, Pass(d.rest + future, secrets));
        SameTurn(pending, future, m);
      case None =>
        var cut := if final then |pending| else |pending| - Held(pending, secrets);
        UncutIsPass(pending, future, secrets, final, cut);
        assert pending[..|pending|] == pending && pending[|pending|..] == "";
    }
  }

  lemma SameTurn(pending: string, future: string, m: Match)
    requires OccursAt(pending, m.index, m.secret) && OccursAt(pending + future, m.index, m.secret)
    ensures Turn(pending, m) == Turn(pending + future, m)
  {
    assert (pending + future)[..m.index] == pending[..m.index];
  }

  lemma {:induction false} StreamIsPass(pending: string, chunks: seq<string>, tail: string, secrets: seq<string>)
    requires NonEmpty(secrets) && !CutShort(secrets)
    ensures Streamed(pending, chunks, tail, secrets) == Pass(pending + (Flatten(chunks) + tail), secrets)
    decreases |chunks|
  {
    hide Drained, Pass, CutShort;
    if chunks == [] {
      assert Flatten(chunks) + tail == tail;
      DrainKeepsText(pending + tail, secrets, true);
      DrainIsPass(pending + tail, "", secrets, true);
      PassOfNothing(secrets);
      assert pending + tail + "" == pending + tail && "" + "" == "";
    } else {
      var d := Drained(pending + chunks[0], secrets, false);
      var future := Flatten(chunks[1..]) + tail;
      Regroup(chunks[0], Flatten(chunks[1..]), tail);
      Regroup(pending, chunks[0], future);
      DrainIsPass(pending + chunks[0], future, secrets, false);
      StreamIsPass(d.rest, chunks[1..], tail, secrets);
    }
  }

  lemma PassOfNothing(secrets: seq<string>)
    requires NonEmpty(secrets)
    ensures Pass("", secrets) == []
  {
  }

  lemma DrainStarts(pending: string, secrets: seq<string>, i: nat, s: string)
    requires NonEmpty(secrets) && s in secrets && OccursAt(pending, i, s)
    ensures var g := Drained(pending, secrets, false).glyphs;
            g != [] && (g[0].Redacted? ==> |g[0].secret| <= |pending|)
  {
    hide LongestHead, Earliest, Held;
    var m := Earliest(pending, secrets).value;
    assert Turn(pending, m) <= Drained(pending, secrets, false).glyphs;
    assert m.index > 0 ==> Turn(pending, m)[0].Plain?;
  }

  lemma PassOfSecret(t: string, secrets: seq<string>)
    requires NonEmpty(secrets) && t in secrets
    ensures Pass(t, secrets) != [] && Pass(t, secrets)[0] == Redacted(t)
  {
    hide LongestHead;
    assert t[0..|t|] == t;
    assert OccursAt(t, 0, t);
    var head := LongestHead(t, secrets);
    assert head.value == t;
  }

  /** A secret cut just before its end shows the one that was complete by then. */
  lemma CutShortShows(secrets: seq<string>, t: string, s: string, i: nat)
    requires NonEmpty(secrets) && s in secrets && t in secrets && OccursAt(t, i, s) && i + |s| < |t|
    ensures var chunks := [t[..|t| - 1], t[|t| - 1..]];
            Flatten(chunks) + "" == t && Streamed("", chunks, "", secrets) != Pass(t, secrets)
  {
    hide Drained, Pass, Flatten;
    var start := t[..|t| - 1];
    var chunks := [start, t[|t| - 1..]];
    FlattenTwo(start, chunks[1], []);
    FlattenTwo(chunks[1], "", []);
    assert chunks + [] == chunks && start + chunks[1] + "" == t;
    assert start[i..i + |s|] == t[i..i + |s|];
    DrainStarts(start, secrets, i, s);
    PassOfSecret(t, secrets);
    assert "" + start == start;
    assert Drained(start, secrets, false).glyphs <= Streamed("", chunks, "", secrets);
  }

  /** Chunking never shows, on any text, exactly when no secret ends inside another. */
  lemma ChunkingIsInvisibleUnlessCutShort(secrets: seq<string>)
    requires NonEmpty(secrets)
    ensures (forall chunks, tail :: Streamed("", chunks, tail, secrets) == Pass(Flatten(chunks) + tail, secrets))
            <==> !CutShort(secrets)
  {
    hide Streamed, Pass, Flatten;
    if CutShort(secrets) {
      var s, t, i :| s in secrets && t in secrets && 0 <= i < |t| && OccursAt(t, i, s) && i + |s| < |t|;
      CutShortShows(secrets, t, s, i);
    } else {
      forall chunks, tail
        ensures Streamed("", chunks, tail, secrets) == Pass(Flatten(chunks) + tail, secrets)
      {
        StreamIsPass("", chunks, tail, secrets);
        assert "" + (Flatten(chunks) + tail) == Flatten(chunks) + tail;
      }
    }
  }

  /** What one pass shows, from match to match: the text before a match as it is, and a mark for the match. */
  lemma PassShows(text: string, secrets: seq<string>, m: Match)
    requires NonEmpty(secrets) && IsEarliest(text, secrets, Some(m))
    ensures
      Shown(Pass(text, secrets))
      == text[..m.index] + "[redacted]" + Shown(Pass(text[m.index + |m.secret|..], secrets))
  {
    hide Pass, Shown, Turn;
    PassTurns(text, secrets, m);
    TurnIsExact(text, m);
    ShownJoins(Turn(text, m), Pass(text[m.index + |m.secret|..], secrets));
  }

  /** Text without a secret is shown as it is. */
  lemma PassShowsPlain(text: string, secrets: seq<string>)
    requires NonEmpty(secrets) && forall i, s :: s in secrets ==> !OccursAt(text, i, s)
    ensures Shown(Pass(text, secrets)) == text
  {
    hide Pass, Shown;
    PassSkips(text, secrets, |text|);
    assert text[..|text|] == text && text[|text|..] == "";
    PassOfNothing(secrets);
    PlainsShow(text);
    assert Plains(text) + [] == Plains(text);
  }

  ghost predicate OnlySecrets(g: seq<Glyph>, secrets: seq<string>) {
    forall i :: 0 <= i < |g| && g[i].Redacted? ==> g[i].secret in secrets
  }

  lemma {:induction false} DrainHidesOnlySecrets(pending: string, secrets: seq<string>, final: bool)
    requires NonEmpty(secrets)
    ensures OnlySecrets(Drained(pending, secrets, final).glyphs, secrets)
    decreases |pending|
  {
    hide LongestHead, Earliest, Held, IsHeld, Drained;
    DrainStep(pending, secrets, final);
    if pending != "" {
      match Earliest(pending, secrets)
      case Some(m) => DrainHidesOnlySecrets(pending[m.index + |m.secret|..], secrets, final);
      case None =>
    }
  }

  /** However the text is cut, each mark stands for a secret: nothing else is hidden. */
  lemma {:induction false} OnlySecretsAreHidden(pending: string, chunks: seq<string>, tail: string,
                                                secrets: seq<string>)
    requires NonEmpty(secrets)
    ensures OnlySecrets(Streamed(pending, chunks, tail, secrets), secrets)
    ensures Raw(Streamed(pending, chunks, tail, secrets)) == pending + Flatten(chunks) + tail
    decreases |chunks|
  {
    hide Drained, Raw;
    StreamCovers(pending, chunks, tail, secrets);
    if chunks == [] {
      DrainHidesOnlySecrets(pending + tail, secrets, true);
    } else {
      var d := Drained(pending + chunks[0], secrets, false);
      DrainHidesOnlySecrets(pending + chunks[0], secrets, false);
      OnlySecretsAreHidden(d.rest, chunks[1..], tail, secrets);
    }
  }
}

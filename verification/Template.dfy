/** `{{ expr }}` templates: finding the placeholders and splicing their values in place
    (workflow_template.py). */
module Template {
  import opened Prelude
  import opened SafeEval

  /** A placeholder: t[start..end] is "{{" + expression + "}}". */
  datatype Span = Span(start: nat, end: nat)

  /** What rendering yields: a text, or the raw value of a template that is one whole placeholder. */
  datatype Rendered<V> = Text(text: string) | Raw(value: V)

  /** The evaluator, the display function and the whitespace test rendering relies on. */
  datatype Env<!V> = Env(eval: string -> Result<V>, show: V -> string, space: char -> bool)

  // ---------------------------------------------------------------- placeholders

  predicate ClosesAt(t: string, j: nat) {
    j + 2 <= |t| && t[j] == '}' && t[j + 1] == '}'
  }

  function FirstClose(t: string, j: nat): (r: Option<nat>)
    ensures r.Some? ==> j <= r.value && ClosesAt(t, r.value) && forall k :: j <= k < r.value ==> !ClosesAt(t, k)
    ensures r.None? ==> forall k :: j <= k ==> !ClosesAt(t, k)
    decreases |t| - j
  {
    if j + 2 > |t| then None else if ClosesAt(t, j) then Some(j) else FirstClose(t, j + 1)
  }

  /** The shortest match of the placeholder pattern at i: two opening braces, at least one character,
      and the first closing pair after it. */
  function MatchAt(t: string, i: nat): Option<Span> {
    if i + 2 <= |t| && t[i] == '{' && t[i + 1] == '{' then
      match FirstClose(t, i + 3) { case None => None case Some(j) => Some(Span(i, j + 2)) }
    else None
  }

  /** The leftmost non-overlapping matches from `from` on. */
  function Spans(t: string, from: nat): seq<Span>
    decreases |t| - from
  {
    if from >= |t| then []
    else match MatchAt(t, from)
         case None => Spans(t, from + 1)
         case Some(m) => [m] + Spans(t, m.end)
  }

  /** Where the gap before placeholder k starts. */
  function GapStart(spans: seq<Span>, k: nat): nat
    requires k <= |spans|
  {
    if k == 0 then 0 else spans[k - 1].end
  }

  predicate Separated(t: string, spans: seq<Span>) {
    && (forall k :: 0 <= k < |spans| ==> spans[k].start + 5 <= spans[k].end <= |t|)
    && (forall j, k :: 0 <= j < k < |spans| ==> spans[j].end <= spans[k].start)
  }

  predicate AreMatches(t: string, spans: seq<Span>, from: nat) {
    forall k :: 0 <= k < |spans| ==> from <= spans[k].start && MatchAt(t, spans[k].start) == Some(spans[k])
  }

  /** The placeholders found are in order and disjoint, and each is a match. */
  lemma {:induction false} SpansAreMatches(t: string, from: nat)
    ensures Separated(t, Spans(t, from)) && AreMatches(t, Spans(t, from), from)
    decreases |t| - from
  {
    if from < |t| {
      match MatchAt(t, from)
      case None => SpansAreMatches(t, from + 1);
      case Some(m) =>
        SpansAreMatches(t, m.end);
        Prepend(t, m, Spans(t, m.end));
    }
  }

  lemma Prepend(t: string, m: Span, rest: seq<Span>)
    requires MatchAt(t, m.start) == Some(m) && Separated(t, rest) && AreMatches(t, rest, m.end)
    ensures Separated(t, [m] + rest) && AreMatches(t, [m] + rest, m.start)
  {}

  predicate Covers(spans: seq<Span>, i: nat) {
    exists k :: 0 <= k < |spans| && spans[k].start <= i < spans[k].end
  }

  /** No placeholder is overlooked: every position where the pattern matches lies in one of those
      found. */
  lemma {:induction false} SpansAreComplete(t: string, from: nat, i: nat)
    requires from <= i < |t| && MatchAt(t, i).Some?
    ensures Covers(Spans(t, from), i)
    decreases |t| - from
  {
    match MatchAt(t, from)
    case None =>
      SpansAreComplete(t, from + 1, i);
    case Some(m) =>
      if i < m.end {
        assert Spans(t, from)[0] == m;
      } else {
        SpansAreComplete(t, m.end, i);
        var rest := Spans(t, m.end);
        var k :| 0 <= k < |rest| && rest[k].start <= i < rest[k].end;
        assert Spans(t, from)[k + 1] == rest[k];
      }
  }

  lemma SpansAreSeparated(t: string)
    ensures Separated(t, Spans(t, 0))
  {
    SpansAreMatches(t, 0);
  }

  function Inner(t: string, s: Span): string
    requires s.start + 5 <= s.end <= |t|
  {
    t[s.start + 2..s.end - 2]
  }

  /** A placeholder is its expression between double braces, and the expression, which is never empty,
      ends at the first closing pair after its first character. */
  lemma PlaceholderMeaning(t: string, k: nat)
    requires k < |Spans(t, 0)|
    ensures var s := Spans(t, 0)[k];
      && s.start + 5 <= s.end <= |t| && |Inner(t, s)| >= 1
      && t[s.start..s.end] == "{{" + Inner(t, s) + "}}"
      && forall j :: s.start + 3 <= j < s.end - 2 ==> t[j] != '}' || t[j + 1] != '}'
  {
    SpansAreMatches(t, 0);
    var s := Spans(t, 0)[k];
    assert MatchAt(t, s.start) == Some(s) && ClosesAt(t, s.end - 2);
    Braced(t, s.start, s.end);
    forall j | s.start + 3 <= j < s.end - 2 ensures t[j] != '}' || t[j + 1] != '}' { assert !ClosesAt(t, j); }
  }

  lemma Braced(t: string, a: nat, b: nat)
    requires a + 4 <= b <= |t| && t[a] == t[a + 1] == '{' && t[b - 2] == t[b - 1] == '}'
    ensures t[a..b] == "{{" + t[a + 2..b - 2] + "}}"
  {
    assert t[a..b] == [t[a], t[a + 1]] + t[a + 2..b - 2] + [t[b - 2], t[b - 1]];
  }

  /** A template is one whole placeholder when the match starts it and ends where the text stripped of
      outer whitespace is as long. */
  predicate IsWhole<V>(env: Env<V>, t: string, spans: seq<Span>) {
    |spans| == 1 && spans[0].start == 0 && spans[0].end == |Strip(env.space, t)|
  }

  function StripRight(space: char -> bool, t: string): (r: string)
    ensures |r| <= |t| && r == t[..|r|]
    ensures r == [] || !space(r[|r| - 1])
    ensures forall i :: |r| <= i < |t| ==> space(t[i])
  {
    if t != [] && space(t[|t| - 1]) then StripRight(space, t[..|t| - 1]) else t
  }

  function StripLeft(space: char -> bool, t: string): (r: string)
    ensures |r| <= |t| && r == t[|t| - |r|..]
    ensures r == [] || !space(r[0])
    ensures forall i :: 0 <= i < |t| - |r| ==> space(t[i])
  {
    if t != [] && space(t[0]) then
      var r := StripLeft(space, t[1..]);
      assert forall i :: 1 <= i < |t| ==> t[i] == t[1..][i - 1];
      r
    else t
  }

  function Strip(space: char -> bool, t: string): string {
    StripLeft(space, StripRight(space, t))
  }

  /** The raw-value case is exactly: the first placeholder opens the text and only whitespace follows
      it. Whitespace before it, unlike after it, turns the result into text. */
  lemma WholeMeaning<V>(env: Env<V>, t: string)
    requires !env.space('{') && !env.space('}')
    ensures var spans := Spans(t, 0);
      IsWhole(env, t, spans) <==>
        (|spans| >= 1 && spans[0].start == 0 && forall i :: spans[0].end <= i < |t| ==> env.space(t[i]))
  {
    var spans := Spans(t, 0);
    SpansAreMatches(t, 0);
    if |spans| >= 1 && spans[0].start == 0 {
      var end := spans[0].end;
      assert MatchAt(t, 0) == Some(spans[0]) && t[0] == '{' && ClosesAt(t, end - 2);
      StripAfter(env.space, t, end);
      if |spans| > 1 {
        assert MatchAt(t, spans[1].start) == Some(spans[1]);
        assert end <= spans[1].start && t[spans[1].start] == '{';
      }
    }
  }

  lemma StripKeeps(space: char -> bool, t: string, i: nat)
    requires i < |t| && !space(t[i])
    ensures i < |StripRight(space, t)|
  {}

  lemma StripAfter(space: char -> bool, t: string, end: nat)
    requires 0 < end <= |t| && !space(t[0]) && !space(t[end - 1])
    ensures |Strip(space, t)| == end <==> forall i :: end <= i < |t| ==> space(t[i])
  {
    var right := StripRight(space, t);
    StripKeeps(space, t, end - 1);
    assert right[0] == t[0];
    assert Strip(space, t) == right;
    assert |right| > end ==> !space(t[|right| - 1]);
  }

  // ---------------------------------------------------------------- rendering

  function ValueAt<V>(env: Env<V>, t: string, spans: seq<Span>, k: nat): Result<V>
    requires Separated(t, spans) && k < |spans|
  {
    env.eval(Inner(t, spans[k]))
  }

  predicate AllEvaluate<V>(env: Env<V>, t: string, spans: seq<Span>, from: int)
    requires Separated(t, spans)
  {
    forall i :: 0 <= i < |spans| && from <= i ==> ValueAt(env, t, spans, i).Ok?
  }

  /** What each placeholder is replaced with. */
  function Shown<V>(env: Env<V>, t: string, spans: seq<Span>): nat -> string
    requires Separated(t, spans)
  {
    (k: nat) =>
      if k < |spans| && Separated(t, spans) && ValueAt(env, t, spans, k).Ok? then
        env.show(ValueAt(env, t, spans, k).value)
      else ""
  }

  /** The rendered text after placeholder k - 1: the gap before placeholder k, its replacement, and
      what follows. */
  function Splice(t: string, spans: seq<Span>, shown: nat -> string, k: nat): string
    requires Separated(t, spans) && k <= |spans|
    decreases |spans| - k
  {
    if k == |spans| then t[GapStart(spans, k)..]
    else t[GapStart(spans, k)..spans[k].start] + shown(k) + Splice(t, spans, shown, k + 1)
  }

  /** Renders as the template says: no placeholder leaves the text alone, a whole placeholder keeps
      its value's type, a failing expression fails the template (the last one in the text decides
      how), and otherwise gaps and values are concatenated from left to right. */
  ghost predicate Renders<V>(env: Env<V>, t: string, r: Result<Rendered<V>>) {
    SpansAreSeparated(t);
    RendersSpans(env, t, Spans(t, 0), r)
  }

  ghost predicate RendersSpans<V>(env: Env<V>, t: string, spans: seq<Span>, r: Result<Rendered<V>>)
    requires Separated(t, spans)
  {
    if spans == [] then r == Ok(Text(t))
    else if IsWhole(env, t, spans) then r == Lift(ValueAt(env, t, spans, 0))
    else if AllEvaluate(env, t, spans, 0) then r == Ok(Text(Splice(t, spans, Shown(env, t, spans), 0)))
    else exists k :: 0 <= k < |spans| && IsLastFailure(env, t, spans, k) && r == Lift(ValueAt(env, t, spans, k))
  }

  predicate IsLastFailure<V>(env: Env<V>, t: string, spans: seq<Span>, k: nat)
    requires Separated(t, spans)
  {
    k < |spans| && !ValueAt(env, t, spans, k).Ok? && AllEvaluate(env, t, spans, k + 1)
  }

  function Lift<V>(r: Result<V>): Result<Rendered<V>> {
    match r
    case Ok(v) => Ok(Raw(v))
    case NotAllowed => NotAllowed
    case Raised(e) => Raised(e)
    case TooDeep => TooDeep
  }

  /** The splice runs from the last placeholder to the first, in the growing text, with the offsets
      found in the original one. */
  method RenderTemplate<V>(env: Env<V>, t: string) returns (r: Result<Rendered<V>>)
    ensures Renders(env, t, r)
  {
    var spans := Spans(t, 0);
    SpansAreSeparated(t);
    if spans == [] { return Ok(Text(t)); }
    if IsWhole(env, t, spans) { return Lift(env.eval(Inner(t, spans[0]))); }
    r := SpliceValues(env, t, spans);
  }

  method SpliceValues<V>(env: Env<V>, t: string, spans: seq<Span>) returns (r: Result<Rendered<V>>)
    requires Separated(t, spans)
    ensures AllEvaluate(env, t, spans, 0) ==> r == Ok(Text(Splice(t, spans, Shown(env, t, spans), 0)))
    ensures !AllEvaluate(env, t, spans, 0) ==>
      exists k :: 0 <= k < |spans| && IsLastFailure(env, t, spans, k) && r == Lift(ValueAt(env, t, spans, k))
  {
    ghost var shown := Shown(env, t, spans);
    var result := t;
    var k := |spans|;
    NothingSpliced(t, spans, shown);
    while k > 0
      invariant 0 <= k <= |spans| && AllEvaluate(env, t, spans, k)
      invariant IsSplicedFrom(result, t, spans, shown, k)
    {
      var s := spans[k - 1];
      var value := env.eval(Inner(t, s));
      if !value.Ok? {
        assert IsLastFailure(env, t, spans, k - 1);
        return Lift(value);
      }
      ValueSpliced(env, t, spans, k - 1, result);
      result := result[..s.start] + env.show(value.value) + result[s.end..];
      k := k - 1;
    }
    SplicedWhole(t, spans, shown, result);
    r := Ok(Text(result));
  }

  /** Replaced from placeholder k on, the text before it still that of the template. */
  predicate IsSplicedFrom(result: string, t: string, spans: seq<Span>, shown: nat -> string, k: nat)
    requires Separated(t, spans) && k <= |spans|
  {
    GapStart(spans, k) <= |t| && result == t[..GapStart(spans, k)] + Splice(t, spans, shown, k)
  }

  lemma NothingSpliced(t: string, spans: seq<Span>, shown: nat -> string)
    requires Separated(t, spans)
    ensures IsSplicedFrom(t, t, spans, shown, |spans|)
  {}

  lemma SplicedWhole(t: string, spans: seq<Span>, shown: nat -> string, result: string)
    requires Separated(t, spans) && IsSplicedFrom(result, t, spans, shown, 0)
    ensures result == Splice(t, spans, shown, 0)
  {
    assert t[..0] == "";
  }

  lemma ValueSpliced<V>(env: Env<V>, t: string, spans: seq<Span>, k: nat, result: string)
    requires Separated(t, spans) && k < |spans| && ValueAt(env, t, spans, k).Ok?
    requires IsSplicedFrom(result, t, spans, Shown(env, t, spans), k + 1)
    ensures GapStart(spans, k) <= spans[k].start <= spans[k].end <= |result|
    ensures var value := env.show(ValueAt(env, t, spans, k).value);
      IsSplicedFrom(result[..spans[k].start] + value + result[spans[k].end..], t, spans, Shown(env, t, spans), k)
  {
    SpliceStep(t, spans, Shown(env, t, spans), k, result);
  }

  /** One replacement: the offsets before and at the placeholder are still those of the template. */
  lemma SpliceStep(t: string, spans: seq<Span>, shown: nat -> string, k: nat, result: string)
    requires Separated(t, spans) && k < |spans|
    requires IsSplicedFrom(result, t, spans, shown, k + 1)
    ensures GapStart(spans, k) <= spans[k].start <= spans[k].end <= |result|
    ensures IsSplicedFrom(result[..spans[k].start] + shown(k) + result[spans[k].end..], t, spans, shown, k)
  {
    var s, gap, rest := spans[k], GapStart(spans, k), Splice(t, spans, shown, k + 1);
    assert result[s.end..] == rest;
    assert result[..s.start] == t[..gap] + t[gap..s.start];
    assert (t[..gap] + t[gap..s.start]) + shown(k) + rest == t[..gap] + (t[gap..s.start] + shown(k) + rest);
  }

  /** Each value appears verbatim at its own place, whatever it contains: the rendering is some prefix
      that does not depend on it, the replacement of placeholder k, and the rendering of the rest. */
  lemma {:induction false} ValueInPlace(t: string, spans: seq<Span>, shown: nat -> string, from: nat, k: nat)
    requires Separated(t, spans) && from <= k < |spans|
    ensures Splice(t, spans, shown, from)
         == Before(t, spans, shown, from, k) + shown(k) + Splice(t, spans, shown, k + 1)
    decreases k - from
  {
    if from < k {
      ValueInPlace(t, spans, shown, from + 1, k);
      OnePlaceEarlier(t, spans, shown, from, k, Splice(t, spans, shown, k + 1));
    }
  }

  lemma OnePlaceEarlier(t: string, spans: seq<Span>, shown: nat -> string, from: nat, k: nat, rest: string)
    requires Separated(t, spans) && from < k < |spans|
    requires Splice(t, spans, shown, from + 1) == Before(t, spans, shown, from + 1, k) + shown(k) + rest
    ensures Splice(t, spans, shown, from) == Before(t, spans, shown, from, k) + shown(k) + rest
  {
    var gap := t[GapStart(spans, from)..spans[from].start];
    Regroup(gap, shown(from), Before(t, spans, shown, from + 1, k), shown(k), rest);
  }

  lemma Regroup(a: string, b: string, c: string, d: string, e: string)
    ensures a + b + (c + d + e) == (a + b + c) + d + e
  {}

  /** The rendered text between placeholder `from` - 1 and placeholder k. */
  function Before(t: string, spans: seq<Span>, shown: nat -> string, from: nat, k: nat): string
    requires Separated(t, spans) && from <= k < |spans|
    decreases k - from
  {
    var gap := t[GapStart(spans, from)..spans[from].start];
    if from == k then gap else gap + shown(from) + Before(t, spans, shown, from + 1, k)
  }

  /** How much longer the replacements from k on are than their placeholders. */
  function Growth(spans: seq<Span>, shown: nat -> string, k: nat): int
    requires k <= |spans|
    decreases |spans| - k
  {
    if k == |spans| then 0
    else |shown(k)| - (spans[k].end - spans[k].start) + Growth(spans, shown, k + 1)
  }

  /** Nothing of the literal text is lost or repeated: the length changes by exactly what each value
      adds over its placeholder. */
  lemma {:induction false} SpliceLength(t: string, spans: seq<Span>, shown: nat -> string, k: nat)
    requires Separated(t, spans) && k <= |spans|
    ensures |Splice(t, spans, shown, k)| == |t| - GapStart(spans, k) + Growth(spans, shown, k)
    decreases |spans| - k
  {
    if k < |spans| { SpliceLength(t, spans, shown, k + 1); }
  }

  /** Values that show as their own placeholders give the template back. */
  lemma {:induction false} SelfSplice(t: string, spans: seq<Span>, shown: nat -> string, k: nat)
    requires Separated(t, spans) && k <= |spans|
    requires forall i :: k <= i < |spans| ==> shown(i) == t[spans[i].start..spans[i].end]
    ensures Splice(t, spans, shown, k) == t[GapStart(spans, k)..]
    decreases |spans| - k
  {
    if k < |spans| {
      SelfSplice(t, spans, shown, k + 1);
      var gap, s := GapStart(spans, k), spans[k];
      assert Splice(t, spans, shown, k) == t[gap..s.start] + shown(k) + Splice(t, spans, shown, k + 1);
      Rejoin(t, gap, s.start, s.end);
    }
  }

  lemma Rejoin(t: string, a: nat, b: nat, c: nat)
    requires a <= b <= c <= |t|
    ensures t[a..b] + t[b..c] + t[c..] == t[a..]
  {
  }

  /** Rendering depends on the evaluator only through the template's own expressions: whatever the
      inserted values contain, even placeholders, is never evaluated; and the outcome is unique. */
  lemma InsertedTextIsInert<V>(env: Env<V>, other: Env<V>, t: string, r: Result<Rendered<V>>, r': Result<Rendered<V>>)
    requires Renders(env, t, r) && Renders(other, t, r')
    requires env.show == other.show && env.space == other.space
    requires forall s :: s in Spans(t, 0) && s.start + 5 <= s.end <= |t| ==>
      env.eval(Inner(t, s)) == other.eval(Inner(t, s))
    ensures r == r'
  {
    var spans := Spans(t, 0);
    SpansAreSeparated(t);
    forall k | 0 <= k < |spans| ensures ValueAt(env, t, spans, k) == ValueAt(other, t, spans, k) {
      assert spans[k] in spans;
    }
    SameRendering(env, other, t, spans, r, r');
  }

  lemma SameRendering<V>(env: Env<V>, other: Env<V>, t: string, spans: seq<Span>, r: Result<Rendered<V>>,
      r': Result<Rendered<V>>)
    requires Separated(t, spans) && RendersSpans(env, t, spans, r) && RendersSpans(other, t, spans, r')
    requires env.show == other.show && env.space == other.space
    requires forall k :: 0 <= k < |spans| ==> ValueAt(env, t, spans, k) == ValueAt(other, t, spans, k)
    ensures r == r'
  {
    if spans != [] && !IsWhole(env, t, spans) {
      if AllEvaluate(env, t, spans, 0) {
        SameShown(env, other, t, spans);
        SameSplice(t, spans, Shown(env, t, spans), Shown(other, t, spans), 0);
      } else {
        var k :| 0 <= k < |spans| && IsLastFailure(env, t, spans, k) && r == Lift(ValueAt(env, t, spans, k));
        var k' :| 0 <= k' < |spans| && IsLastFailure(other, t, spans, k') && r' == Lift(ValueAt(other, t, spans, k'));
        assert k == k';
      }
    }
  }

  lemma SameShown<V>(env: Env<V>, other: Env<V>, t: string, spans: seq<Span>)
    requires Separated(t, spans) && env.show == other.show
    requires forall k :: 0 <= k < |spans| ==> ValueAt(env, t, spans, k) == ValueAt(other, t, spans, k)
    ensures forall i: nat :: i < |spans| ==> Shown(env, t, spans)(i) == Shown(other, t, spans)(i)
  {}

  lemma {:induction false} SameSplice(t: string, spans: seq<Span>, shown: nat -> string, shown': nat -> string, k: nat)
    requires Separated(t, spans) && k <= |spans|
    requires forall i: nat :: k <= i < |spans| ==> shown(i) == shown'(i)
    ensures Splice(t, spans, shown, k) == Splice(t, spans, shown', k)
    decreases |spans| - k
  {
    if k < |spans| { SameSplice(t, spans, shown, shown', k + 1); }
  }
}

/** Piecewise-linear scoring of a raw metric (normalizers/__init__.py). */
module Interpolation {
  import opened Prelude

  datatype Breakpoint = Breakpoint(threshold: real, score: real, confidence: real)

  /** The value at x on the line from (x0, y0) to (x1, y1). */
  function Blend(x: real, x0: real, y0: real, x1: real, y1: real): real
    requires x0 < x1
  {
    y0 + Times(Portion(x, x0, x1), y1 - y0)
  }

  function Portion(x: real, x0: real, x1: real): real
    requires x0 < x1
  {
    (x - x0) / (x1 - x0)
  }

  /** Scans the segments from i on for the one around x; past the last one the top values hold. */
  function Scan(x: real, bps: seq<Breakpoint>, i: nat): (real, real)
    requires i < |bps|
    decreases |bps| - i
  {
    if i == |bps| - 1 then (bps[i].score, bps[i].confidence)
    else
      var lo, hi := bps[i], bps[i + 1];
      if lo.threshold <= x < hi.threshold then
        (Blend(x, lo.threshold, lo.score, hi.threshold, hi.score),
         Blend(x, lo.threshold, lo.confidence, hi.threshold, hi.confidence))
      else Scan(x, bps, i + 1)
  }

  function Interpolate(x: real, bps: seq<Breakpoint>): Option<(real, real)> {
    if bps == [] || x < bps[0].threshold then None
    else if x >= bps[|bps| - 1].threshold then Some((bps[|bps| - 1].score, bps[|bps| - 1].confidence))
    else Some(Scan(x, bps, 0))
  }

  // ---------------------------------------------------------------- meaning

  ghost predicate Ascending(bps: seq<Breakpoint>) {
    forall i, j :: 0 <= i < j < |bps| ==> bps[i].threshold <= bps[j].threshold
  }

  /** x lies in segment i; the last segment is unbounded. */
  predicate InSegment(x: real, bps: seq<Breakpoint>, i: nat)
    requires i < |bps|
  {
    bps[i].threshold <= x && (i < |bps| - 1 ==> x < bps[i + 1].threshold)
  }

  function SegmentValue(x: real, bps: seq<Breakpoint>, i: nat): (real, real)
    requires i < |bps| && InSegment(x, bps, i)
  {
    if i == |bps| - 1 then (bps[i].score, bps[i].confidence)
    else
      (Blend(x, bps[i].threshold, bps[i].score, bps[i + 1].threshold, bps[i + 1].score),
       Blend(x, bps[i].threshold, bps[i].confidence, bps[i + 1].threshold, bps[i + 1].confidence))
  }

  lemma {:induction false} ScanFinds(x: real, bps: seq<Breakpoint>, from: nat, i: nat)
    requires Ascending(bps) && from <= i < |bps| && InSegment(x, bps, i)
    ensures Scan(x, bps, from) == SegmentValue(x, bps, i)
    decreases i - from
  {
    if from < i { ScanFinds(x, bps, from + 1, i); }
  }

  lemma {:induction false} FindSegment(x: real, bps: seq<Breakpoint>, from: nat) returns (i: nat)
    requires from < |bps| && bps[from].threshold <= x
    ensures from <= i < |bps| && InSegment(x, bps, i)
    decreases |bps| - from
  {
    if from < |bps| - 1 && x >= bps[from + 1].threshold { i := FindSegment(x, bps, from + 1); } else { i := from; }
  }

  /** There is no value exactly below the lowest threshold (or without breakpoints); elsewhere it is
      that of the segment around x. */
  lemma InterpolationMeaning(x: real, bps: seq<Breakpoint>) returns (i: nat)
    requires Ascending(bps)
    ensures Interpolate(x, bps).None? <==> bps == [] || x < bps[0].threshold
    ensures Interpolate(x, bps).Some? ==>
      i < |bps| && InSegment(x, bps, i) && Interpolate(x, bps).value == SegmentValue(x, bps, i)
  {
    i := 0;
    if bps != [] && x >= bps[0].threshold {
      i := FindSegment(x, bps, 0);
      if x < bps[|bps| - 1].threshold { ScanFinds(x, bps, 0, i); }
    }
  }

  lemma BlendGrows(x: real, x': real, x0: real, y0: real, x1: real, y1: real)
    requires x0 <= x <= x' <= x1 && x0 < x1 && y0 <= y1
    ensures y0 <= Blend(x, x0, y0, x1, y1) <= Blend(x', x0, y0, x1, y1) <= y1
  {
    PortionGrows(x, x', x0, x1);
    TimesGrows(Portion(x, x0, x1), Portion(x', x0, x1), y1 - y0);
  }

  lemma PortionGrows(x: real, x': real, x0: real, x1: real)
    requires x0 <= x <= x' <= x1 && x0 < x1
    ensures 0.0 <= Portion(x, x0, x1) <= Portion(x', x0, x1) <= 1.0
  {
    Fraction(x - x0, x' - x0, x1 - x0);
  }

  lemma Fraction(a: real, b: real, d: real)
    requires 0.0 <= a <= b <= d && d > 0.0
    ensures 0.0 <= a / d <= b / d <= 1.0
  {}

  lemma TimesGrows(t: real, t': real, d: real)
    requires 0.0 <= t <= t' <= 1.0 && d >= 0.0
    ensures 0.0 <= Times(t, d) <= Times(t', d) <= d
  {
    NonNegativeProduct(t, d);
    NonNegativeProduct(t' - t, d);
    NonNegativeProduct(1.0 - t', d);
    assert (t' - t) * d == t' * d - t * d;
    assert (1.0 - t') * d == d - t' * d;
  }

  /** The two outputs, interpolated alike. */
  datatype Output = ScoreOutput | ConfidenceOutput

  function Level(b: Breakpoint, o: Output): real { if o == ScoreOutput then b.score else b.confidence }

  function Pick(v: (real, real), o: Output): real { if o == ScoreOutput then v.0 else v.1 }

  /** Thresholds ascend and the levels of the output do not fall. */
  ghost predicate Rising(bps: seq<Breakpoint>, o: Output) {
    Ascending(bps) && forall i, j :: 0 <= i < j < |bps| ==> Level(bps[i], o) <= Level(bps[j], o)
  }

  lemma SegmentBounds(x: real, bps: seq<Breakpoint>, i: nat, o: Output)
    requires Rising(bps, o) && i < |bps| && InSegment(x, bps, i)
    ensures Level(bps[i], o) <= Pick(SegmentValue(x, bps, i), o)
    ensures forall j :: i < j < |bps| ==> Pick(SegmentValue(x, bps, i), o) <= Level(bps[j], o)
  {
    if i < |bps| - 1 {
      BlendGrows(x, x, bps[i].threshold, Level(bps[i], o), bps[i + 1].threshold, Level(bps[i + 1], o));
    }
  }

  /** A stronger metric never lowers a rising output, across segments as within one. */
  lemma OutputRises(x: real, x': real, bps: seq<Breakpoint>, o: Output)
    requires Rising(bps, o) && x <= x' && Interpolate(x, bps).Some?
    ensures Interpolate(x', bps).Some?
    ensures Pick(Interpolate(x, bps).value, o) <= Pick(Interpolate(x', bps).value, o)
  {
    var i := InterpolationMeaning(x, bps);
    var j := InterpolationMeaning(x', bps);
    assert i <= j;
    if i < j {
      SegmentBounds(x, bps, i, o);
      SegmentBounds(x', bps, j, o);
    } else if i < |bps| - 1 {
      BlendGrows(x, x', bps[i].threshold, Level(bps[i], o), bps[i + 1].threshold, Level(bps[i + 1], o));
    }
  }

  /** A rising output lies between its levels at the lowest and the highest breakpoint. */
  lemma OutputIsBounded(x: real, bps: seq<Breakpoint>, o: Output)
    requires Rising(bps, o) && Interpolate(x, bps).Some?
    ensures Level(bps[0], o) <= Pick(Interpolate(x, bps).value, o) <= Level(bps[|bps| - 1], o)
  {
    var i := InterpolationMeaning(x, bps);
    SegmentBounds(x, bps, i, o);
  }

  lemma BlendIsCollinear(x: real, x0: real, y0: real, x1: real, y1: real)
    requires x0 < x1
    ensures (Blend(x, x0, y0, x1, y1) - y0) * (x1 - x0) == (y1 - y0) * (x - x0)
  {
    var t, d, w := Portion(x, x0, x1), y1 - y0, x1 - x0;
    assert t * w == x - x0;
    assert (t * d) * w == d * (t * w);
  }

  /** Within a segment both outputs lie on the straight line between the two breakpoints around x; from
      the highest breakpoint on they are its own. */
  lemma OutputIsLinear(x: real, bps: seq<Breakpoint>, o: Output) returns (i: nat)
    requires Ascending(bps) && Interpolate(x, bps).Some?
    ensures i < |bps| && bps[i].threshold <= x
    ensures var y := Pick(Interpolate(x, bps).value, o);
      if i == |bps| - 1 then y == Level(bps[i], o)
      else
        && x < bps[i + 1].threshold
        && (y - Level(bps[i], o)) * (bps[i + 1].threshold - bps[i].threshold)
           == (Level(bps[i + 1], o) - Level(bps[i], o)) * (x - bps[i].threshold)
  {
    i := InterpolationMeaning(x, bps);
    if i < |bps| - 1 {
      BlendIsCollinear(x, bps[i].threshold, Level(bps[i], o), bps[i + 1].threshold, Level(bps[i + 1], o));
    }
  }
}

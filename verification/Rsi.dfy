/** Wilder's relative strength index (scripts/mcp_servers/tradingview.py), before its final rounding. */
module Rsi {
  import opened Prelude

  // ---------------------------------------------------------------- specification

  function Gains(closes: seq<real>): (r: seq<real>)
    requires closes != []
    ensures |r| == |closes| - 1
    ensures forall i :: 0 <= i < |r| ==> r[i] >= 0.0
  {
    seq(|closes| - 1, i requires 0 <= i < |closes| - 1 => Max(closes[i + 1] - closes[i], 0.0))
  }

  function Losses(closes: seq<real>): (r: seq<real>)
    requires closes != []
    ensures |r| == |closes| - 1
    ensures forall i :: 0 <= i < |r| ==> r[i] >= 0.0
  {
    seq(|closes| - 1, i requires 0 <= i < |closes| - 1 => Max(-(closes[i + 1] - closes[i]), 0.0))
  }

  /** One smoothing step. */
  function Smooth(avg: real, x: real, period: nat): real
    requires period >= 1
  {
    (avg * (period - 1) as real + x) / period as real
  }

  /** Wilder's average: the mean of the first `period` entries, smoothed with each later one. */
  function Wilder(xs: seq<real>, period: nat): real
    requires 1 <= period <= |xs|
  {
    if |xs| == period then Mean(xs) else Smooth(Wilder(xs[..|xs| - 1], period), xs[|xs| - 1], period)
  }

  function Index(gain: real, loss: real): real
    requires gain >= 0.0 && loss >= 0.0
  {
    if loss == 0.0 then 100.0 else 100.0 - 100.0 / (1.0 + Ratio(gain, loss))
  }

  function Ratio(gain: real, loss: real): (r: real)
    requires gain >= 0.0 && loss > 0.0
    ensures r >= 0.0
  {
    gain / loss
  }

  function RsiOf(closes: seq<real>, period: nat): real
    requires 1 <= period < |closes|
  {
    WilderIsPositive(Gains(closes), period);
    WilderIsPositive(Losses(closes), period);
    Index(Wilder(Gains(closes), period), Wilder(Losses(closes), period))
  }

  // ---------------------------------------------------------------- the loops

  method ComputeRsi(closes: seq<real>, period: nat) returns (rsi: Option<real>)
    requires period >= 1
    ensures rsi == if |closes| < period + 1 then None else Some(RsiOf(closes, period))
  {
    if |closes| < period + 1 { return None; }
    var gains, losses := [], [];
    for i := 1 to |closes|
      invariant gains == Gains(closes)[..i - 1] && losses == Losses(closes)[..i - 1]
    {
      var delta := closes[i] - closes[i - 1];
      gains := gains + [Max(delta, 0.0)];
      losses := losses + [Max(-delta, 0.0)];
    }
    assert gains == Gains(closes) && losses == Losses(closes);
    var avgGain, avgLoss := Smoothed(gains, losses, period);
    WilderIsPositive(gains, period);
    WilderIsPositive(losses, period);
    if avgLoss == 0.0 { return Some(100.0); }
    var rs := Ratio(avgGain, avgLoss);
    rsi := Some(100.0 - 100.0 / (1.0 + rs));
  }

  /** The two seeds and the smoothing loop. */
  method Smoothed(gains: seq<real>, losses: seq<real>, period: nat) returns (avgGain: real, avgLoss: real)
    requires 1 <= period <= |gains| == |losses|
    ensures avgGain == Wilder(gains, period) && avgLoss == Wilder(losses, period)
  {
    avgGain, avgLoss := Mean(gains[..period]), Mean(losses[..period]);
    for i := period to |gains|
      invariant avgGain == Wilder(gains[..i], period) && avgLoss == Wilder(losses[..i], period)
    {
      avgGain := Smooth(avgGain, gains[i], period);
      avgLoss := Smooth(avgLoss, losses[i], period);
      assert gains[..i + 1][..i] == gains[..i] && losses[..i + 1][..i] == losses[..i];
    }
    assert gains[..|gains|] == gains && losses[..|losses|] == losses;
  }

  // ---------------------------------------------------------------- the averages

  lemma SmoothSign(avg: real, x: real, period: nat)
    requires period >= 1 && avg >= 0.0 && x >= 0.0
    ensures Smooth(avg, x, period) >= 0.0
    ensures period >= 2 ==> (Smooth(avg, x, period) == 0.0 <==> avg == 0.0 && x == 0.0)
    ensures period == 1 ==> Smooth(avg, x, period) == x
  {
    assert avg * (period - 1) as real >= 0.0;
    assert Smooth(avg, x, period) * period as real == avg * (period - 1) as real + x;
  }

  /** One more entry counts for one part in `period`, the average so far for the rest. */
  lemma SmoothingWeight(xs: seq<real>, x: real, period: nat)
    requires 1 <= period <= |xs|
    ensures period as real * Wilder(xs + [x], period) == (period - 1) as real * Wilder(xs, period) + x
    ensures |xs| == period ==> period as real * Wilder(xs, period) == Sum(xs)
  {
    assert (xs + [x])[..|xs|] == xs;
    var avg := Wilder(xs, period);
    assert Smooth(avg, x, period) * period as real == avg * (period - 1) as real + x;
  }

  predicate NonNegative(xs: seq<real>) { forall i :: 0 <= i < |xs| ==> xs[i] >= 0.0 }

  predicate AllZero(xs: seq<real>) { forall i :: 0 <= i < |xs| ==> xs[i] == 0.0 }

  lemma {:induction false} SumSign(xs: seq<real>)
    requires NonNegative(xs)
    ensures Sum(xs) >= 0.0 && (Sum(xs) == 0.0 <==> AllZero(xs))
  {
    if xs != [] { SumSign(xs[..|xs| - 1]); }
  }

  lemma {:induction false} WilderIsPositive(xs: seq<real>, period: nat)
    requires 1 <= period <= |xs| && NonNegative(xs)
    ensures Wilder(xs, period) >= 0.0
  {
    if |xs| == period {
      SumSign(xs);
    } else {
      WilderIsPositive(xs[..|xs| - 1], period);
      SmoothSign(Wilder(xs[..|xs| - 1], period), xs[|xs| - 1], period);
    }
  }

  /** The average forgets nothing: it is zero only when every entry is (with a period of one, when the
      last entry is). */
  lemma {:induction false} WilderIsZero(xs: seq<real>, period: nat)
    requires 1 <= period <= |xs| && NonNegative(xs)
    ensures Wilder(xs, period) == 0.0 <==> (if period == 1 then xs[|xs| - 1] == 0.0 else AllZero(xs))
  {
    var front, last := xs[..|xs| - 1], xs[|xs| - 1];
    if |xs| == period {
      SumSign(xs);
      assert period == 1 ==> xs == [last];
    } else {
      WilderIsZero(front, period);
      WilderIsPositive(front, period);
      SmoothSign(Wilder(front, period), last, period);
    }
  }

  function Scaled(xs: seq<real>, k: real): (r: seq<real>)
    ensures |r| == |xs|
  {
    seq(|xs|, i requires 0 <= i < |xs| => Times(k, xs[i]))
  }

  lemma TimesAdds(k: real, a: real, b: real)
    ensures Times(k, a + b) == Times(k, a) + Times(k, b)
  {}

  lemma {:induction false} SumScales(xs: seq<real>, k: real)
    ensures Sum(Scaled(xs, k)) == Times(k, Sum(xs))
  {
    if xs != [] {
      var n := |xs| - 1;
      SumScales(xs[..n], k);
      TimesAdds(k, Sum(xs[..n]), xs[n]);
      assert Scaled(xs, k)[..n] == Scaled(xs[..n], k);
    }
  }

  lemma {:induction false} WilderScales(xs: seq<real>, k: real, period: nat)
    requires 1 <= period <= |xs|
    ensures Wilder(Scaled(xs, k), period) == Times(k, Wilder(xs, period))
  {
    var n := |xs| - 1;
    if |xs| == period {
      SumScales(xs, k);
      Quotient(k, Sum(xs), |xs| as real);
    } else {
      WilderScales(xs[..n], k, period);
      assert Scaled(xs, k)[..n] == Scaled(xs[..n], k);
      SmoothScales(Wilder(xs[..n], period), xs[n], k, period);
    }
  }

  lemma Quotient(k: real, a: real, b: real)
    requires b > 0.0
    ensures Times(k, a) / b == Times(k, a / b)
  {}

  lemma SmoothScales(avg: real, x: real, k: real, period: nat)
    requires period >= 1
    ensures Smooth(Times(k, avg), Times(k, x), period) == Times(k, Smooth(avg, x, period))
  {
    var p := (period - 1) as real;
    assert (k * avg) * p == k * (avg * p);
    TimesAdds(k, avg * p, x);
    Quotient(k, avg * p + x, period as real);
  }

  // ---------------------------------------------------------------- what the index means

  /** Away from the flat case the index is the gains' share of all movement, in percent. */
  lemma IndexIsShare(gain: real, loss: real)
    requires gain >= 0.0 && loss >= 0.0 && gain + loss > 0.0
    ensures Index(gain, loss) == 100.0 * (gain / (gain + loss))
  {
    var total := gain + loss;
    if loss == 0.0 {
      assert gain / total == 1.0;
    } else {
      var r := Ratio(gain, loss);
      assert r * loss == gain;
      assert (1.0 + r) * loss == total;
      Reciprocal(1.0 + r, loss, total);
      assert gain / total + loss / total == 1.0;
    }
  }

  lemma Reciprocal(a: real, b: real, c: real)
    requires a > 0.0 && b > 0.0 && a * b == c
    ensures 100.0 / a == 100.0 * (b / c)
  {
    var q := b / c;
    assert q * c == b;
    assert (q * a) * b == q * (a * b);
    assert q * a == 1.0;
  }

  predicate Flat(closes: seq<real>, period: nat)
    requires 1 <= period < |closes|
  {
    if period == 1 then closes[|closes| - 1] == closes[|closes| - 2]
    else forall i :: 0 <= i < |closes| - 1 ==> closes[i + 1] == closes[i]
  }

  /** No movement at all is the only case without a share. */
  lemma FlatMeaning(closes: seq<real>, period: nat)
    requires 1 <= period < |closes|
    ensures var g, l := Wilder(Gains(closes), period), Wilder(Losses(closes), period);
      g >= 0.0 && l >= 0.0 && (Flat(closes, period) <==> g + l == 0.0)
  {
    var gains, losses := Gains(closes), Losses(closes);
    WilderIsPositive(gains, period);
    WilderIsPositive(losses, period);
    WilderIsZero(gains, period);
    WilderIsZero(losses, period);
    if period == 1 { NoMove(closes, |closes| - 2); } else { NoMoves(closes); }
  }

  lemma NoMove(closes: seq<real>, i: nat)
    requires i + 1 < |closes|
    ensures Gains(closes)[i] == 0.0 && Losses(closes)[i] == 0.0 <==> closes[i + 1] == closes[i]
  {}

  lemma NoMoves(closes: seq<real>)
    requires |closes| >= 2
    ensures AllZero(Gains(closes)) && AllZero(Losses(closes))
       <==> forall i :: 0 <= i < |closes| - 1 ==> closes[i + 1] == closes[i]
  {
    if AllZero(Gains(closes)) && AllZero(Losses(closes)) {
      forall i | 0 <= i < |closes| - 1 ensures closes[i + 1] == closes[i] { NoMove(closes, i); }
    }
    if forall i :: 0 <= i < |closes| - 1 ==> closes[i + 1] == closes[i] {
      forall i | 0 <= i < |closes| - 1 ensures Gains(closes)[i] == 0.0 && Losses(closes)[i] == 0.0 {
        NoMove(closes, i);
      }
    }
  }

  /** The index lies between 0 and 100; it is 100·G/(G + L) unless the closes are flat, and then it
      is 100. */
  lemma RsiMeaning(closes: seq<real>, period: nat)
    requires 1 <= period < |closes|
    ensures 0.0 <= RsiOf(closes, period) <= 100.0
    ensures Flat(closes, period) ==> RsiOf(closes, period) == 100.0
    ensures var g, l := Wilder(Gains(closes), period), Wilder(Losses(closes), period);
      !Flat(closes, period) ==> g + l > 0.0 && RsiOf(closes, period) == 100.0 * (g / (g + l))
  {
    FlatMeaning(closes, period);
    var g, l := Wilder(Gains(closes), period), Wilder(Losses(closes), period);
    if g + l > 0.0 {
      IndexIsShare(g, l);
      Share(g, l);
    }
  }

  lemma Share(g: real, l: real)
    requires g >= 0.0 && l >= 0.0 && g + l > 0.0
    ensures 0.0 <= g / (g + l) <= 1.0 && g / (g + l) + l / (g + l) == 1.0
  {}

  function Mirrored(closes: seq<real>, k: real): (r: seq<real>)
    ensures |r| == |closes|
  {
    seq(|closes|, i requires 0 <= i < |closes| => k - closes[i])
  }

  /** Reflecting the closes exchanges gains and losses, so the index becomes its complement; exactly
      the flat series breaks the symmetry. */
  lemma ReflectionComplements(closes: seq<real>, k: real, period: nat)
    requires 1 <= period < |closes|
    ensures RsiOf(Mirrored(closes, k), period) == 100.0 - RsiOf(closes, period) <==> !Flat(closes, period)
  {
    var m := Mirrored(closes, k);
    assert Gains(m) == Losses(closes) && Losses(m) == Gains(closes);
    FlatMeaning(closes, period);
    FlatMeaning(m, period);
    IndexComplements(Wilder(Gains(closes), period), Wilder(Losses(closes), period));
  }

  lemma IndexComplements(g: real, l: real)
    requires g >= 0.0 && l >= 0.0
    ensures Index(l, g) == 100.0 - Index(g, l) <==> g + l > 0.0
  {
    if g + l > 0.0 {
      IndexIsShare(g, l);
      IndexIsShare(l, g);
      Share(g, l);
    }
  }

  /** The index does not depend on the unit of price. */
  lemma ScaleInvariant(closes: seq<real>, k: real, period: nat)
    requires 1 <= period < |closes| && k > 0.0
    ensures RsiOf(Scaled(closes, k), period) == RsiOf(closes, period)
  {
    var c, g, l := Scaled(closes, k), Gains(closes), Losses(closes);
    MovesScale(closes, k);
    WilderScales(g, k, period);
    WilderScales(l, k, period);
    WilderIsPositive(g, period);
    WilderIsPositive(l, period);
    IndexScales(Wilder(g, period), Wilder(l, period), k);
  }

  lemma MovesScale(closes: seq<real>, k: real)
    requires closes != [] && k > 0.0
    ensures Gains(Scaled(closes, k)) == Scaled(Gains(closes), k)
    ensures Losses(Scaled(closes, k)) == Scaled(Losses(closes), k)
  {
    forall i | 0 <= i < |closes| - 1
      ensures Gains(Scaled(closes, k))[i] == Scaled(Gains(closes), k)[i]
      ensures Losses(Scaled(closes, k))[i] == Scaled(Losses(closes), k)[i]
    {
      ScaledMove(closes[i], closes[i + 1], k);
    }
  }

  lemma ScaledMove(a: real, b: real, k: real)
    requires k > 0.0
    ensures Max(Times(k, b) - Times(k, a), 0.0) == Times(k, Max(b - a, 0.0))
    ensures Max(-(Times(k, b) - Times(k, a)), 0.0) == Times(k, Max(-(b - a), 0.0))
  {
    assert k * b - k * a == k * (b - a);
  }

  lemma IndexScales(g: real, l: real, k: real)
    requires g >= 0.0 && l >= 0.0 && k > 0.0
    ensures Times(k, g) >= 0.0 && Times(k, l) >= 0.0 && Index(Times(k, g), Times(k, l)) == Index(g, l)
  {
    if l > 0.0 {
      var r := Ratio(g, l);
      assert r * l == g;
      assert r * (k * l) == k * g;
      RatioIs(Times(k, g), Times(k, l), r);
    }
  }

  lemma RatioIs(a: real, b: real, r: real)
    requires a >= 0.0 && b > 0.0 && r * b == a
    ensures Ratio(a, b) == r
  {}

  /** A higher last close never lowers the index, not even from a flat series. */
  lemma RisesWithLastClose(closes: seq<real>, x: real, period: nat)
    requires 1 <= period < |closes| && x >= closes[|closes| - 1]
    ensures RsiOf(closes[..|closes| - 1] + [x], period) >= RsiOf(closes, period)
  {
    var higher := closes[..|closes| - 1] + [x];
    var g, l, g', l' := Gains(closes), Losses(closes), Gains(higher), Losses(higher);
    var n := |g| - 1;
    assert g'[..n] == g[..n] && l'[..n] == l[..n];
    WilderGrows(g, g', period);
    WilderGrows(l', l, period);
    WilderIsPositive(g, period);
    WilderIsPositive(l', period);
    IndexGrows(Wilder(g, period), Wilder(l, period), Wilder(g', period), Wilder(l', period));
  }

  lemma WilderGrows(xs: seq<real>, ys: seq<real>, period: nat)
    requires 1 <= period <= |xs| == |ys| && xs[..|xs| - 1] == ys[..|xs| - 1] && xs[|xs| - 1] <= ys[|xs| - 1]
    ensures Wilder(xs, period) <= Wilder(ys, period)
  {
    var n := |xs| - 1;
    if n + 1 == period {
      Divided(Sum(xs), Sum(ys), period as real);
    } else {
      SmoothGrows(Wilder(xs[..n], period), xs[n], ys[n], period);
    }
  }

  lemma SmoothGrows(avg: real, x: real, y: real, period: nat)
    requires period >= 1 && x <= y
    ensures Smooth(avg, x, period) <= Smooth(avg, y, period)
  {
    var rest := avg * (period - 1) as real;
    Divided(rest + x, rest + y, period as real);
  }

  lemma Divided(a: real, b: real, d: real)
    requires a <= b && d > 0.0
    ensures a / d <= b / d
  {}

  lemma IndexGrows(g: real, l: real, g': real, l': real)
    requires 0.0 <= g <= g' && 0.0 <= l' <= l
    ensures Index(g, l) <= Index(g', l')
  {
    if l' > 0.0 {
      RatioGrows(g, l, g', l');
      Inverted(1.0 + Ratio(g, l), 1.0 + Ratio(g', l'));
    } else if l > 0.0 {
      assert 1.0 + Ratio(g, l) > 0.0;
    }
  }

  lemma RatioGrows(g: real, l: real, g': real, l': real)
    requires 0.0 <= g <= g' && 0.0 < l' <= l
    ensures Ratio(g, l) <= Ratio(g', l')
  {
    Divided(g, g', l');
    DividedByMore(g, l, l');
  }

  lemma DividedByMore(a: real, d: real, d': real)
    requires a >= 0.0 && 0.0 < d' <= d
    ensures a / d <= a / d'
  {
    RatioCompare(a, d', a / d);
    NonNegativeProduct(a / d, d - d');
  }

  lemma Inverted(a: real, b: real)
    requires 0.0 < a <= b
    ensures 100.0 / b <= 100.0 / a
  {}
}

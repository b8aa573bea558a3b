/** Shared vocabulary: options, extrema, filtering, and the stable descending sort that
    Python's `sort(key=..., reverse=True)` performs. */
module Prelude {

  datatype Option<+T> = None | Some(value: T)

  /** A parsed number: either a finite value or one of inf, -inf, nan. */
  datatype Num = Finite(value: real) | NonFinite

  function Max(a: real, b: real): real { if a >= b then a else b }

  function Min(a: real, b: real): real { if a <= b then a else b }

  function Abs(a: real): real { if a >= 0.0 then a else -a }

  function MinInt(a: int, b: int): int { if a <= b then a else b }

  function MaxInt(a: int, b: int): int { if a >= b then a else b }

  // ---------------------------------------------------------------- filtering

  function Keep<T>(xs: seq<T>, p: T -> bool): (r: seq<T>)
    ensures |r| <= |xs|
    ensures forall x :: x in r ==> x in xs && p(x)
    ensures forall x :: x in xs && p(x) ==> x in r
  {
    if xs == [] then [] else (if p(xs[0]) then [xs[0]] else []) + Keep(xs[1..], p)
  }

  lemma {:induction false} KeepConcat<T>(a: seq<T>, b: seq<T>, p: T -> bool)
    ensures Keep(a + b, p) == Keep(a, p) + Keep(b, p)
  {
    if a == [] {
      assert a + b == b;
    } else {
      assert (a + b)[1..] == a[1..] + b;
      KeepConcat(a[1..], b, p);
    }
  }

  lemma KeepSnoc<T>(a: seq<T>, x: T, p: T -> bool)
    ensures Keep(a + [x], p) == Keep(a, p) + (if p(x) then [x] else [])
  {
    KeepConcat(a, [x], p);
  }

  lemma KeepPrefix<T>(xs: seq<T>, i: nat, p: T -> bool)
    requires i < |xs|
    ensures Keep(xs[..i + 1], p) == Keep(xs[..i], p) + (if p(xs[i]) then [xs[i]] else [])
  {
    assert xs[..i + 1] == xs[..i] + [xs[i]];
    KeepSnoc(xs[..i], xs[i], p);
  }

  lemma {:induction false} KeepAll<T>(xs: seq<T>, p: T -> bool)
    requires forall x :: x in xs ==> p(x)
    ensures Keep(xs, p) == xs
  {
    if xs != [] { KeepAll(xs[1..], p); }
  }

  lemma {:induction false} KeepNone<T>(xs: seq<T>, p: T -> bool)
    requires forall x :: x in xs ==> !p(x)
    ensures Keep(xs, p) == []
  {
    if xs != [] { KeepNone(xs[1..], p); }
  }

  lemma KeepCons<T>(x: T, xs: seq<T>, p: T -> bool)
    ensures Keep([x] + xs, p) == (if p(x) then [x] else []) + Keep(xs, p)
  {
    assert ([x] + xs)[1..] == xs;
  }

  /** Filtering by p and by q, where q is the complement of p on xs, splits xs. */
  lemma {:induction false} KeepSplits<T>(xs: seq<T>, p: T -> bool, q: T -> bool)
    requires forall x :: x in xs ==> (p(x) <==> !q(x))
    ensures multiset(xs) == multiset(Keep(xs, p)) + multiset(Keep(xs, q))
  {
    if xs != [] {
      var x, rest := xs[0], xs[1..];
      KeepSplits(rest, p, q);
      assert xs == [x] + rest;
      KeepCons(x, rest, p);
      KeepCons(x, rest, q);
      assert p(x) <==> !q(x);
      assert multiset(xs) == multiset{x} + multiset(rest);
    }
  }

  ghost predicate Distinct<T(!new)>(xs: seq<T>) { forall i, j :: 0 <= i < j < |xs| ==> xs[i] != xs[j] }

  lemma {:induction false} DistinctMultiplicity<T(!new)>(xs: seq<T>)
    requires Distinct(xs)
    ensures forall x :: multiset(xs)[x] <= 1
  {
    if xs != [] {
      var init := xs[..|xs| - 1];
      DistinctMultiplicity(init);
      assert xs == init + [xs[|xs| - 1]];
      assert xs[|xs| - 1] !in init;
    }
  }

  /** Rearranging distinct elements keeps them distinct. */
  lemma DistinctPermuted<T(!new)>(xs: seq<T>, ys: seq<T>)
    requires Distinct(xs) && multiset(xs) == multiset(ys)
    ensures Distinct(ys)
  {
    DistinctMultiplicity(xs);
    forall i, j | 0 <= i < j < |ys| ensures ys[i] != ys[j] {
      assert ys == ys[..j] + ([ys[j]] + ys[j + 1..]);
      assert multiset(ys) == multiset(ys[..j]) + (multiset{ys[j]} + multiset(ys[j + 1..]));
      assert ys[i] in ys[..j];
      assert multiset(xs)[ys[i]] <= 1;
    }
  }

  // ---------------------------------------------------------------- stable descending sort

  predicate NonIncreasing<T>(xs: seq<T>, key: T -> real) {
    forall i, j :: 0 <= i < j < |xs| ==> key(xs[i]) >= key(xs[j])
  }

  function InsertDesc<T>(x: T, xs: seq<T>, key: T -> real): (r: seq<T>)
    ensures multiset(r) == multiset{x} + multiset(xs)
  {
    if xs == [] || key(x) >= key(xs[0]) then
      [x] + xs
    else
      assert xs == [xs[0]] + xs[1..];
      [xs[0]] + InsertDesc(x, xs[1..], key)
  }

  function SortDesc<T>(xs: seq<T>, key: T -> real): (r: seq<T>)
    ensures multiset(r) == multiset(xs)
  {
    if xs == [] then []
    else
      assert xs == [xs[0]] + xs[1..];
      InsertDesc(xs[0], SortDesc(xs[1..], key), key)
  }

  lemma SameElements<T>(a: seq<T>, b: seq<T>)
    requires multiset(a) == multiset(b)
    ensures |a| == |b|
    ensures forall x :: x in a ==> x in b
    ensures forall x :: x in b ==> x in a
  {
    assert |multiset(a)| == |a| && |multiset(b)| == |b|;
    forall x | x in a ensures x in b { assert x in multiset(a); }
    forall x | x in b ensures x in a { assert x in multiset(b); }
  }

  lemma {:induction false} InsertDescSorted<T>(x: T, xs: seq<T>, key: T -> real)
    requires NonIncreasing(xs, key)
    ensures NonIncreasing(InsertDesc(x, xs, key), key)
  {
    if xs == [] || key(x) >= key(xs[0]) {
    } else {
      var tail := InsertDesc(x, xs[1..], key);
      InsertDescSorted(x, xs[1..], key);
      forall j | 0 <= j < |tail| ensures key(xs[0]) >= key(tail[j]) {
        assert tail[j] in multiset(tail);
        assert tail[j] == x || tail[j] in xs[1..];
      }
    }
  }

  function HasKey<T>(key: T -> real, v: real): T -> bool {
    (x: T) => key(x) == v
  }

  lemma {:induction false} InsertDescStable<T>(x: T, xs: seq<T>, key: T -> real, v: real)
    requires NonIncreasing(xs, key)
    ensures Keep(InsertDesc(x, xs, key), HasKey(key, v)) == Keep([x] + xs, HasKey(key, v))
  {
    if xs != [] && key(x) < key(xs[0]) {
      var y, rest, p := xs[0], xs[1..], HasKey(key, v);
      assert xs == [y] + rest;
      InsertDescStable(x, rest, key, v);
      KeepCons(y, InsertDesc(x, rest, key), p);
      KeepCons(x, rest, p);
      KeepCons(y, rest, p);
      KeepCons(x, xs, p);
      Interchange(if p(x) then [x] else [], if p(y) then [y] else [], Keep(rest, p));
    }
  }

  lemma Interchange<T>(a: seq<T>, b: seq<T>, c: seq<T>)
    requires a == [] || b == []
    ensures b + (a + c) == a + (b + c)
  {}

  /** The sort's full specification: ordered, a permutation (its own postcondition), and
      stable; these three determine the result. */
  lemma {:induction false} SortDescSpec<T>(xs: seq<T>, key: T -> real)
    ensures NonIncreasing(SortDesc(xs, key), key)
    ensures |SortDesc(xs, key)| == |xs|
    ensures forall x :: x in SortDesc(xs, key) ==> x in xs
    ensures forall x :: x in xs ==> x in SortDesc(xs, key)
    ensures forall v :: Keep(SortDesc(xs, key), HasKey(key, v)) == Keep(xs, HasKey(key, v))
  {
    SameElements(SortDesc(xs, key), xs);
    if xs != [] {
      SortDescSpec(xs[1..], key);
      InsertDescSorted(xs[0], SortDesc(xs[1..], key), key);
      forall v ensures Keep(SortDesc(xs, key), HasKey(key, v)) == Keep(xs, HasKey(key, v)) {
        InsertDescStable(xs[0], SortDesc(xs[1..], key), key, v);
        var sorted := [xs[0]] + SortDesc(xs[1..], key);
        assert sorted[1..] == SortDesc(xs[1..], key);
      }
    }
  }

  lemma {:induction false} KeepSorted<T>(xs: seq<T>, p: T -> bool, key: T -> real)
    requires NonIncreasing(xs, key)
    ensures NonIncreasing(Keep(xs, p), key)
  {
    if xs != [] {
      KeepSorted(xs[1..], p, key);
      var tail := Keep(xs[1..], p);
      forall j | 0 <= j < |tail| ensures key(xs[0]) >= key(tail[j]) {
        assert tail[j] in tail;
        assert tail[j] in xs[1..];
      }
    }
  }

  /** Cutting a sorted list keeps its best elements: nothing dropped beats anything kept. */
  lemma CutKeepsBest<T>(xs: seq<T>, k: nat, key: T -> real)
    requires k <= |xs| && NonIncreasing(xs, key)
    ensures forall a, b :: a in xs[..k] && b in xs[k..] ==> key(a) >= key(b)
  {
    forall a, b | a in xs[..k] && b in xs[k..] ensures key(a) >= key(b) {
      var i :| 0 <= i < k && xs[i] == a;
      var j :| 0 <= j < |xs| - k && xs[k..][j] == b;
      assert xs[k + j] == b;
    }
  }

  // ---------------------------------------------------------------- sums and means

  function Sum(xs: seq<real>): real {
    if xs == [] then 0.0 else Sum(xs[..|xs| - 1]) + xs[|xs| - 1]
  }

  function Mean(xs: seq<real>): real
    requires xs != []
  {
    Sum(xs) / |xs| as real
  }

  function MeanOrZero(xs: seq<real>): real { if xs == [] then 0.0 else Mean(xs) }

  lemma {:induction false} SumBounds(xs: seq<real>, lo: real, hi: real)
    requires forall i :: 0 <= i < |xs| ==> lo <= xs[i] <= hi
    ensures lo * |xs| as real <= Sum(xs) <= hi * |xs| as real
  {
    if xs != [] {
      SumBounds(xs[..|xs| - 1], lo, hi);
    }
  }

  lemma MeanBounds(xs: seq<real>, lo: real, hi: real)
    requires xs != [] && forall i :: 0 <= i < |xs| ==> lo <= xs[i] <= hi
    ensures lo <= Mean(xs) <= hi
  {
    SumBounds(xs, lo, hi);
    assert Mean(xs) * |xs| as real == Sum(xs);
    Cancel(lo, Mean(xs), |xs| as real);
    Cancel(Mean(xs), hi, |xs| as real);
  }

  /** Multiplication by name, so that a proof can treat a product as a whole. */
  function Times(a: real, b: real): real { a * b }

  lemma NonNegativeProduct(a: real, b: real)
    requires a >= 0.0 && b >= 0.0
    ensures a * b >= 0.0
  {}

  lemma PositiveProduct(a: real, b: real)
    requires a > 0.0 && b > 0.0
    ensures a * b > 0.0
  {}

  lemma Cancel(a: real, b: real, c: real)
    requires c > 0.0 && a * c <= b * c
    ensures a <= b
  {}

  /** Comparing a quotient is comparing the dividend with a multiple of the divisor. */
  lemma RatioCompare(a: real, b: real, k: real)
    requires b > 0.0
    ensures a / b < k <==> a < k * b
    ensures a / b > k <==> a > k * b
  {
    var q := a / b;
    assert q * b == a;
    assert (k - q) * b == k * b - a;
    if q < k { PositiveProduct(k - q, b); } else { NonNegativeProduct(q - k, b); }
    if q > k { PositiveProduct(q - k, b); } else { NonNegativeProduct(k - q, b); }
    assert (q - k) * b == a - k * b;
  }
}

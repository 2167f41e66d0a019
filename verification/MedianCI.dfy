/** The order-statistic confidence interval of scripts/bench/report.py, in exact arithmetic. */
module MedianCI {
  import opened Optional
  import opened Binomial

  /** The share a of all 2^n patterns. */
  function Ratio(a: nat, n: nat): real {
    Pow2Positive(n);
    a as real / Pow2(n) as real
  }

  lemma RatioMonotone(a: nat, b: nat, n: nat)
    requires a <= b
    ensures Ratio(a, n) <= Ratio(b, n)
  {
    Pow2Positive(n);
    DivMonotone(a as real, b as real, Pow2(n) as real);
  }

  lemma NoShare(n: nat)
    ensures Ratio(0, n) == 0.0
  {
    Pow2Positive(n);
    MulDiv(0.0, Pow2(n) as real);
  }

  lemma DivMonotone(a: real, b: real, c: real)
    requires a <= b && c > 0.0
    ensures a / c <= b / c
  {
  }

  /** `_median_ci_rank`, exact branch. */
  method Rank(n: nat, alpha: real) returns (r: nat, coverage: Option<real>)
    requires alpha > 0.0
    ensures r <= n / 2 && Ratio(RowSum(n, r), n) <= alpha / 2.0
    ensures forall q | r < q <= n / 2 :: Ratio(RowSum(n, q), n) > alpha / 2.0
    ensures coverage == if r == 0 then None else Some(1.0 - 2.0 * Ratio(RowSum(n, r), n))
  {
    hide Ratio, RowSum, Choose;
    var coef, cum, cumAtR := 1, 0, 0;
    r := 0;
    var k := 0;
    RowStart(n);
    assert Ratio(0, n) == 0.0 by { NoShare(n); }
    while k < n / 2
      invariant k <= n / 2 && r == k && coef == Choose(n, k) && cum == cumAtR == RowSum(n, k)
      invariant Ratio(RowSum(n, r), n) <= alpha / 2.0
    {
      cum := cum + coef;
      RowStep(n, k);
      if Ratio(cum, n) > alpha / 2.0 {
        forall q | r < q <= n / 2
          ensures Ratio(RowSum(n, q), n) > alpha / 2.0
        {
          RowMonotone(n, k + 1, q);
          RatioMonotone(RowSum(n, k + 1), RowSum(n, q), n);
        }
        break;
      }
      r := k + 1;
      cumAtR := cum;
      Absorb(n, k);
      ExactDivision(coef * (n - k), k + 1, Choose(n, k + 1));
      coef := coef * (n - k) / (k + 1);
      k := k + 1;
    }
    if r == 0 {
      return 0, None;
    }
    return r, Some(1.0 - 2.0 * Ratio(cumAtR, n));
  }

  lemma RowStart(n: nat)
    ensures RowSum(n, 0) == 0 && Choose(n, 0) == 1
  {
  }

  lemma RowStep(n: nat, k: nat)
    ensures RowSum(n, k + 1) == RowSum(n, k) + Choose(n, k)
  {
  }

  lemma ExactDivision(a: nat, b: nat, c: nat)
    requires b > 0 && a == b * c
    ensures a / b == c
  {
    SameQuotient(b, c, a / b, a % b);
  }

  lemma SameQuotient(b: int, c: int, q: int, r: int)
    requires 0 <= r < b && b * c == b * q + r
    ensures c == q
  {
    if c > q {
      Multiple(b, q, c);
    } else if c < q {
      Multiple(b, c, q);
    }
  }

  lemma Multiple(b: int, x: int, y: int)
    requires b > 0 && x < y
    ensures b * y >= b * x + b
    decreases y - x
  {
    assert b * y == b * (y - 1) + b;
    if x < y - 1 { Multiple(b, x, y - 1); }
  }

  /** No larger rank is admissible at all, not only up to n / 2. */
  lemma Largest(n: nat, alpha: real, r: nat, q: nat)
    requires alpha < 1.0 && r < q
    requires forall x | r < x <= n / 2 :: Ratio(RowSum(n, x), n) > alpha / 2.0
    ensures Ratio(RowSum(n, q), n) > alpha / 2.0
  {
    if q > n / 2 {
      var h := n / 2 + 1;
      RowMirror(n, h);
      RowMonotone(n, n + 1 - h, h);
      RowMonotone(n, h, q);
      HalfOrMore(RowSum(n, q), n);
    }
  }

  lemma HalfOrMore(a: nat, n: nat)
    requires 2 * a >= Pow2(n)
    ensures Ratio(a, n) >= 0.5
  {
    Pow2Positive(n);
    var t := Pow2(n) as real;
    DivMonotone(0.5 * t, a as real, t);
    MulDiv(0.5, t);
  }

  /** Coverage is a fraction of sign patterns: those in which at least r samples lie on each side. */
  lemma CoverageCounts(n: nat, r: nat)
    requires 2 * r <= n + 1
    ensures CountWithin(Patterns(n), r, n - r) == Pow2(n) - 2 * RowSum(n, r)
    ensures 1.0 - 2.0 * Ratio(RowSum(n, r), n) == Ratio(CountWithin(Patterns(n), r, n - r), n)
  {
    WithinIsDifference(Patterns(n), r, n - r);
    RowCounts(n, r);
    RowCounts(n, n + 1 - r);
    RowMirror(n, r);
    Pow2Positive(n);
    Complement(Pow2(n) as real, RowSum(n, r) as real);
  }

  lemma Complement(t: real, a: real)
    requires t > 0.0
    ensures 1.0 - 2.0 * (a / t) == (t - 2.0 * a) / t
  {
    var q := a / t;
    assert q * t == a;
    Divided(t - 2.0 * a, 1.0 - 2.0 * q, t);
  }

  lemma Divided(y: real, x: real, t: real)
    requires t > 0.0 && y == x * t
    ensures y / t == x
  {
  }

  lemma MulDiv(x: real, t: real)
    requires t > 0.0
    ensures (x * t) / t == x
  {
  }

  // ---- the samples ------------------------------------------------------------------------------------

  ghost predicate Ascending(s: seq<real>) {
    forall i, j | 0 <= i < j < |s| :: s[i] <= s[j]
  }

  function Insert(x: real, s: seq<real>): seq<real> {
    if s == [] || x <= s[0] then [x] + s else [s[0]] + Insert(x, s[1..])
  }

  /** `sorted`. */
  function Sort(xs: seq<real>): seq<real> {
    if xs == [] then [] else Insert(xs[0], Sort(xs[1..]))
  }

  lemma {:induction false} InsertBag(x: real, s: seq<real>)
    ensures multiset(Insert(x, s)) == multiset{x} + multiset(s) && |Insert(x, s)| == |s| + 1
  {
    if s != [] && x > s[0] {
      InsertBag(x, s[1..]);
      assert s == [s[0]] + s[1..];
    }
  }

  lemma InsertedFrom(x: real, s: seq<real>, y: real)
    requires y in Insert(x, s)
    ensures y == x || y in s
  {
    hide Insert;
    InsertBag(x, s);
    assert y in multiset(Insert(x, s));
  }

  lemma {:induction false} InsertAscending(x: real, s: seq<real>)
    requires Ascending(s)
    ensures Ascending(Insert(x, s))
  {
    hide Ascending;
    if s != [] {
      TailAscending(s);
      if x > s[0] {
        var t := Insert(x, s[1..]);
        InsertAscending(x, s[1..]);
        forall y | y in t
          ensures s[0] <= y
        {
          InsertedFrom(x, s[1..], y);
        }
        FrontAscending(s[0], t);
      } else {
        FrontAscending(x, s);
      }
    } else {
      OneAscending(x);
    }
  }

  lemma OneAscending(x: real)
    ensures Ascending([x]) && [x] + [] == [x]
  {
  }

  lemma TailAscending(s: seq<real>)
    requires s != [] && Ascending(s)
    ensures Ascending(s[1..]) && (forall y | y in s[1..] :: s[0] <= y) && forall y | y in s :: s[0] <= y
  {
    assert forall j | 0 <= j < |s[1..]| :: s[1..][j] == s[j + 1];
  }

  lemma FrontAscending(x: real, t: seq<real>)
    requires Ascending(t) && forall y | y in t :: x <= y
    ensures Ascending([x] + t)
  {
    assert forall j | 0 < j < |[x] + t| :: ([x] + t)[j] == t[j - 1];
    assert forall j | 0 <= j < |t| :: t[j] in t;
  }

  lemma {:induction false} SortSorts(xs: seq<real>)
    ensures Ascending(Sort(xs)) && multiset(Sort(xs)) == multiset(xs) && |Sort(xs)| == |xs|
  {
    if xs != [] {
      SortSorts(xs[1..]);
      InsertAscending(xs[0], Sort(xs[1..]));
      InsertBag(xs[0], Sort(xs[1..]));
      assert xs == [xs[0]] + xs[1..];
    }
  }

  /** `statistics.median` of the sorted samples. */
  function MedianOf(s: seq<real>): real
    requires s != []
  {
    if |s| % 2 == 1 then s[|s| / 2] else (s[|s| / 2 - 1] + s[|s| / 2]) / 2.0
  }

  function Below(m: real): real -> bool {
    x => x < m
  }

  function UpTo(m: real): real -> bool {
    x => x <= m
  }

  /** Which samples have a property: for `Below(m)`, the sign pattern around m. */
  function Signs(xs: seq<real>, p: real -> bool): seq<bool> {
    if xs == [] then [] else [p(xs[0])] + Signs(xs[1..], p)
  }

  lemma {:induction false} InsertOnes(x: real, s: seq<real>, p: real -> bool)
    ensures Ones(Signs(Insert(x, s), p)) == (if p(x) then 1 else 0) + Ones(Signs(s, p))
  {
    if s != [] && x > s[0] {
      InsertOnes(x, s[1..], p);
      assert Insert(x, s)[1..] == Insert(x, s[1..]);
      assert Signs(Insert(x, s), p)[1..] == Signs(Insert(x, s[1..]), p);
      assert Signs(s, p)[1..] == Signs(s[1..], p);
    } else {
      assert Insert(x, s)[1..] == s;
      assert Signs(Insert(x, s), p)[1..] == Signs(s, p);
    }
  }

  lemma {:induction false} SortOnes(xs: seq<real>, p: real -> bool)
    ensures Ones(Signs(Sort(xs), p)) == Ones(Signs(xs, p))
  {
    if xs != [] {
      SortOnes(xs[1..], p);
      InsertOnes(xs[0], Sort(xs[1..]), p);
      assert Signs(xs, p)[1..] == Signs(xs[1..], p);
    }
  }

  /** In ascending order the samples that lie low come first. */
  lemma {:induction false} LowFirst(s: seq<real>, p: real -> bool, i: nat)
    requires Ascending(s) && i < |s| && forall x, y | x <= y && p(y) :: p(x)
    ensures p(s[i]) <==> i < Ones(Signs(s, p))
  {
    assert Signs(s, p)[1..] == Signs(s[1..], p);
    if p(s[0]) {
      if i > 0 {
        assert Ascending(s[1..]) by { assert forall j | 0 <= j < |s[1..]| :: s[1..][j] == s[j + 1]; }
        LowFirst(s[1..], p, i - 1);
      }
    } else {
      assert forall x | x in s :: !p(x);
      NoneLow(s, p);
    }
  }

  lemma {:induction false} NoneLow(s: seq<real>, p: real -> bool)
    requires forall x | x in s :: !p(x)
    ensures Ones(Signs(s, p)) == 0
  {
    if s != [] {
      var x := s[0];
      assert x in s && !p(x);
      NoneLow(s[1..], p);
      assert Signs(s, p)[1..] == Signs(s[1..], p);
    }
  }

  lemma {:induction false} NoTies(xs: seq<real>, m: real)
    requires m !in xs
    ensures Signs(xs, UpTo(m)) == Signs(xs, Below(m))
  {
    if xs != [] {
      assert xs[0] in xs && forall x | x in xs[1..] :: x in xs;
      NoTies(xs[1..], m);
    }
  }

  /** A point lies in the interval of rank r exactly when at least r samples lie at or below it and at
      most all but r strictly below: for a point that is none of the samples, whether the interval
      covers depends on the sign pattern alone. */
  lemma CoversIffSigns(xs: seq<real>, m: real, r: nat)
    requires 1 <= r && 2 * r <= |xs|
    ensures |Sort(xs)| == |xs|
    ensures Sort(xs)[r - 1] <= m <= Sort(xs)[|xs| - r] <==>
              r <= Ones(Signs(xs, UpTo(m))) && Ones(Signs(xs, Below(m))) <= |xs| - r
    ensures m !in xs ==> Signs(xs, UpTo(m)) == Signs(xs, Below(m))
  {
    hide Sort, Signs, Ones;
    var s := Sort(xs);
    SortSorts(xs);
    SortOnes(xs, UpTo(m));
    SortOnes(xs, Below(m));
    LowFirst(s, UpTo(m), r - 1);
    LowFirst(s, Below(m), |xs| - r);
    if m !in xs { NoTies(xs, m); }
  }

  datatype Interval = Interval(low: real, high: real, coverage: real)

  /** `median_ci`. The interval holds the sample median; its coverage is the exact share of sign
      patterns in which it covers, at least 1 - alpha; and there is none exactly when even the
      widest interval, from the smallest to the largest sample, covers too rarely. */
  method MedianInterval(xs: seq<real>, alpha: real) returns (ci: Option<Interval>)
    requires 0.0 < alpha < 1.0
    ensures ci.None? <==> |xs| < 2 || Ratio(1, |xs|) > alpha / 2.0
    ensures ci.Some? ==> exists r: nat :: IsIntervalOf(xs, alpha, r, ci.value)
  {
    var s := Sort(xs);
    SortSorts(xs);
    var n := |s|;
    var r, coverage := Rank(n, alpha);
    RowOne(n);
    if r == 0 {
      if n >= 2 { assert Ratio(RowSum(n, 1), n) > alpha / 2.0; }
      return None;
    }
    assert Ratio(1, n) <= alpha / 2.0 by {
      RowMonotone(n, 1, r);
      RatioMonotone(1, RowSum(n, r), n);
    }
    CoverageCounts(n, r);
    forall q | q > r
      ensures !FitsRank(n, alpha, q)
    {
      Largest(n, alpha, r, q);
    }
    var i := Interval(s[r - 1], s[n - r], coverage.value);
    assert IsIntervalOf(xs, alpha, r, i);
    return Some(i);
  }

  ghost predicate FitsRank(n: nat, alpha: real, r: nat) {
    Ratio(RowSum(n, r), n) <= alpha / 2.0
  }

  ghost predicate IsIntervalOf(xs: seq<real>, alpha: real, r: nat, ci: Interval) {
    && 1 <= r && 2 * r <= |xs| == |Sort(xs)|
    && ci.low == Sort(xs)[r - 1] && ci.high == Sort(xs)[|xs| - r]
    && FitsRank(|xs|, alpha, r) && (forall q | q > r :: !FitsRank(|xs|, alpha, q))
    && ci.coverage == Ratio(CountWithin(Patterns(|xs|), r, |xs| - r), |xs|) >= 1.0 - alpha
    && ci.low <= MedianOf(Sort(xs)) <= ci.high
  }

  lemma RowOne(n: nat)
    ensures RowSum(n, 1) == 1
  {
    assert RowSum(n, 1) == RowSum(n, 0) + Choose(n, 0);
  }

  /** At 95% the smallest sample with an interval has six elements. */
  lemma SixNeeded(n: nat)
    ensures n < 2 || Ratio(1, n) > 0.05 / 2.0 <==> n < 6
  {
    assert Pow2(3) == 8 && Pow2(5) == 32 && Pow2(6) == 64;
    Pow2Positive(n);
    if n < 6 {
      Pow2Monotone(n, 5);
      Share(Pow2(n), 32);
    } else {
      Pow2Monotone(6, n);
      Share(64, Pow2(n));
    }
  }

  lemma Share(a: nat, b: nat)
    requires 0 < a <= b
    ensures 1.0 / b as real <= 1.0 / a as real
  {
    var x, y, p, q := 1.0 / a as real, 1.0 / b as real, a as real, b as real;
    assert x * p == 1.0 && y * q == 1.0;
    if y > x {
      Scaled(x, y, p);
      Scaled(p, q, y);
    }
  }

  lemma Scaled(x: real, y: real, c: real)
    requires x <= y && c > 0.0
    ensures x * c <= y * c && (x < y ==> x * c < y * c)
  {
  }

  lemma {:induction false} Pow2Monotone(m: nat, n: nat)
    requires m <= n
    ensures Pow2(m) <= Pow2(n)
    decreases n
  {
    if m < n {
      Pow2Monotone(m, n - 1);
      Pow2Positive(n - 1);
    }
  }

  // ---- summaries and verdicts -----------------------------------------------------------------------

  datatype Summary = Summary(median: real, low: real, high: real)

  ghost predicate Centered(s: Summary) {
    s.low <= s.median <= s.high
  }

  /** `summarize`: the spread is the interval with its coverage, or the full range when there is no
      interval; either way it holds the median. */
  method Summarize(xs: seq<real>, alpha: real) returns (s: Summary, coverage: Option<real>)
    requires xs != [] && 0.0 < alpha < 1.0
    ensures Centered(s) && s.median == MedianOf(Sort(xs)) && |Sort(xs)| == |xs|
    ensures coverage.None? <==> |xs| < 2 || Ratio(1, |xs|) > alpha / 2.0
    ensures coverage.None? ==> s.low == Sort(xs)[0] && s.high == Sort(xs)[|xs| - 1]
    ensures coverage.Some? ==> exists r: nat :: IsIntervalOf(xs, alpha, r, Interval(s.low, s.high, coverage.value))
  {
    hide Sort, CountWithin, Patterns, RowSum;
    SortSorts(xs);
    var sorted := Sort(xs);
    var m := MedianOf(sorted);
    var ci := MedianInterval(xs, alpha);
    if ci.Some? {
      s, coverage := Summary(m, ci.value.low, ci.value.high), Some(ci.value.coverage);
      assert Interval(s.low, s.high, coverage.value) == ci.value;
    } else {
      s, coverage := Summary(m, sorted[0], sorted[|sorted| - 1]), None;
    }
  }

  datatype Better = Lower | Higher

  datatype Verdict = Inconclusive | Rust | Go

  /** `compare`, the faster side. */
  function Compare(go: Summary, rust: Summary, better: Better): Verdict {
    var overlap := !(rust.high < go.low || go.high < rust.low);
    if overlap || go.median == rust.median then Inconclusive
    else if better == Lower then (if rust.median < go.median then Rust else Go)
    else if rust.median > go.median then Rust
    else Go
  }

  /** x's whole spread lies on the better side of y's. */
  ghost predicate Beats(x: Summary, y: Summary, better: Better) {
    if better == Lower then x.high < y.low else y.high < x.low
  }

  ghost predicate Holds(s: Summary, m: real) {
    s.low <= m <= s.high
  }

  /** A side is called faster exactly when its whole spread beats the other's; otherwise the spreads
      overlap and the verdict says so. */
  lemma VerdictSound(go: Summary, rust: Summary, better: Better)
    requires Centered(go) && Centered(rust)
    ensures Compare(go, rust, better) == Rust <==> Beats(rust, go, better)
    ensures Compare(go, rust, better) == Go <==> Beats(go, rust, better)
    ensures Compare(go, rust, better) == Inconclusive <==> exists m :: Holds(rust, m) && Holds(go, m)
  {
    if rust.high >= go.low && go.high >= rust.low {
      var m := if rust.low < go.low then go.low else rust.low;
      assert Holds(rust, m) && Holds(go, m);
    }
  }
}

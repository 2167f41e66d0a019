/** Which rounds the block-hash gate of scripts/bench/catchup_lib.py compares, and how the oldest
    retained round is found. */
module HashSampling {
  import opened Optional
  import opened Binomial

  // ---- half-even rounding of a fraction ------------------------------------------------------------------

  /** Python's `round` of a / d. */
  function RoundEven(a: nat, d: nat): nat
    requires d > 0
  {
    var q, r := a / d, a % d;
    if 2 * r < d then q
    else if 2 * r > d then q + 1
    else if q % 2 == 0 then q
    else q + 1
  }

  /** The result is a nearest integer. */
  lemma Nearest(a: nat, d: nat)
    requires d > 0
    ensures -(d as int) <= 2 * (d * RoundEven(a, d)) - 2 * a <= d
  {
    DivMod(a, d);
    var q := a / d;
    assert d * (q + 1) == d * q + d;
  }

  lemma DivMod(a: nat, d: nat)
    requires d > 0
    ensures a == d * (a / d) + a % d && 0 <= a % d < d
  {
  }

  lemma Exact(m: nat, d: nat)
    requires d > 0
    ensures RoundEven(d * m, d) == m
  {
    DivMod(d * m, d);
    QuotientOf(d, m, (d * m) / d, (d * m) % d);
  }

  lemma QuotientOf(d: int, m: int, q: int, r: int)
    requires 0 <= r < d && d * m == d * q + r
    ensures m == q && r == 0
  {
    if m > q {
      Apart(d, q, m);
    } else if m < q {
      Apart(d, m, q);
    }
  }

  lemma {:induction false} Apart(d: int, x: int, y: int)
    requires d > 0 && x < y
    ensures d * y >= d * x + d
    decreases y - x
  {
    assert d * y == d * (y - 1) + d;
    if x < y - 1 { Apart(d, x, y - 1); }
  }

  // ---- sample_rounds ---------------------------------------------------------------------------------------

  /** The offset of the i-th of cap evenly spaced rounds among n. */
  function Offset(n: nat, cap: nat, i: nat): nat
    requires n > 0 && cap >= 2
  {
    RoundEven(i * (n - 1), cap - 1)
  }

  function Range(lo: int, hi: int): seq<int>
    requires lo <= hi + 1
  {
    seq(hi + 1 - lo, (i: nat) => lo + i)
  }

  /** `sample_rounds` (the spaced offsets come out in ascending order, so sorting them as a set
      changes nothing: see `SortedAlready`). */
  function SampleRounds(lo: int, hi: int, cap: nat): seq<int>
    requires cap >= 1
  {
    if hi < lo then []
    else
      var n := hi - lo + 1;
      if n <= cap then Range(lo, hi)
      else if cap == 1 then [hi]
      else seq(cap, (i: nat) => lo + Offset(n, cap, i))
  }

  ghost predicate Increasing(s: seq<int>) {
    forall i, j | 0 <= i < j < |s| :: s[i] < s[j]
  }

  /** g is the step m / d rounded down or up, and not zero. */
  ghost predicate StepRounded(d: int, m: int, g: int) {
    g >= 1 && d * (g - 1) < m < d * (g + 1)
  }

  /** g is at most one off the step. */
  ghost predicate Near(d: int, m: int, g: int) {
    -d <= d * g - m <= d
  }

  ghost predicate OneOff(d: int, m: int, g: int) {
    d * g - m == d || d * g - m == -d
  }

  /** One step of spaced rounds: the distance between neighbours is the step rounded down or up. */
  lemma Gap(n: nat, cap: nat, i: nat)
    requires cap >= 2 && n > cap
    ensures StepRounded(cap - 1, n - 1, Offset(n, cap, i + 1) - Offset(n, cap, i))
  {
    hide RoundEven, StepRounded, Near, OneOff;
    var d, m := cap - 1, n - 1;
    NearMultiples(d, m, i);
    NotOneOff(d, m, i);
    GapBounds(d, m, Offset(n, cap, i + 1) - Offset(n, cap, i));
  }

  lemma NextMultiple(i: int, m: int)
    ensures (i + 1) * m == i * m + m
  {
  }

  lemma NearMultiples(d: nat, m: nat, i: nat)
    requires d > 0
    ensures Near(d, m, RoundEven((i + 1) * m, d) - RoundEven(i * m, d))
  {
    hide RoundEven, Near;
    var a, b := i * m, (i + 1) * m;
    NextMultiple(i, m);
    Nearest(a, d);
    Nearest(b, d);
    WithinOne(d, m, RoundEven(a, d), RoundEven(b, d), a, b);
  }

  lemma WithinOne(d: int, m: int, x: int, y: int, a: int, b: int)
    requires b == a + m && -d <= 2 * (d * x) - 2 * a <= d && -d <= 2 * (d * y) - 2 * b <= d
    ensures Near(d, m, y - x)
  {
    Differ(d, y, x);
  }

  lemma Differ(d: int, y: int, x: int)
    ensures d * y - d * x == d * (y - x)
  {
  }

  /** Off by exactly one step would need two ties, but then the step is whole and nothing is rounded. */
  lemma NotOneOff(d: nat, m: nat, i: nat)
    requires d > 0 && m > 0
    ensures !OneOff(d, m, RoundEven((i + 1) * m, d) - RoundEven(i * m, d))
  {
    hide RoundEven, OneOff;
    var g := RoundEven((i + 1) * m, d) - RoundEven(i * m, d);
    if s :| m == d * s {
      Whole(d, m, s, i);
      WholeStep(d, m, g);
    } else {
      BrokenStep(d, m, g);
    }
  }

  lemma WholeStep(d: nat, m: nat, g: int)
    requires d > 0 && d * g == m
    ensures !OneOff(d, m, g)
  {
  }

  lemma BrokenStep(d: nat, m: nat, g: int)
    requires forall s :: m != d * s
    ensures !OneOff(d, m, g)
  {
    Differ(d, g, 1);
    Differ(d, g, -1);
    assert m != d * (g - 1) && m != d * (g + 1);
  }

  /** When the step is a whole number every offset is exact. */
  lemma Whole(d: nat, m: nat, s: int, i: nat)
    requires d > 0 && m == d * s && m > 0
    ensures d * (RoundEven((i + 1) * m, d) - RoundEven(i * m, d)) == m
  {
    hide RoundEven;
    Positive(d, s);
    ExactMultiple(d, s, i);
    ExactMultiple(d, s, i + 1);
    NextMultiple(i, s);
  }

  lemma ExactMultiple(d: nat, s: nat, i: nat)
    requires d > 0
    ensures RoundEven(i * (d * s), d) == i * s
  {
    hide RoundEven;
    Regroup(i, d, s);
    Exact(i * s, d);
  }

  lemma Regroup(i: int, d: int, s: int)
    ensures i * (d * s) == d * (i * s)
  {
  }

  lemma Positive(d: nat, s: int)
    requires d > 0 && d * s > 0
    ensures s > 0
  {
    assert s <= 0 ==> d * s <= 0;
  }

  lemma GapBounds(d: int, m: int, g: int)
    requires 0 < d < m && Near(d, m, g) && !OneOff(d, m, g)
    ensures StepRounded(d, m, g)
  {
    Differ(d, g, 1);
    Differ(d, g, -1);
    assert g <= 0 ==> d * g <= 0;
  }

  lemma {:induction false} OffsetsIncrease(n: nat, cap: nat, i: nat, j: nat)
    requires cap >= 2 && n > cap && i < j
    ensures Offset(n, cap, i) < Offset(n, cap, j)
    decreases j - i
  {
    hide Offset;
    Gap(n, cap, j - 1);
    if i < j - 1 { OffsetsIncrease(n, cap, i, j - 1); }
  }

  lemma Ends(n: nat, cap: nat)
    requires cap >= 2 && n > 0
    ensures Offset(n, cap, 0) == 0 && Offset(n, cap, cap - 1) == n - 1
  {
    assert 0 * (n - 1) == (cap - 1) * 0;
    Exact(0, cap - 1);
    Exact(n - 1, cap - 1);
  }

  /** Exactly min(n, cap) rounds of the range, ascending and so all different, always with the last
      one and from two on with the first. */
  lemma SampleShape(lo: int, hi: int, cap: nat)
    requires cap >= 1
    ensures var s, n := SampleRounds(lo, hi, cap), hi - lo + 1;
      && |s| == (if hi < lo then 0 else if n < cap then n else cap)
      && Increasing(s) && (forall r | r in s :: lo <= r <= hi)
      && (lo <= hi ==> s[|s| - 1] == hi && (cap >= 2 ==> s[0] == lo))
  {
    hide Offset;
    var s := SampleRounds(lo, hi, cap);
    if lo <= hi && hi - lo + 1 > cap >= 2 {
      var n := hi - lo + 1;
      Ends(n, cap);
      forall i, j | 0 <= i < j < |s|
        ensures s[i] < s[j]
      {
        OffsetsIncrease(n, cap, i, j);
      }
      forall i | 0 <= i < |s|
        ensures lo <= s[i] <= hi
      {
        if 0 < i { OffsetsIncrease(n, cap, 0, i); }
        if i < cap - 1 { OffsetsIncrease(n, cap, i, cap - 1); }
      }
    }
  }

  /** Neighbouring samples are the step apart, rounded down or up. */
  lemma SampleGaps(lo: int, hi: int, cap: nat, i: nat)
    requires cap >= 2 && hi - lo + 1 > cap && i + 1 < cap
    ensures var s, n := SampleRounds(lo, hi, cap), hi - lo + 1;
      |s| == cap && (s[i + 1] - s[i] == (n - 1) / (cap - 1) || s[i + 1] - s[i] == (n - 2) / (cap - 1) + 1)
  {
    hide Offset;
    var n := hi - lo + 1;
    Gap(n, cap, i);
    var g := Offset(n, cap, i + 1) - Offset(n, cap, i);
    FloorOrCeil(n - 1, cap - 1, g);
  }

  lemma FloorOrCeil(m: nat, d: nat, g: int)
    requires d > 0 && m > 0 && StepRounded(d, m, g)
    ensures g == m / d || g == (m - 1) / d + 1
  {
    DivMod(m, d);
    var q := m / d;
    Differ(d, q, -1);
    if g > q {
      NotAbove(d, q, g, m);
      CeilOf(m, d, q);
    } else {
      NotBelow(d, q, g, m);
    }
  }

  lemma NotAbove(d: int, q: int, g: int, m: int)
    requires d > 0 && d * (g - 1) < m < d * q + d && g > q
    ensures g == q + 1 && d * q < m
  {
    Monotone(d, q + 1, g - 1);
    Differ(d, q, -1);
  }

  lemma NotBelow(d: int, q: int, g: int, m: int)
    requires d > 0 && d * q <= m < d * (g + 1) && g <= q
    ensures g == q
  {
    Monotone(d, g + 1, q);
  }

  lemma Monotone(d: int, x: int, y: int)
    requires d > 0
    ensures x <= y ==> d * x <= d * y
  {
    if x < y { Apart(d, x, y); }
  }

  lemma CeilOf(m: nat, d: nat, q: nat)
    requires d > 0 && m > 0 && d * q < m < d * q + d
    ensures (m - 1) / d == q
  {
    DivMod(m - 1, d);
    Between(d, q, (m - 1) / d, (m - 1) % d, m - 1);
  }

  lemma Between(d: int, q: int, p: int, r: int, a: int)
    requires 0 <= r < d && a == d * p + r && d * q <= a < d * q + d
    ensures p == q
  {
    if p < q {
      Apart(d, p, q);
    } else if q < p {
      Apart(d, q, p);
    }
  }

  /** Two ascending lists with the same elements are the same list. */
  lemma {:induction false} SortedAlready(a: seq<int>, b: seq<int>)
    requires Increasing(a) && Increasing(b) && forall x :: x in a <==> x in b
    ensures a == b
    decreases |a|
  {
    SameEmpty(a, b);
    if a != [] {
      var x, y := a[0], b[0];
      assert x in a && y in b;
      LeastFirst(a, y);
      LeastFirst(b, x);
      forall z
        ensures z in a[1..] <==> z in b[1..]
      {
        TailElements(a, z);
        TailElements(b, z);
      }
      TailIncreasing(a);
      TailIncreasing(b);
      SortedAlready(a[1..], b[1..]);
      assert a == [x] + a[1..] && b == [y] + b[1..];
    }
  }

  lemma SameEmpty(a: seq<int>, b: seq<int>)
    requires forall x :: x in a <==> x in b
    ensures a == [] <==> b == []
  {
    if a != [] {
      var x := a[0];
      assert x in a;
    }
    if b != [] {
      var x := b[0];
      assert x in b;
    }
  }

  lemma LeastFirst(s: seq<int>, x: int)
    requires Increasing(s) && x in s
    ensures s[0] <= x
  {
  }

  lemma TailElements(s: seq<int>, x: int)
    requires s != [] && Increasing(s)
    ensures x in s[1..] <==> x in s && x != s[0]
  {
    if x in s[1..] {
      var i :| 0 <= i < |s[1..]| && s[1..][i] == x;
      assert s[i + 1] == x;
    }
  }

  lemma TailIncreasing(s: seq<int>)
    requires s != [] && Increasing(s)
    ensures Increasing(s[1..]) && forall x | x in s[1..] :: s[0] < x
  {
    assert forall i | 0 <= i < |s[1..]| :: s[1..][i] == s[i + 1];
  }

  // ---- oldest_available ---------------------------------------------------------------------------------------

  ghost predicate Suffix(lo: int, hi: int, available: int -> bool) {
    forall r | lo <= r < hi && available(r) :: available(r + 1)
  }

  /** `oldest_available`. The result is available and its predecessor is not; when availability is a
      suffix it is the least available round. `probes` counts the calls of `available`. */
  method OldestAvailable(lo: int, hi: int, available: int -> bool) returns (r: Option<int>, probes: nat)
    ensures r.None? <==> hi < lo || !available(hi)
    ensures r.Some? ==> lo <= r.value <= hi && available(r.value) && (r.value > lo ==> !available(r.value - 1))
    ensures r.Some? && Suffix(lo, hi, available) ==> forall x | lo <= x < r.value :: !available(x)
    ensures probes >= 2 ==> Pow2(probes - 2) <= hi - lo
  {
    probes := 0;
    if hi < lo {
      return None, probes;
    }
    probes := 1;
    if !available(hi) {
      return None, probes;
    }
    var a, b := lo, hi;
    while a < b
      invariant lo <= a <= b <= hi && available(b) && (a > lo ==> !available(a - 1)) && probes >= 1
      invariant (b - a) * Pow2(probes - 1) <= hi - lo
      invariant probes >= 2 ==> Pow2(probes - 2) <= hi - lo
    {
      var mid := (a + b) / 2;
      ghost var width := b - a;
      Halving(width, Pow2(probes - 1), hi - lo, width / 2);
      probes := probes + 1;
      if available(mid) {
        b := mid;
      } else {
        a := mid + 1;
      }
      Shrinks(b - a, width / 2, Pow2(probes - 1));
    }
    if Suffix(lo, hi, available) {
      forall x | lo <= x < a
        ensures !available(x)
      {
        if available(x) { Upward(lo, hi, available, x, a - 1); }
      }
    }
    return Some(a), probes;
  }

  lemma Halving(w: nat, p: nat, total: int, h: nat)
    requires w >= 1 && w * p <= total && h == w / 2
    ensures h * (2 * p) <= total && p <= total
  {
    assert 2 * h <= w;
    assert h * (2 * p) == (2 * h) * p;
    Larger(2 * h, w, p);
    Larger(1, w, p);
  }

  lemma Larger(x: int, y: int, p: nat)
    requires x <= y
    ensures x * p <= y * p
  {
    assert (y - x) * p >= 0;
    assert y * p == x * p + (y - x) * p;
  }

  lemma Shrinks(x: int, y: int, p: nat)
    requires x <= y
    ensures x * p <= y * p
  {
    Larger(x, y, p);
  }

  lemma {:induction false} Upward(lo: int, hi: int, available: int -> bool, x: int, y: int)
    requires Suffix(lo, hi, available) && lo <= x <= y <= hi && available(x)
    ensures available(y)
    decreases y - x
  {
    if x < y { Upward(lo, hi, available, x + 1, y); }
  }
}

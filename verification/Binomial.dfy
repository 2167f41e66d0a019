/** Rows of Pascal's triangle and the sign patterns they count. */
module Binomial {
  function Choose(n: nat, k: nat): nat {
    if k == 0 then 1 else if n == 0 then 0 else Choose(n - 1, k - 1) + Choose(n - 1, k)
  }

  function Pow2(n: nat): nat {
    if n == 0 then 1 else 2 * Pow2(n - 1)
  }

  /** The first k entries of row n. */
  function RowSum(n: nat, k: nat): nat {
    if k == 0 then 0 else RowSum(n, k - 1) + Choose(n, k - 1)
  }

  lemma {:induction false} ChooseBeyond(n: nat, k: nat)
    requires k > n
    ensures Choose(n, k) == 0
  {
    if n > 0 {
      ChooseBeyond(n - 1, k - 1);
      ChooseBeyond(n - 1, k);
    }
  }

  /** Stepping along a row: the division in C(n, k + 1) = C(n, k) * (n - k) / (k + 1) is exact. */
  lemma {:induction false} Absorb(n: nat, k: nat)
    requires k <= n
    ensures (k + 1) * Choose(n, k + 1) == (n - k) * Choose(n, k)
  {
    if n == 0 {
    } else if k == n {
      ChooseBeyond(n, n + 1);
    } else if k == 0 {
      Absorb(n - 1, 0);
    } else {
      Absorb(n - 1, k);
      Absorb(n - 1, k - 1);
      AbsorbStep(n, k, Choose(n - 1, k - 1), Choose(n - 1, k), Choose(n - 1, k + 1));
    }
  }

  lemma AbsorbStep(n: int, k: int, a: int, b: int, c: int)
    requires (k + 1) * c == (n - 1 - k) * b && k * b == (n - 1 - (k - 1)) * a
    ensures (k + 1) * (b + c) == (n - k) * (a + b)
  {
    calc {
      (k + 1) * (b + c);
      (k + 1) * b + (k + 1) * c;
      (k + 1) * b + (n - 1 - k) * b;
      k * b + (n - k) * b;
      (n - k) * a + (n - k) * b;
      (n - k) * (a + b);
    }
  }

  lemma {:induction false} Symmetric(n: nat, k: nat)
    requires k <= n
    ensures Choose(n, k) == Choose(n, n - k)
  {
    if n > 0 {
      if k == 0 || k == n {
        Ends(n);
      } else {
        Symmetric(n - 1, k - 1);
        Symmetric(n - 1, k);
      }
    }
  }

  lemma {:induction false} Ends(n: nat)
    ensures Choose(n, 0) == 1 == Choose(n, n)
  {
    if n > 0 {
      Ends(n - 1);
      ChooseBeyond(n - 1, n);
    }
  }

  lemma {:induction false} RowSumStep(n: nat, k: nat)
    requires n > 0 && k > 0
    ensures RowSum(n, k) == RowSum(n - 1, k) + RowSum(n - 1, k - 1)
    decreases k
  {
    if k > 1 { RowSumStep(n, k - 1); }
  }

  lemma {:induction false} RowTotal(n: nat)
    ensures RowSum(n, n + 1) == Pow2(n)
  {
    if n > 0 {
      RowTotal(n - 1);
      RowSumStep(n, n + 1);
      ChooseBeyond(n - 1, n);
    } else {
      assert RowSum(0, 1) == RowSum(0, 0) + Choose(0, 0);
    }
  }

  /** A row reads the same from both ends. */
  lemma {:induction false} RowMirror(n: nat, k: nat)
    requires k <= n + 1
    ensures RowSum(n, k) + RowSum(n, n + 1 - k) == Pow2(n)
    decreases k
  {
    if k == 0 {
      RowTotal(n);
    } else {
      RowMirror(n, k - 1);
      Symmetric(n, k - 1);
    }
  }

  lemma {:induction false} RowMonotone(n: nat, j: nat, k: nat)
    requires j <= k
    ensures RowSum(n, j) <= RowSum(n, k)
    decreases k
  {
    if j < k { RowMonotone(n, j, k - 1); }
  }

  lemma {:induction false} Pow2Positive(n: nat)
    ensures Pow2(n) > 0
  {
    if n > 0 { Pow2Positive(n - 1); }
  }

  // ---- sign patterns --------------------------------------------------------------------------------

  function Ones(p: seq<bool>): nat {
    if p == [] then 0 else (if p[0] then 1 else 0) + Ones(p[1..])
  }

  function Cons(b: bool, ps: seq<seq<bool>>): (r: seq<seq<bool>>)
    ensures |r| == |ps|
  {
    if ps == [] then [] else [[b] + ps[0]] + Cons(b, ps[1..])
  }

  /** All patterns of length n. */
  function Patterns(n: nat): seq<seq<bool>> {
    if n == 0 then [[]] else Cons(true, Patterns(n - 1)) + Cons(false, Patterns(n - 1))
  }

  lemma {:induction false} ConsHas(b: bool, ps: seq<seq<bool>>, p: seq<bool>)
    ensures p in Cons(b, ps) <==> p != [] && p[0] == b && p[1..] in ps
  {
    if ps != [] {
      ConsHas(b, ps[1..], p);
      assert p in Cons(b, ps) <==> p == [b] + ps[0] || p in Cons(b, ps[1..]);
      assert p != [] && p[0] == b ==> p == [b] + p[1..];
      assert ([b] + ps[0])[1..] == ps[0];
    }
  }

  ghost predicate Once(ps: seq<seq<bool>>) {
    forall i, j | 0 <= i < j < |ps| :: ps[i] != ps[j]
  }

  lemma {:induction false} ConsAt(b: bool, ps: seq<seq<bool>>, i: nat)
    requires i < |ps|
    ensures Cons(b, ps)[i] == [b] + ps[i]
  {
    if i > 0 { ConsAt(b, ps[1..], i - 1); }
  }

  /** The patterns of length n, each exactly once. */
  lemma {:induction false} PatternsAll(n: nat)
    ensures forall p :: p in Patterns(n) <==> |p| == n
    ensures Once(Patterns(n))
    ensures |Patterns(n)| == Pow2(n)
  {
    if n > 0 {
      PatternsAll(n - 1);
      var ps := Patterns(n - 1);
      forall p: seq<bool>
        ensures p in Patterns(n) <==> |p| == n
      {
        ConsHas(true, ps, p);
        ConsHas(false, ps, p);
      }
      ConsOnce(ps);
    }
  }

  lemma ConsOnce(ps: seq<seq<bool>>)
    requires Once(ps)
    ensures Once(Cons(true, ps) + Cons(false, ps))
  {
    var all := Cons(true, ps) + Cons(false, ps);
    forall i, j | 0 <= i < j < |all|
      ensures all[i] != all[j]
    {
      var n := |ps|;
      if i < n { ConsAt(true, ps, i); } else { ConsAt(false, ps, i - n); }
      if j < n { ConsAt(true, ps, j); } else { ConsAt(false, ps, j - n); }
      assert all[i][0] == (i < n) && all[j][0] == (j < n);
      assert all[i][1..] == ps[if i < n then i else i - n] && all[j][1..] == ps[if j < n then j else j - n];
    }
  }

  /** How many of the patterns have fewer than k ones. */
  function CountBelow(ps: seq<seq<bool>>, k: int): nat {
    if ps == [] then 0 else (if Ones(ps[0]) < k then 1 else 0) + CountBelow(ps[1..], k)
  }

  /** How many have at least lo and at most hi ones. */
  function CountWithin(ps: seq<seq<bool>>, lo: int, hi: int): nat {
    if ps == [] then 0 else (if lo <= Ones(ps[0]) <= hi then 1 else 0) + CountWithin(ps[1..], lo, hi)
  }

  lemma {:induction false} WithinIsDifference(ps: seq<seq<bool>>, lo: int, hi: int)
    requires lo <= hi + 1
    ensures CountWithin(ps, lo, hi) == CountBelow(ps, hi + 1) - CountBelow(ps, lo)
  {
    if ps != [] { WithinIsDifference(ps[1..], lo, hi); }
  }

  lemma {:induction false} BelowConcat(xs: seq<seq<bool>>, ys: seq<seq<bool>>, k: int)
    ensures CountBelow(xs + ys, k) == CountBelow(xs, k) + CountBelow(ys, k)
  {
    if xs == [] {
      assert xs + ys == ys;
    } else {
      assert (xs + ys)[1..] == xs[1..] + ys;
      BelowConcat(xs[1..], ys, k);
    }
  }

  lemma {:induction false} BelowCons(b: bool, ps: seq<seq<bool>>, k: int)
    ensures CountBelow(Cons(b, ps), k) == CountBelow(ps, if b then k - 1 else k)
  {
    if ps != [] {
      BelowCons(b, ps[1..], k);
      assert ([b] + ps[0])[1..] == ps[0];
      assert Cons(b, ps)[1..] == Cons(b, ps[1..]);
    }
  }

  lemma {:induction false} NoneBelowZero(ps: seq<seq<bool>>)
    ensures CountBelow(ps, 0) == 0
  {
    if ps != [] { NoneBelowZero(ps[1..]); }
  }

  /** The row sums count the patterns. */
  lemma {:induction false} RowCounts(n: nat, k: nat)
    ensures CountBelow(Patterns(n), k) == RowSum(n, k)
    decreases n
  {
    if k == 0 {
      NoneBelowZero(Patterns(n));
    } else if n == 0 {
      assert Patterns(0)[1..] == [];
      RowOfZero(k);
    } else {
      RowCounts(n - 1, k - 1);
      RowCounts(n - 1, k);
      BelowConcat(Cons(true, Patterns(n - 1)), Cons(false, Patterns(n - 1)), k);
      BelowCons(true, Patterns(n - 1), k);
      BelowCons(false, Patterns(n - 1), k);
      RowSumStep(n, k);
    }
  }

  lemma {:induction false} RowOfZero(k: nat)
    requires k > 0
    ensures RowSum(0, k) == 1
  {
    if k > 1 {
      RowOfZero(k - 1);
      ChooseBeyond(0, k - 1);
    } else {
      assert RowSum(0, 1) == RowSum(0, 0) + Choose(0, 0);
    }
  }
}

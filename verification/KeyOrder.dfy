/** Python's `sorted` on the string keys of a dict: the keys once each, in ascending order of their
    code points. */
module KeyOrder {
  import opened MsgPack

  predicate Less(a: string, b: string) {
    b != [] && (a == [] || a[0] < b[0] || (a[0] == b[0] && Less(a[1..], b[1..])))
  }

  lemma {:induction false} LessTotal(a: string, b: string)
    ensures a == b || Less(a, b) || Less(b, a)
  {
    if a != [] && b != [] && a[0] == b[0] {
      LessTotal(a[1..], b[1..]);
      assert a == [a[0]] + a[1..] && b == [b[0]] + b[1..];
    }
  }

  lemma {:induction false} LessTransitive(a: string, b: string, c: string)
    requires Less(a, b) && Less(b, c)
    ensures Less(a, c)
  {
    if a != [] && a[0] == b[0] == c[0] {
      LessTransitive(a[1..], b[1..], c[1..]);
    }
  }

  lemma {:induction false} LessIrreflexive(a: string)
    ensures !Less(a, a)
  {
    if a != [] {
      LessIrreflexive(a[1..]);
    }
  }

  predicate Least(k: Value, ks: set<Value>)
    requires forall x | x in ks :: x.Str?
  {
    k in ks && forall x | x in ks :: x == k || Less(k.s, x.s)
  }

  lemma {:induction false} LeastExists(ks: set<Value>)
    requires ks != {} && forall x | x in ks :: x.Str?
    ensures exists k :: Least(k, ks)
  {
    var x :| x in ks;
    var rest := ks - {x};
    if rest == {} {
      assert ks == {x};
      assert Least(x, ks);
    } else {
      LeastExists(rest);
      var k :| Least(k, rest);
      LessTotal(x.s, k.s);
      if Less(k.s, x.s) {
        assert Least(k, ks);
      } else {
        forall y | y in ks
          ensures y == x || Less(x.s, y.s)
        {
          if y != x && y != k { LessTransitive(x.s, k.s, y.s); }
        }
        assert Least(x, ks);
      }
    }
  }

  lemma LeastUnique(ks: set<Value>)
    requires forall x | x in ks :: x.Str?
    ensures forall a, b | Least(a, ks) && Least(b, ks) :: a == b
  {
    forall a, b | Least(a, ks) && Least(b, ks)
      ensures a == b
    {
      if a != b {
        LessTransitive(a.s, b.s, a.s);
        LessIrreflexive(a.s);
      }
    }
  }

  predicate Ascending(s: seq<Value>) {
    (forall x | x in s :: x.Str?) && forall i, j | 0 <= i < j < |s| :: Less(s[i].s, s[j].s)
  }

  /** The keys of a dict in ascending order. */
  function SortKeys(ks: set<Value>): (s: seq<Value>)
    requires forall x | x in ks :: x.Str?
    ensures Ascending(s)
    ensures forall x :: x in s <==> x in ks
    ensures |s| == |ks|
  {
    if ks == {} then []
    else
      LeastExists(ks);
      LeastUnique(ks);
      var k :| Least(k, ks);
      [k] + SortKeys(ks - {k})
  }
}

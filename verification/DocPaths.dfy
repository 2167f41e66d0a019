/** Dotted paths of scripts/bench/rest_lib.py: how differences print them, how the allowlist matches
    them, and how volatile fields are dropped by them. */
module DocPaths {
  import opened MsgPack
  import opened JsonDiffs

  // ---- splitting -----------------------------------------------------------------------------------

  /** `s.split(".")`. */
  function Split(s: string): (r: seq<string>)
    ensures |r| >= 1
  {
    if s == "" then [""]
    else if s[0] == '.' then [""] + Split(s[1..])
    else
      var t := Split(s[1..]);
      [[s[0]] + t[0]] + t[1..]
  }

  function Join(r: seq<string>): string {
    if r == [] then "" else if |r| == 1 then r[0] else r[0] + "." + Join(r[1..])
  }

  lemma {:induction false} JoinSplit(s: string)
    ensures Join(Split(s)) == s
  {
    if s != "" {
      JoinSplit(s[1..]);
      JoinFront(s[0], Split(s[1..]));
      assert s == [s[0]] + s[1..];
    }
  }

  lemma JoinCons(x: string, t: seq<string>)
    ensures Join([x] + t) == if t == [] then x else x + "." + Join(t)
  {
    assert ([x] + t)[1..] == t;
  }

  /** One more character in front: a dot opens a new segment, any other joins the first one. */
  lemma JoinFront(c: char, t: seq<string>)
    requires t != []
    ensures Join([""] + t) == "." + Join(t)
    ensures Join([[c] + t[0]] + t[1..]) == [c] + Join(t)
  {
    hide Join;
    JoinCons("", t);
    assert "" + "." + Join(t) == "." + Join(t);
    JoinCons([c] + t[0], t[1..]);
    JoinCons(t[0], t[1..]);
    assert [t[0]] + t[1..] == t;
    assert [c] + t[0] + "." + Join(t[1..]) == [c] + (t[0] + "." + Join(t[1..]));
  }

  lemma SplitInjective(a: string, b: string)
    requires Split(a) == Split(b)
    ensures a == b
  {
    JoinSplit(a);
    JoinSplit(b);
  }

  lemma {:induction false} SplitPlain(x: string)
    requires '.' !in x
    ensures Split(x) == [x]
  {
    if x != "" {
      assert x[0] in x && forall c | c in x[1..] :: c in x;
      SplitPlain(x[1..]);
      assert [x[0]] + x[1..] == x;
    }
  }

  lemma {:induction false} SplitAppend(p: string, x: string)
    requires '.' !in x
    ensures Split(p + "." + x) == Split(p) + [x]
  {
    var s := p + "." + x;
    if p == "" {
      assert s == "." + x && s[1..] == x;
      SplitPlain(x);
    } else {
      assert s[0] == p[0] && s[1..] == p[1..] + "." + x;
      SplitAppend(p[1..], x);
    }
  }

  // ---- the path of a difference ----------------------------------------------------------------------

  function Render(show: Value -> string, path: string, at: seq<Seg>): string
    decreases |at|
  {
    if at == [] then path else Render(show, ChildPath(show, path, at[0]), at[1..])
  }

  /** What the source prints for an entry found below `path`. */
  ghost predicate Printed(show: Value -> string, path: string, e: Entry) {
    e.path == var full := Render(show, path, e.at); if e.kind == Differs && full == "" then "$" else full
  }

  ghost predicate AllPrinted(show: Value -> string, path: string, es: seq<Entry>) {
    forall e | e in es :: Printed(show, path, e)
  }

  lemma {:induction false} UnderPrinted(show: Value -> string, path: string, seg: Seg, es: seq<Entry>)
    requires AllPrinted(show, ChildPath(show, path, seg), es)
    ensures AllPrinted(show, path, Under(seg, es))
    decreases |es|
  {
    if es != [] {
      assert es[0] in es && ([seg] + es[0].at)[1..] == es[0].at;
      assert Printed(show, ChildPath(show, path, seg), es[0]);
      UnderPrinted(show, path, seg, es[1..]);
    }
  }

  lemma {:induction false} DiffPrinted(ord: Order, show: Value -> string, go: Value, rust: Value, path: string)
    ensures AllPrinted(show, path, Diff(ord, show, go, rust, path))
    decreases go, 2, 0
  {
    if go.Dict? && rust.Dict? {
      KeysPrinted(ord, show, go, rust, ord(go.m.Keys + rust.m.Keys), path);
    } else if go.Arr? && rust.Arr? {
      ItemsPrinted(ord, show, go, rust, 0, path);
    }
  }

  lemma OneSeg(show: Value -> string, path: string, seg: Seg)
    ensures Render(show, path, [seg]) == ChildPath(show, path, seg)
  {
    assert [seg][1..] == [];
  }

  lemma {:induction false} KeysPrinted(ord: Order, show: Value -> string, go: Value, rust: Value, ks: seq<Value>,
                                       path: string)
    requires go.Dict? && rust.Dict?
    ensures AllPrinted(show, path, DiffKeys(ord, show, go, rust, ks, path))
    decreases go, 1, |ks|
  {
    hide Diff, Render, ChildPath;
    if ks != [] {
      var k := ks[0];
      var p := ChildPath(show, path, Key(k));
      OneSeg(show, path, Key(k));
      if k in go.m && k in rust.m {
        DiffPrinted(ord, show, go.m[k], rust.m[k], p);
        UnderPrinted(show, path, Key(k), Diff(ord, show, go.m[k], rust.m[k], p));
      }
      assert AllPrinted(show, path, DiffKey(ord, show, go, rust, k, path));
      KeysPrinted(ord, show, go, rust, ks[1..], path);
    }
  }

  lemma {:induction false} ItemsPrinted(ord: Order, show: Value -> string, go: Value, rust: Value, i: nat, path: string)
    requires go.Arr? && rust.Arr? && i <= Longer(go, rust)
    ensures AllPrinted(show, path, DiffItems(ord, show, go, rust, i, path))
    decreases go, 1, Longer(go, rust) - i
  {
    hide Diff, Render, ChildPath;
    if i < Longer(go, rust) {
      var p := ChildPath(show, path, Index(i));
      OneSeg(show, path, Index(i));
      if i < |go.items| && i < |rust.items| {
        DiffPrinted(ord, show, go.items[i], rust.items[i], p);
        UnderPrinted(show, path, Index(i), Diff(ord, show, go.items[i], rust.items[i], p));
      }
      assert AllPrinted(show, path, DiffItem(ord, show, go, rust, i, path));
      ItemsPrinted(ord, show, go, rust, i + 1, path);
    }
  }

  function Texts(show: Value -> string, at: seq<Seg>): seq<string> {
    seq(|at|, (i: nat) requires i < |at| => SegText(show, at[i]))
  }

  /** No segment contains a dot. */
  ghost predicate Dotless(show: Value -> string, at: seq<Seg>) {
    forall i | 0 <= i < |at| :: '.' !in SegText(show, at[i])
  }

  lemma DotlessTail(show: Value -> string, at: seq<Seg>)
    requires at != [] && Dotless(show, at)
    ensures Dotless(show, at[1..]) && '.' !in SegText(show, at[0])
  {
    assert forall i | 0 <= i < |at[1..]| :: at[1..][i] == at[i + 1];
  }

  lemma {:induction false} SplitRender(show: Value -> string, path: string, at: seq<Seg>)
    requires Dotless(show, at) && path != ""
    ensures Split(Render(show, path, at)) == Split(path) + Texts(show, at)
    decreases |at|
  {
    hide Split;
    if at == [] {
      assert Texts(show, at) == [];
    } else {
      DotlessTail(show, at);
      var p := ChildPath(show, path, at[0]);
      SplitAppend(path, SegText(show, at[0]));
      SplitRender(show, p, at[1..]);
      assert Texts(show, at) == [SegText(show, at[0])] + Texts(show, at[1..]);
      assert Split(path) + [SegText(show, at[0])] + Texts(show, at[1..]) == Split(path) + Texts(show, at);
    }
  }

  lemma {:induction false} SplitDotless(s: string)
    ensures forall x | x in Split(s) :: '.' !in x
  {
    if s != "" { SplitDotless(s[1..]); }
  }

  /** Leading empty segments leave no trace in the printed path. */
  lemma {:induction false} FewerParts(show: Value -> string, at: seq<Seg>)
    requires Dotless(show, at) && at != []
    ensures |Split(Render(show, "", at))| <= |at|
    decreases |at|
  {
    hide Split;
    DotlessTail(show, at);
    var x := SegText(show, at[0]);
    SplitPlain(x);
    if x != "" {
      SplitRender(show, x, at[1..]);
    } else if |at| > 1 {
      FewerParts(show, at[1..]);
    }
  }

  /** The printed path splits back into the place's own segments, so that matching a path means
      matching a place, exactly when no segment contains a dot and the first of several is not empty. */
  lemma PathIsPlace(show: Value -> string, at: seq<Seg>)
    requires at != []
    ensures Split(Render(show, "", at)) == Texts(show, at) <==>
              Dotless(show, at) && (|at| == 1 || SegText(show, at[0]) != "")
  {
    hide Split;
    var x := SegText(show, at[0]);
    SplitDotless(Render(show, "", at));
    if Dotless(show, at) {
      DotlessTail(show, at);
      SplitPlain(x);
      assert Texts(show, at) == [x] + Texts(show, at[1..]);
      if x != "" {
        SplitRender(show, x, at[1..]);
      } else if |at| > 1 {
        FewerParts(show, at[1..]);
      }
    } else {
      var i :| 0 <= i < |at| && '.' in SegText(show, at[i]);
      assert Texts(show, at)[i] in Texts(show, at);
    }
  }

  // ---- matching ----------------------------------------------------------------------------------------

  /** `_path_matches`. */
  predicate PathMatches(want: string, got: string) {
    var w, g := Split(want), Split(got);
    |w| == |g| && forall i | 0 <= i < |w| :: w[i] == "*" || w[i] == g[i]
  }

  /** A path without a star matches itself and nothing else, in particular nothing below it. */
  lemma ExactMatch(want: string, got: string)
    requires "*" !in Split(want)
    ensures PathMatches(want, got) <==> want == got
  {
    if PathMatches(want, got) {
      var w, g := Split(want), Split(got);
      assert forall i | 0 <= i < |w| :: w[i] in w && w[i] == g[i];
      assert w == g;
      SplitInjective(want, got);
    }
  }

  // ---- dropping ----------------------------------------------------------------------------------------

  predicate Digits(s: string) {
    s != "" && forall i | 0 <= i < |s| :: '0' <= s[i] <= '9'
  }

  function Number(s: string): nat
    requires Digits(s)
  {
    if |s| == 1 then (s[0] - '0') as nat
    else Number(s[..|s| - 1]) * 10 + (s[|s| - 1] - '0') as nat
  }

  /** One pattern segment against one step of a place. */
  predicate SegFits(pat: string, seg: Seg) {
    pat == "*" ||
    match seg
    case Key(k) => k == Str(pat)
    case Index(i) => Digits(pat) && Number(pat) == i
  }

  /** `_drop` on a document held by value. */
  function Drop(v: Value, segs: seq<string>): Value
    requires segs != []
    decreases |segs|
  {
    var pat, rest := segs[0], segs[1..];
    match v
    case Dict(m) =>
      if rest == [] then Dict(map k | k in m && !SegFits(pat, Key(k)) :: m[k])
      else Dict(map k | k in m :: if SegFits(pat, Key(k)) then Drop(m[k], rest) else m[k])
    case Arr(xs) =>
      if rest == [] then
        Arr(if pat == "*" then []
            else if Digits(pat) && Number(pat) < |xs| then xs[..Number(pat)] + xs[Number(pat) + 1..]
            else xs)
      else Arr(seq(|xs|, (i: nat) requires i < |xs| => if SegFits(pat, Index(i)) then Drop(xs[i], rest) else xs[i]))
    case _ => v
  }

  function DropAll(v: Value, paths: seq<string>): Value
    decreases |paths|
  {
    if paths == [] then v else DropAll(Drop(v, Split(paths[0])), paths[1..])
  }

  /** The document has something at this place. */
  predicate Reaches(v: Value, at: seq<Seg>)
    decreases |at|
  {
    at == [] ||
    match at[0]
    case Key(k) => v.Dict? && k in v.m && Reaches(v.m[k], at[1..])
    case Index(i) => v.Arr? && i < |v.items| && Reaches(v.items[i], at[1..])
  }

  predicate Fitting(segs: seq<string>, at: seq<Seg>) {
    |segs| == |at| && forall i | 0 <= i < |at| :: SegFits(segs[i], at[i])
  }

  lemma FittingTail(segs: seq<string>, at: seq<Seg>)
    requires Fitting(segs, at) && at != []
    ensures Fitting(segs[1..], at[1..]) && SegFits(segs[0], at[0])
  {
  }

  lemma FittingCons(segs: seq<string>, seg: Seg, at: seq<Seg>)
    requires segs != [] && SegFits(segs[0], seg)
    ensures Fitting(segs[1..], at) ==> Fitting(segs, [seg] + at)
  {
    assert forall i | 0 < i < |segs| :: segs[i] == segs[1..][i - 1];
  }

  /** Dropping changes nothing unless the document has a place that fits the pattern. */
  lemma {:induction false} DropAbsent(v: Value, segs: seq<string>)
    requires segs != [] && forall at | Reaches(v, at) :: !Fitting(segs, at)
    ensures Drop(v, segs) == v
    decreases |segs|
  {
    var pat, rest := segs[0], segs[1..];
    assert segs == [pat] + rest;
    match v {
      case Dict(m) =>
        forall k | k in m && SegFits(pat, Key(k))
          ensures rest != [] && Drop(m[k], rest) == m[k]
        {
          StepsDown(v, Key(k), m[k], segs);
          if rest == [] {
            assert Reaches(m[k], []) && Fitting(rest, []);
          } else {
            DropAbsent(m[k], rest);
          }
        }
        assert Drop(v, segs).m == m;
      case Arr(xs) =>
        forall i | 0 <= i < |xs| && SegFits(pat, Index(i))
          ensures rest != [] && Drop(xs[i], rest) == xs[i]
        {
          StepsDown(v, Index(i), xs[i], segs);
          if rest == [] {
            assert Reaches(xs[i], []) && Fitting(rest, []);
          } else {
            DropAbsent(xs[i], rest);
          }
        }
        AbsentIndex(xs, segs);
      case _ =>
    }
  }

  lemma AbsentIndex(xs: seq<Value>, segs: seq<string>)
    requires segs != []
    requires forall i | 0 <= i < |xs| && SegFits(segs[0], Index(i)) ::
               segs[1..] != [] && Drop(xs[i], segs[1..]) == xs[i]
    ensures Drop(Arr(xs), segs).items == xs
  {
    var pat := segs[0];
    assert pat == "*" ==> SegFits(pat, Index(0));
    assert Digits(pat) ==> SegFits(pat, Index(Number(pat)));
  }

  ghost predicate Below(v: Value, seg: Seg, child: Value) {
    match seg
    case Key(k) => v.Dict? && k in v.m && v.m[k] == child
    case Index(i) => v.Arr? && i < |v.items| && v.items[i] == child
  }

  lemma StepsDown(v: Value, seg: Seg, child: Value, segs: seq<string>)
    requires Below(v, seg, child) && segs != [] && SegFits(segs[0], seg)
    requires forall at | Reaches(v, at) :: !Fitting(segs, at)
    ensures forall at | Reaches(child, at) :: !Fitting(segs[1..], at)
  {
    forall at | Reaches(child, at)
      ensures !Fitting(segs[1..], at)
    {
      assert ([seg] + at)[1..] == at && ([seg] + at)[0] == seg;
      assert Reaches(v, [seg] + at);
      FittingCons(segs, seg, at);
    }
  }

  /** A place that fits is always dropped: the document changes. */
  lemma {:induction false} DropPresent(v: Value, segs: seq<string>, at: seq<Seg>)
    requires segs != [] && Reaches(v, at) && Fitting(segs, at)
    ensures Drop(v, segs) != v
    decreases |segs|
  {
    FittingTail(segs, at);
    var rest := segs[1..];
    match at[0] {
      case Key(k) =>
        if rest == [] {
          assert k !in Drop(v, segs).m;
        } else {
          DropPresent(v.m[k], rest, at[1..]);
          assert Drop(v, segs).m[k] != v.m[k];
        }
      case Index(i) =>
        if rest == [] {
          assert |Drop(v, segs).items| != |v.items|;
        } else {
          DropPresent(v.items[i], rest, at[1..]);
          assert Drop(v, segs).items[i] != v.items[i];
        }
    }
  }

  /** Another value at a place. */
  function Put(v: Value, at: seq<Seg>, x: Value): Value
    requires Reaches(v, at)
    decreases |at|
  {
    if at == [] then x
    else
      match at[0]
      case Key(k) => Dict(v.m[k := Put(v.m[k], at[1..], x)])
      case Index(i) => Arr(v.items[i := Put(v.items[i], at[1..], x)])
  }

  /** What stands at a dropped place cannot matter: documents that differ only there are equal after
      dropping. */
  lemma {:induction false} DroppedUnseen(v: Value, segs: seq<string>, at: seq<Seg>, x: Value)
    requires segs != [] && Reaches(v, at) && Fitting(segs, at)
    ensures Drop(Put(v, at, x), segs) == Drop(v, segs)
    decreases |segs|
  {
    hide SegFits, Drop, Digits, Number;
    FittingTail(segs, at);
    var rest := segs[1..];
    match at[0] {
      case Key(k) =>
        var y := Put(v.m[k], at[1..], x);
        if rest != [] { DroppedUnseen(v.m[k], rest, at[1..], x); }
        KeyUnseen(v.m, segs, k, y);
      case Index(i) =>
        var y := Put(v.items[i], at[1..], x);
        if rest != [] { DroppedUnseen(v.items[i], rest, at[1..], x); }
        IndexUnseen(v.items, segs, i, y);
    }
  }

  lemma KeyUnseen(m: map<Value, Value>, segs: seq<string>, k: Value, y: Value)
    requires segs != [] && k in m && SegFits(segs[0], Key(k))
    requires segs[1..] != [] ==> Drop(y, segs[1..]) == Drop(m[k], segs[1..])
    ensures Drop(Dict(m[k := y]), segs) == Drop(Dict(m), segs)
  {
    hide SegFits;
    assert Drop(Dict(m[k := y]), segs).m == Drop(Dict(m), segs).m;
  }

  lemma IndexUnseen(xs: seq<Value>, segs: seq<string>, i: nat, y: Value)
    requires segs != [] && i < |xs| && SegFits(segs[0], Index(i))
    requires segs[1..] != [] ==> Drop(y, segs[1..]) == Drop(xs[i], segs[1..])
    ensures Drop(Arr(xs[i := y]), segs) == Drop(Arr(xs), segs)
  {
    hide Number, Digits;
    assert Drop(Arr(xs[i := y]), segs).items == Drop(Arr(xs), segs).items;
  }

  // ---- what dropping leaves alone ------------------------------------------------------------------------

  function Lookup(v: Value, at: seq<Seg>): Value
    requires Reaches(v, at)
    decreases |at|
  {
    if at == [] then v
    else
      match at[0]
      case Key(k) => Lookup(v.m[k], at[1..])
      case Index(i) => Lookup(v.items[i], at[1..])
  }

  /** The place parts ways with the pattern at some segment: it is neither dropped nor on the way to
      something dropped. */
  predicate Spared(segs: seq<string>, at: seq<Seg>)
    decreases |segs|
  {
    && segs != [] && at != []
    && (SegFits(segs[0], at[0]) ==> |segs| > 1 && Spared(segs[1..], at[1..]))
  }

  /** Where a spared place is afterwards: behind a dropped list element everything moves up by one. */
  function Moved(segs: seq<string>, at: seq<Seg>): seq<Seg>
    requires Spared(segs, at)
    decreases |segs|
  {
    if SegFits(segs[0], at[0]) then [at[0]] + Moved(segs[1..], at[1..])
    else if at[0].Index? && |segs| == 1 && Digits(segs[0]) && Number(segs[0]) < at[0].i then
      [Index(at[0].i - 1)] + at[1..]
    else at
  }

  /** Everything else stays: a spared place holds the same value after dropping. */
  lemma {:induction false} SparedKept(v: Value, segs: seq<string>, at: seq<Seg>)
    requires Spared(segs, at) && Reaches(v, at)
    ensures Reaches(Drop(v, segs), Moved(segs, at)) && Lookup(Drop(v, segs), Moved(segs, at)) == Lookup(v, at)
    decreases |segs|
  {
    hide Digits, Number, SegFits, Drop;
    FirstStep(v, at);
    var child := Lookup(v, [at[0]]);
    if SegFits(segs[0], at[0]) {
      SparedKept(child, segs[1..], at[1..]);
      DropInside(v, segs, at[0]);
      StepPlace(Drop(v, segs), at[0], Drop(child, segs[1..]), Moved(segs[1..], at[1..]));
    } else {
      DropBeside(v, segs, at[0]);
      var first := Moved(segs, at)[0];
      assert Moved(segs, at) == [first] + at[1..];
      StepPlace(Drop(v, segs), first, child, at[1..]);
    }
  }

  lemma FirstStep(v: Value, at: seq<Seg>)
    requires at != [] && Reaches(v, at)
    ensures Reaches(v, [at[0]]) && Reaches(Lookup(v, [at[0]]), at[1..])
    ensures Lookup(v, at) == Lookup(Lookup(v, [at[0]]), at[1..])
  {
    assert [at[0]][1..] == [];
  }

  lemma StepPlace(v: Value, seg: Seg, child: Value, rest: seq<Seg>)
    requires Below(v, seg, child) && Reaches(child, rest)
    ensures Reaches(v, [seg] + rest) && Lookup(v, [seg] + rest) == Lookup(child, rest)
  {
    assert ([seg] + rest)[1..] == rest;
  }

  /** A fitting segment that is not the last: the pattern goes on inside that child. */
  lemma DropInside(v: Value, segs: seq<string>, seg: Seg)
    requires |segs| > 1 && Reaches(v, [seg]) && SegFits(segs[0], seg)
    ensures Below(Drop(v, segs), seg, Drop(Lookup(v, [seg]), segs[1..]))
  {
    hide SegFits, Digits, Number;
    assert [seg][1..] == [];
  }

  /** A child that does not fit is kept, possibly one place further up in its list. */
  lemma DropBeside(v: Value, segs: seq<string>, seg: Seg)
    requires segs != [] && Reaches(v, [seg]) && !SegFits(segs[0], seg)
    ensures
      var gap := seg.Index? && |segs| == 1 && Digits(segs[0]) && Number(segs[0]) < seg.i;
      var seg' := if gap then Index(seg.i - 1) else seg;
      Below(Drop(v, segs), seg', Lookup(v, [seg]))
  {
    hide Digits, Number;
    assert [seg][1..] == [];
  }
}

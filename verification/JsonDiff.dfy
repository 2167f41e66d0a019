/** `json_diff` of scripts/bench/rest_lib.py: the differences between two decoded documents. */
module JsonDiffs {
  import opened Optional
  import opened MsgPack

  /** One step into a document. */
  datatype Seg = Key(k: Value) | Index(i: nat)

  datatype Kind = OnlyGo | OnlyRust | Differs | Status | ContentType | Encoding | Body

  /** A difference: the place it is at, and the dotted path the source prints for it. */
  datatype Entry = Entry(at: seq<Seg>, path: string, kind: Kind, go: Option<Value>, rust: Option<Value>)

  /** The order in which keys are visited (the source sorts by `str`, which leaves ties open). */
  type Order = set<Value> -> seq<Value>

  ghost predicate Lists(s: seq<Value>, ks: set<Value>) {
    && (forall x :: x in s <==> x in ks)
    && (forall i, j | 0 <= i < j < |s| :: s[i] != s[j])
  }

  ghost predicate Enumerates(ord: Order) {
    forall ks :: Lists(ord(ks), ks)
  }

  function Digit(d: nat): char
    requires d < 10
  {
    ['0', '1', '2', '3', '4', '5', '6', '7', '8', '9'][d]
  }

  function Decimal(n: nat): string {
    if n < 10 then [Digit(n)] else Decimal(n / 10) + [Digit(n % 10)]
  }

  function SegText(show: Value -> string, seg: Seg): string {
    match seg
    case Key(k) => show(k)
    case Index(i) => Decimal(i)
  }

  /** The path of a child. An empty path, whatever led to it, contributes nothing. */
  function ChildPath(show: Value -> string, path: string, seg: Seg): string {
    if path == "" then SegText(show, seg) else path + "." + SegText(show, seg)
  }

  function Under(seg: Seg, es: seq<Entry>): (r: seq<Entry>)
    ensures |r| == |es|
  {
    if es == [] then [] else [es[0].(at := [seg] + es[0].at)] + Under(seg, es[1..])
  }

  function Diff(ord: Order, show: Value -> string, go: Value, rust: Value, path: string): seq<Entry>
    decreases go, 2, 0
  {
    if go.Dict? && rust.Dict? then DiffKeys(ord, show, go, rust, ord(go.m.Keys + rust.m.Keys), path)
    else if go.Arr? && rust.Arr? then DiffItems(ord, show, go, rust, 0, path)
    else if go != rust then [Entry([], if path == "" then "$" else path, Differs, Some(go), Some(rust))]
    else []
  }

  function DiffKey(ord: Order, show: Value -> string, go: Value, rust: Value, k: Value, path: string): seq<Entry>
    requires go.Dict? && rust.Dict?
    decreases go, 0, 0
  {
    var p := ChildPath(show, path, Key(k));
    if k !in rust.m then (if k in go.m then [Entry([Key(k)], p, OnlyGo, Some(go.m[k]), None)] else [])
    else if k !in go.m then [Entry([Key(k)], p, OnlyRust, None, Some(rust.m[k]))]
    else Under(Key(k), Diff(ord, show, go.m[k], rust.m[k], p))
  }

  function DiffKeys(ord: Order, show: Value -> string, go: Value, rust: Value, ks: seq<Value>, path: string): seq<Entry>
    requires go.Dict? && rust.Dict?
    decreases go, 1, |ks|
  {
    if ks == [] then []
    else DiffKey(ord, show, go, rust, ks[0], path) + DiffKeys(ord, show, go, rust, ks[1..], path)
  }

  function Longer(go: Value, rust: Value): nat
    requires go.Arr? && rust.Arr?
  {
    if |go.items| < |rust.items| then |rust.items| else |go.items|
  }

  function DiffItem(ord: Order, show: Value -> string, go: Value, rust: Value, i: nat, path: string): seq<Entry>
    requires go.Arr? && rust.Arr? && i < Longer(go, rust)
    decreases go, 0, 0
  {
    var p := ChildPath(show, path, Index(i));
    if i >= |rust.items| then [Entry([Index(i)], p, OnlyGo, Some(go.items[i]), None)]
    else if i >= |go.items| then [Entry([Index(i)], p, OnlyRust, None, Some(rust.items[i]))]
    else Under(Index(i), Diff(ord, show, go.items[i], rust.items[i], p))
  }

  function DiffItems(ord: Order, show: Value -> string, go: Value, rust: Value, i: nat, path: string): seq<Entry>
    requires go.Arr? && rust.Arr? && i <= Longer(go, rust)
    decreases go, 1, Longer(go, rust) - i
  {
    if i == Longer(go, rust) then []
    else DiffItem(ord, show, go, rust, i, path) + DiffItems(ord, show, go, rust, i + 1, path)
  }

  // ---- empty exactly when equal -----------------------------------------------------------------

  /** No difference is reported exactly when the two documents are equal, types included. */
  lemma {:induction false} EmptyIffEqual(ord: Order, show: Value -> string, go: Value, rust: Value, path: string)
    requires Enumerates(ord)
    ensures Diff(ord, show, go, rust, path) == [] <==> go == rust
    decreases go, 2, 0
  {
    if go.Dict? && rust.Dict? {
      var ks := ord(go.m.Keys + rust.m.Keys);
      assert Lists(ks, go.m.Keys + rust.m.Keys);
      EmptyKeys(ord, show, go, rust, ks, path);
      if Diff(ord, show, go, rust, path) == [] {
        assert forall k | k in go.m.Keys + rust.m.Keys :: k in ks;
        assert go.m == rust.m;
      }
    } else if go.Arr? && rust.Arr? {
      EmptyItems(ord, show, go, rust, 0, path);
    }
  }

  ghost predicate SameAt(go: Value, rust: Value, k: Value)
    requires go.Dict? && rust.Dict?
  {
    (k in go.m <==> k in rust.m) && (k in go.m ==> go.m[k] == rust.m[k])
  }

  lemma {:induction false} EmptyKeys(ord: Order, show: Value -> string, go: Value, rust: Value, ks: seq<Value>,
                                     path: string)
    requires Enumerates(ord) && go.Dict? && rust.Dict? && forall k | k in ks :: k in go.m || k in rust.m
    ensures DiffKeys(ord, show, go, rust, ks, path) == [] <==> forall k | k in ks :: SameAt(go, rust, k)
    decreases go, 1, |ks|
  {
    hide Enumerates, Diff;
    if ks != [] {
      var k := ks[0];
      if k in go.m && k in rust.m {
        EmptyIffEqual(ord, show, go.m[k], rust.m[k], ChildPath(show, path, Key(k)));
      }
      assert DiffKey(ord, show, go, rust, k, path) == [] <==> SameAt(go, rust, k);
      EmptyKeys(ord, show, go, rust, ks[1..], path);
      assert forall x :: x in ks <==> x == k || x in ks[1..];
    }
  }

  lemma {:induction false} EmptyItems(ord: Order, show: Value -> string, go: Value, rust: Value, i: nat, path: string)
    requires Enumerates(ord) && go.Arr? && rust.Arr? && i <= Longer(go, rust)
    ensures DiffItems(ord, show, go, rust, i, path) == [] <==>
              i == Longer(go, rust) || (|go.items| == |rust.items| && go.items[i..] == rust.items[i..])
    decreases go, 1, Longer(go, rust) - i
  {
    hide Enumerates, Diff;
    if i < Longer(go, rust) {
      if i < |go.items| && i < |rust.items| {
        EmptyIffEqual(ord, show, go.items[i], rust.items[i], ChildPath(show, path, Index(i)));
        assert go.items[i..] == [go.items[i]] + go.items[i + 1..];
        assert rust.items[i..] == [rust.items[i]] + rust.items[i + 1..];
      }
      EmptyItems(ord, show, go, rust, i + 1, path);
      assert i + 1 == Longer(go, rust) && |go.items| == |rust.items| ==> go.items[i + 1..] == rust.items[i + 1..] == [];
    }
  }

  // ---- the differences as a patch ---------------------------------------------------------------------

  /** Carry out one entry at a place below v: put the other side's value there, add what only the
      other side has, take away what only this side has (a list ends where it first has no partner).
      A place that does not exist changes nothing. */
  function Apply(v: Value, at: seq<Seg>, e: Entry): Value
    decreases |at|
  {
    if at == [] then (if e.kind == Differs && e.rust.Some? then e.rust.value else v)
    else
      match at[0]
      case Key(k) =>
        if !v.Dict? then v
        else if |at| == 1 && e.kind == OnlyGo then Dict(v.m - {k})
        else if |at| == 1 && e.kind == OnlyRust && e.rust.Some? then Dict(v.m[k := e.rust.value])
        else if k in v.m then Dict(v.m[k := Apply(v.m[k], at[1..], e)])
        else v
      case Index(i) =>
        if !v.Arr? then v
        else if |at| == 1 && e.kind == OnlyGo then (if i < |v.items| then Arr(v.items[..i]) else v)
        else if |at| == 1 && e.kind == OnlyRust && e.rust.Some? then
          (if i == |v.items| then Arr(v.items + [e.rust.value]) else v)
        else if i < |v.items| then Arr(v.items[i := Apply(v.items[i], at[1..], e)])
        else v
  }

  /** All entries in their order. */
  function Replay(v: Value, es: seq<Entry>): Value
    decreases |es|
  {
    if es == [] then v else Replay(Apply(v, es[0].at, es[0]), es[1..])
  }

  lemma {:induction false} ReplayConcat(v: Value, xs: seq<Entry>, ys: seq<Entry>)
    ensures Replay(v, xs + ys) == Replay(Replay(v, xs), ys)
    decreases |xs|
  {
    hide Apply;
    if xs == [] {
      assert xs + ys == ys;
    } else {
      assert (xs + ys)[0] == xs[0] && (xs + ys)[1..] == xs[1..] + ys;
      ReplayConcat(Apply(v, xs[0].at, xs[0]), xs[1..], ys);
    }
  }

  /** An entry about the whole document replaces it. */
  ghost predicate Whole(es: seq<Entry>) {
    forall e | e in es :: e.at == [] ==> e.kind == Differs
  }

  lemma {:induction false} ReplayUnderKey(m: map<Value, Value>, k: Value, es: seq<Entry>)
    requires k in m && Whole(es)
    ensures Replay(Dict(m), Under(Key(k), es)) == Dict(m[k := Replay(m[k], es)])
    decreases |es|
  {
    if es == [] {
      assert m[k := m[k]] == m;
    } else {
      var e := es[0];
      assert e in es;
      var e' := e.(at := [Key(k)] + e.at);
      assert e'.at[1..] == e.at;
      var x := Apply(m[k], e.at, e);
      ApplySameEntry(m[k], e.at, e, e');
      assert Apply(Dict(m), e'.at, e') == Dict(m[k := x]);
      var m' := m[k := x];
      ReplayUnderKey(m', k, es[1..]);
      assert Under(Key(k), es)[1..] == Under(Key(k), es[1..]);
      assert m'[k := Replay(x, es[1..])] == m[k := Replay(x, es[1..])];
    }
  }

  lemma {:induction false} ReplayUnderIndex(xs: seq<Value>, i: nat, es: seq<Entry>)
    requires i < |xs| && Whole(es)
    ensures Replay(Arr(xs), Under(Index(i), es)) == Arr(xs[i := Replay(xs[i], es)])
    decreases |es|
  {
    if es == [] {
      assert xs[i := xs[i]] == xs;
    } else {
      var e := es[0];
      assert e in es;
      var e' := e.(at := [Index(i)] + e.at);
      assert e'.at[1..] == e.at;
      var x := Apply(xs[i], e.at, e);
      ApplySameEntry(xs[i], e.at, e, e');
      assert Apply(Arr(xs), e'.at, e') == Arr(xs[i := x]);
      ReplayUnderIndex(xs[i := x], i, es[1..]);
      assert Under(Index(i), es)[1..] == Under(Index(i), es[1..]);
      assert xs[i := x][i := Replay(x, es[1..])] == xs[i := Replay(x, es[1..])];
    }
  }

  /** What an entry does depends on its kind and value only. */
  lemma {:induction false} ApplySameEntry(v: Value, at: seq<Seg>, e: Entry, e': Entry)
    requires e.kind == e'.kind && e.rust == e'.rust
    ensures Apply(v, at, e) == Apply(v, at, e')
    decreases |at|
  {
    if at != [] {
      match at[0]
      case Key(k) => if v.Dict? && k in v.m { ApplySameEntry(v.m[k], at[1..], e, e'); }
      case Index(i) => if v.Arr? && i < |v.items| { ApplySameEntry(v.items[i], at[1..], e, e'); }
    }
  }

  lemma {:induction false} UnderWhole(seg: Seg, es: seq<Entry>)
    ensures Whole(Under(seg, es))
    decreases |es|
  {
    if es != [] { UnderWhole(seg, es[1..]); }
  }

  lemma DiffWhole(ord: Order, show: Value -> string, go: Value, rust: Value, path: string)
    ensures Whole(Diff(ord, show, go, rust, path))
  {
    if go.Dict? && rust.Dict? {
      KeysWhole(ord, show, go, rust, ord(go.m.Keys + rust.m.Keys), path);
    } else if go.Arr? && rust.Arr? {
      ItemsWhole(ord, show, go, rust, 0, path);
    }
  }

  lemma {:induction false} KeysWhole(ord: Order, show: Value -> string, go: Value, rust: Value, ks: seq<Value>,
                                     path: string)
    requires go.Dict? && rust.Dict?
    ensures Whole(DiffKeys(ord, show, go, rust, ks, path))
    decreases |ks|
  {
    hide Diff;
    if ks != [] {
      var k := ks[0];
      if k in go.m && k in rust.m {
        UnderWhole(Key(k), Diff(ord, show, go.m[k], rust.m[k], ChildPath(show, path, Key(k))));
      }
      KeysWhole(ord, show, go, rust, ks[1..], path);
    }
  }

  lemma {:induction false} ItemsWhole(ord: Order, show: Value -> string, go: Value, rust: Value, i: nat, path: string)
    requires go.Arr? && rust.Arr? && i <= Longer(go, rust)
    ensures Whole(DiffItems(ord, show, go, rust, i, path))
    decreases Longer(go, rust) - i
  {
    hide Diff;
    if i < Longer(go, rust) {
      if i < |go.items| && i < |rust.items| {
        UnderWhole(Index(i), Diff(ord, show, go.items[i], rust.items[i], ChildPath(show, path, Index(i))));
      }
      ItemsWhole(ord, show, go, rust, i + 1, path);
    }
  }

  /** Replaying the differences on go's document yields rust's document. */
  lemma {:induction false} DiffIsPatch(ord: Order, show: Value -> string, go: Value, rust: Value, path: string)
    requires Enumerates(ord)
    ensures Replay(go, Diff(ord, show, go, rust, path)) == rust
    decreases go, 2, 0
  {
    if go.Dict? && rust.Dict? {
      var ks := ord(go.m.Keys + rust.m.Keys);
      assert Lists(ks, go.m.Keys + rust.m.Keys);
      KeysPatch(ord, show, go, rust, ks, go.m, path);
    } else if go.Arr? && rust.Arr? {
      ItemsPatch(ord, show, go, rust, 0, go.items, path);
    } else if go != rust {
      var e := Diff(ord, show, go, rust, path)[0];
      assert Diff(ord, show, go, rust, path)[1..] == [];
    }
  }

  lemma KeyPatch(ord: Order, show: Value -> string, go: Value, rust: Value, k: Value, cur: map<Value, Value>,
                 path: string)
    requires Enumerates(ord) && go.Dict? && rust.Dict? && (k in go.m || k in rust.m)
    requires (k in cur <==> k in go.m) && (k in cur ==> cur[k] == go.m[k])
    ensures Replay(Dict(cur), DiffKey(ord, show, go, rust, k, path))
            == Dict(if k in rust.m then cur[k := rust.m[k]] else cur - {k})
    decreases go, 0, 0
  {
    hide Enumerates, Diff;
    var p := ChildPath(show, path, Key(k));
    var es := DiffKey(ord, show, go, rust, k, path);
    if k in go.m && k in rust.m {
      var inner := Diff(ord, show, go.m[k], rust.m[k], p);
      DiffWhole(ord, show, go.m[k], rust.m[k], p);
      ReplayUnderKey(cur, k, inner);
      DiffIsPatch(ord, show, go.m[k], rust.m[k], p);
    } else {
      assert es == [es[0]] && es[1..] == [];
    }
  }

  /** `cur` is rust's dict on the keys already visited and go's on those still to come. */
  ghost predicate Midway(go: Value, rust: Value, cur: map<Value, Value>, ks: seq<Value>)
    requires go.Dict? && rust.Dict?
  {
    forall k ::
      && (k in ks ==> (k in cur <==> k in go.m) && (k in cur ==> cur[k] == go.m[k]))
      && (k !in ks ==> (k in cur <==> k in rust.m) && (k in cur ==> cur[k] == rust.m[k]))
  }

  lemma {:induction false} KeysPatch(ord: Order, show: Value -> string, go: Value, rust: Value, ks: seq<Value>,
                                     cur: map<Value, Value>, path: string)
    requires Enumerates(ord) && go.Dict? && rust.Dict?
    requires (forall k | k in ks :: k in go.m || k in rust.m) && Lists(ks, set k | k in ks)
    requires Midway(go, rust, cur, ks)
    ensures Replay(Dict(cur), DiffKeys(ord, show, go, rust, ks, path)) == rust
    decreases go, 1, |ks|
  {
    hide Enumerates, DiffKey, Replay;
    if ks == [] {
      assert cur == rust.m;
      ReplayNone(Dict(cur));
    } else {
      var k := ks[0];
      KeyPatch(ord, show, go, rust, k, cur, path);
      var next := if k in rust.m then cur[k := rust.m[k]] else cur - {k};
      ReplayConcat(Dict(cur), DiffKey(ord, show, go, rust, k, path), DiffKeys(ord, show, go, rust, ks[1..], path));
      MidwayNext(go, rust, cur, ks);
      KeysPatch(ord, show, go, rust, ks[1..], next, path);
    }
  }

  lemma ReplayNone(v: Value)
    ensures Replay(v, []) == v
  {
  }

  lemma MidwayNext(go: Value, rust: Value, cur: map<Value, Value>, ks: seq<Value>)
    requires go.Dict? && rust.Dict? && ks != [] && Lists(ks, set k | k in ks) && Midway(go, rust, cur, ks)
    ensures var k := ks[0];
      Midway(go, rust, if k in rust.m then cur[k := rust.m[k]] else cur - {k}, ks[1..])
    ensures Lists(ks[1..], set k | k in ks[1..])
  {
    assert forall x :: x in ks <==> x == ks[0] || x in ks[1..];
    assert ks[0] !in ks[1..];
    assert forall i, j | 0 <= i < j < |ks[1..]| :: ks[1..][i] == ks[i + 1] && ks[1..][j] == ks[j + 1];
  }

  /** What the list looks like once the places below i have been visited. */
  function Merged(go: seq<Value>, rust: seq<Value>, i: nat): seq<Value> {
    if i <= |rust| && i <= |go| then rust[..i] + go[i..]
    else if i <= |rust| then rust[..i]
    else rust
  }

  lemma ItemPatch(ord: Order, show: Value -> string, go: Value, rust: Value, i: nat, path: string)
    requires Enumerates(ord) && go.Arr? && rust.Arr? && i < Longer(go, rust)
    ensures Replay(Arr(Merged(go.items, rust.items, i)), DiffItem(ord, show, go, rust, i, path))
            == Arr(Merged(go.items, rust.items, i + 1))
    decreases go, 0, 0
  {
    hide Enumerates, Diff;
    var cur := Merged(go.items, rust.items, i);
    var p := ChildPath(show, path, Index(i));
    var es := DiffItem(ord, show, go, rust, i, path);
    if i < |go.items| && i < |rust.items| {
      var inner := Diff(ord, show, go.items[i], rust.items[i], p);
      DiffWhole(ord, show, go.items[i], rust.items[i], p);
      assert cur[i] == go.items[i];
      ReplayUnderIndex(cur, i, inner);
      DiffIsPatch(ord, show, go.items[i], rust.items[i], p);
      assert cur[i := rust.items[i]] == Merged(go.items, rust.items, i + 1);
    } else {
      assert es == [es[0]] && es[1..] == [];
      if i >= |rust.items| {
        assert i == |rust.items| ==> cur[..i] == rust.items;
        assert i > |rust.items| ==> cur == rust.items;
      } else {
        assert cur + [rust.items[i]] == rust.items[..i + 1];
      }
    }
  }

  lemma {:induction false} ItemsPatch(ord: Order, show: Value -> string, go: Value, rust: Value, i: nat,
                                      cur: seq<Value>, path: string)
    requires Enumerates(ord) && go.Arr? && rust.Arr? && i <= Longer(go, rust) && cur == Merged(go.items, rust.items, i)
    ensures Replay(Arr(cur), DiffItems(ord, show, go, rust, i, path)) == rust
    decreases go, 1, Longer(go, rust) - i
  {
    hide Enumerates, DiffItem, Replay;
    if i == Longer(go, rust) {
      assert cur == rust.items;
      ReplayNone(Arr(cur));
    } else {
      ItemPatch(ord, show, go, rust, i, path);
      ReplayConcat(Arr(cur), DiffItem(ord, show, go, rust, i, path), DiffItems(ord, show, go, rust, i + 1, path));
      ItemsPatch(ord, show, go, rust, i + 1, Merged(go.items, rust.items, i + 1), path);
    }
  }

  /** So the differences lose nothing: against the same document, equal reports mean equal documents. */
  lemma DiffInjective(ord: Order, show: Value -> string, go: Value, rust: Value, rust': Value, path: string)
    requires Enumerates(ord) && Diff(ord, show, go, rust, path) == Diff(ord, show, go, rust', path)
    ensures rust == rust'
  {
    DiffIsPatch(ord, show, go, rust, path);
    DiffIsPatch(ord, show, go, rust', path);
  }

  // ---- the function as the source runs it ------------------------------------------------------------

  /** `json_diff`, appending to a local list. */
  method JsonDiff(ord: Order, show: Value -> string, go: Value, rust: Value, path: string) returns (out: seq<Entry>)
    requires Enumerates(ord)
    ensures out == Diff(ord, show, go, rust, path)
    decreases go, 2
  {
    hide DiffKeys, DiffItems, Enumerates;
    if go.Dict? && rust.Dict? {
      out := DictDiff(ord, show, go, rust, path);
    } else if go.Arr? && rust.Arr? {
      out := ListDiff(ord, show, go, rust, path);
    } else if go != rust {
      out := [Entry([], if path == "" then "$" else path, Differs, Some(go), Some(rust))];
    } else {
      out := [];
    }
  }

  method DictDiff(ord: Order, show: Value -> string, go: Value, rust: Value, path: string) returns (out: seq<Entry>)
    requires Enumerates(ord) && go.Dict? && rust.Dict?
    ensures out == DiffKeys(ord, show, go, rust, ord(go.m.Keys + rust.m.Keys), path)
    decreases go, 1
  {
    hide Diff, DiffKey, Enumerates;
    out := [];
    var ks := ord(go.m.Keys + rust.m.Keys);
    assert Lists(ks, go.m.Keys + rust.m.Keys) by { Listed(ord, go.m.Keys + rust.m.Keys); }
    ghost var all := DiffKeys(ord, show, go, rust, ks, path);
    for i := 0 to |ks|
      invariant out + DiffKeys(ord, show, go, rust, ks[i..], path) == all
    {
      var k := ks[i];
      assert k in go.m.Keys + rust.m.Keys;
      assert ks[i..][0] == k && ks[i..][1..] == ks[i + 1..];
      ghost var before, rest := out, DiffKeys(ord, show, go, rust, ks[i + 1..], path);
      var found := KeyEntries(ord, show, go, rust, k, path);
      out := out + found;
      assert before + (found + rest) == out + rest;
    }
  }

  lemma Listed(ord: Order, ks: set<Value>)
    requires Enumerates(ord)
    ensures Lists(ord(ks), ks)
  {
  }

  method ListDiff(ord: Order, show: Value -> string, go: Value, rust: Value, path: string) returns (out: seq<Entry>)
    requires Enumerates(ord) && go.Arr? && rust.Arr?
    ensures out == DiffItems(ord, show, go, rust, 0, path)
    decreases go, 1
  {
    hide Diff, DiffItem, Enumerates;
    out := [];
    ghost var all := DiffItems(ord, show, go, rust, 0, path);
    for i := 0 to Longer(go, rust)
      invariant out + DiffItems(ord, show, go, rust, i, path) == all
    {
      ghost var before, rest := out, DiffItems(ord, show, go, rust, i + 1, path);
      var found := ItemEntries(ord, show, go, rust, i, path);
      out := out + found;
      assert before + (found + rest) == out + rest;
    }
  }

  method KeyEntries(ord: Order, show: Value -> string, go: Value, rust: Value, k: Value, path: string)
    returns (out: seq<Entry>)
    requires Enumerates(ord) && go.Dict? && rust.Dict? && (k in go.m || k in rust.m)
    ensures out == DiffKey(ord, show, go, rust, k, path)
    decreases go, 0
  {
    hide Diff, Enumerates;
    var p := ChildPath(show, path, Key(k));
    if k !in rust.m {
      out := [Entry([Key(k)], p, OnlyGo, Some(go.m[k]), None)];
    } else if k !in go.m {
      out := [Entry([Key(k)], p, OnlyRust, None, Some(rust.m[k]))];
    } else {
      var inner := JsonDiff(ord, show, go.m[k], rust.m[k], p);
      out := Under(Key(k), inner);
    }
  }

  method ItemEntries(ord: Order, show: Value -> string, go: Value, rust: Value, i: nat, path: string)
    returns (out: seq<Entry>)
    requires Enumerates(ord) && go.Arr? && rust.Arr? && i < Longer(go, rust)
    ensures out == DiffItem(ord, show, go, rust, i, path)
    decreases go, 0
  {
    hide Diff, Enumerates;
    var p := ChildPath(show, path, Index(i));
    if i >= |rust.items| {
      out := [Entry([Index(i)], p, OnlyGo, Some(go.items[i]), None)];
    } else if i >= |go.items| {
      out := [Entry([Index(i)], p, OnlyRust, None, Some(rust.items[i]))];
    } else {
      var inner := JsonDiff(ord, show, go.items[i], rust.items[i], p);
      out := Under(Index(i), inner);
    }
  }
}

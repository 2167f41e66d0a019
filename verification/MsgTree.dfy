/** Concrete syntax of MessagePack: a byte string as the tree of its tokens, every byte kept. A
    streaming unpacker's `skip` walks exactly this structure, without reading scalars. */
module MsgTree {
  import opened Bytes
  import opened MsgPack

  datatype Tree =
    | Leaf(raw: bytes)
    | ArrT(head: bytes, items: seq<Tree>)
    | MapT(head: bytes, pairs: seq<Pair>)

  datatype Pair = Pair(key: Tree, val: Tree)

  // ---- frames: tokens by extent only ----------------------------------------------

  datatype Shape = One | ArrOf(n: nat) | MapOf(n: nat)

  function FrameBody(f: Form, t: byte, b: bytes, i: nat): (r: Result<(Shape, nat)>)
    requires i <= |b|
    ensures r.Ok? ==> i <= r.value.1 <= |b|
  {
    match f
    case Immediate(Whole(_)) => Ok((One, i))
    case Immediate(ArrHead(n)) => Ok((ArrOf(n), i))
    case Immediate(MapHead(n)) => Ok((MapOf(n), i))
    case Fixed(_, n) =>
      var _ :- Take(b, i, n);
      Ok((One, i + n))
    case Sized(cls, w) =>
      var l :- Take(b, i, w);
      var n := FromBE(l) + Overhead(cls);
      var _ :- Take(b, i + w, n);
      Ok((One, i + w + n))
    case Counted(isMap, w) =>
      var l :- Take(b, i, w);
      Ok((if isMap then MapOf(FromBE(l)) else ArrOf(FromBE(l)), i + w))
    case Unknown => Err(BadType(t))
  }

  function FrameAt(b: bytes, i: nat): (r: Result<(Shape, nat)>)
    ensures r.Ok? ==> i < r.value.1 <= |b|
  {
    var tag :- Take(b, i, 1);
    FrameBody(FormOf(tag[0]), tag[0], b, i + 1)
  }

  function ShapeOf(tok: Token): Shape {
    match tok
    case Whole(_) => One
    case ArrHead(n) => ArrOf(n)
    case MapHead(n) => MapOf(n)
  }

  lemma TokenHasFrame(b: bytes, i: nat)
    requires TokenAt(b, i).Ok?
    ensures FrameAt(b, i) == Ok((ShapeOf(TokenAt(b, i).value.0), TokenAt(b, i).value.1))
  {
    hide FormOf, ScalarOf;
  }

  lemma HeadIsToken(b: bytes, i: nat)
    requires FrameAt(b, i).Ok? && !FrameAt(b, i).value.0.One?
    ensures TokenAt(b, i).Ok? && ShapeOf(TokenAt(b, i).value.0) == FrameAt(b, i).value.0
    ensures TokenAt(b, i).value.1 == FrameAt(b, i).value.1
  {
    hide FormOf, ScalarOf;
  }

  lemma FrameBodyLocal(f: Form, t: byte, b: bytes, i: nat, s: Shape, e: nat, b': bytes, i': nat)
    requires i <= e <= |b| && FrameBody(f, t, b, i) == Ok((s, e))
    requires At(b', i', b[i..e])
    ensures FrameBody(f, t, b', i') == Ok((s, i' + (e - i)))
  {
    match f
    case Immediate(_) =>
    case Fixed(_, n) =>
    case Sized(cls, w) =>
      AtPart(b, i, e, b', i', 0, w);
      assert Take(b', i', w) == Take(b, i, w);
    case Counted(_, w) =>
      AtPart(b, i, e, b', i', 0, w);
      assert Take(b', i', w) == Take(b, i, w);
    case Unknown =>
  }

  lemma FrameLocal(b: bytes, i: nat, s: Shape, e: nat, b': bytes, i': nat)
    requires FrameAt(b, i) == Ok((s, e)) && At(b', i', b[i..e])
    ensures FrameAt(b', i') == Ok((s, i' + (e - i)))
  {
    hide FormOf, FrameBody;
    AtPart(b, i, e, b', i', 0, 1);
    assert b'[i'] == b'[i'..i' + 1][0] == b[i..i + 1][0];
    AtPart(b, i, e, b', i', 1, e - i);
    FrameBodyLocal(FormOf(b[i]), b[i], b, i + 1, s, e, b', i' + 1);
  }

  // ---- trees and their bytes --------------------------------------------------------

  function Flat(t: Tree): bytes {
    match t
    case Leaf(raw) => raw
    case ArrT(head, items) => head + FlatItems(items)
    case MapT(head, pairs) => head + FlatPairs(pairs)
  }

  function FlatItems(ts: seq<Tree>): bytes {
    if ts == [] then [] else Flat(ts[0]) + FlatItems(ts[1..])
  }

  function FlatPairs(ps: seq<Pair>): bytes {
    if ps == [] then [] else
      assert ps[0].key < ps[0] && ps[0].val < ps[0];
      Flat(ps[0].key) + Flat(ps[0].val) + FlatPairs(ps[1..])
  }

  predicate IsFrame(raw: bytes, s: Shape) {
    FrameAt(raw, 0) == Ok((s, |raw|))
  }

  /** Heads announce exactly the children that follow, and leaves are single tokens. */
  predicate Framed(t: Tree) {
    match t
    case Leaf(raw) => IsFrame(raw, One)
    case ArrT(head, items) => IsFrame(head, ArrOf(|items|)) && forall x | x in items :: Framed(x)
    case MapT(head, pairs) => IsFrame(head, MapOf(|pairs|)) && forall p | p in pairs :: Framed(p.key) && Framed(p.val)
  }

  // ---- the structural parser ----------------------------------------------------------

  function ParseAt(b: bytes, i: nat): (r: Result<(Tree, nat)>)
    ensures r.Ok? ==> i < r.value.1 <= |b|
    decreases |b| - i, 0
  {
    var (s, e) :- FrameAt(b, i);
    match s
    case One => Ok((Leaf(b[i..e]), e))
    case ArrOf(n) =>
      var (ts, e') :- ParseItems(b, e, n);
      Ok((ArrT(b[i..e], ts), e'))
    case MapOf(n) =>
      var (ps, e') :- ParsePairs(b, e, n);
      Ok((MapT(b[i..e], ps), e'))
  }

  function ParseItems(b: bytes, i: nat, n: nat): (r: Result<(seq<Tree>, nat)>)
    requires i <= |b|
    ensures r.Ok? ==> i <= r.value.1 <= |b| && |r.value.0| == n
    decreases |b| - i, n + 1
  {
    if n == 0 then Ok(([], i))
    else
      var (t, e) :- ParseAt(b, i);
      var (ts, e') :- ParseItems(b, e, n - 1);
      Ok(([t] + ts, e'))
  }

  function ParsePairs(b: bytes, i: nat, n: nat): (r: Result<(seq<Pair>, nat)>)
    requires i <= |b|
    ensures r.Ok? ==> i <= r.value.1 <= |b| && |r.value.0| == n
    decreases |b| - i, n + 1
  {
    if n == 0 then Ok(([], i))
    else
      var (k, e1) :- ParseAt(b, i);
      var (v, e2) :- ParseAt(b, e1);
      var (ps, e') :- ParsePairs(b, e2, n - 1);
      Ok(([Pair(k, v)] + ps, e'))
  }

  /** Parsing keeps every byte: the tree flattens to the bytes it was read from. */
  lemma {:induction false} ParseSound(b: bytes, i: nat)
    requires ParseAt(b, i).Ok?
    ensures var (t, e) := ParseAt(b, i).value; Framed(t) && Flat(t) == b[i..e]
    decreases |b| - i, 0
  {
    hide FrameAt, ParseItems, ParsePairs, FlatItems, FlatPairs;
    var (s, e) := FrameAt(b, i).value;
    assert At(b[i..e], 0, b[i..e]);
    FrameLocal(b, i, s, e, b[i..e], 0);
    match s
    case One =>
    case ArrOf(n) =>
      ParseItemsSound(b, e, n);
      var e' := ParseItems(b, e, n).value.1;
      assert b[i..e'] == b[i..e] + b[e..e'];
    case MapOf(n) =>
      ParsePairsSound(b, e, n);
      var e' := ParsePairs(b, e, n).value.1;
      assert b[i..e'] == b[i..e] + b[e..e'];
  }

  lemma {:induction false} ParseItemsSound(b: bytes, i: nat, n: nat)
    requires i <= |b| && ParseItems(b, i, n).Ok?
    ensures var (ts, e) := ParseItems(b, i, n).value; (forall t | t in ts :: Framed(t)) && FlatItems(ts) == b[i..e]
    decreases |b| - i, n + 1
  {
    hide ParseAt, Flat, Framed;
    if n != 0 {
      ParseSound(b, i);
      var (t, e) := ParseAt(b, i).value;
      ParseItemsSound(b, e, n - 1);
      var (ts, e') := ParseItems(b, e, n - 1).value;
      assert b[i..e'] == b[i..e] + b[e..e'];
      assert ([t] + ts)[1..] == ts;
    }
  }

  lemma {:induction false} ParsePairsSound(b: bytes, i: nat, n: nat)
    requires i <= |b| && ParsePairs(b, i, n).Ok?
    ensures var (ps, e) := ParsePairs(b, i, n).value;
      (forall p | p in ps :: Framed(p.key) && Framed(p.val)) && FlatPairs(ps) == b[i..e]
    decreases |b| - i, n + 1
  {
    hide ParseAt, Flat, Framed;
    if n != 0 {
      ParseSound(b, i);
      var (k, e1) := ParseAt(b, i).value;
      ParseSound(b, e1);
      var (v, e2) := ParseAt(b, e1).value;
      ParsePairsSound(b, e2, n - 1);
      var (ps, e') := ParsePairs(b, e2, n - 1).value;
      assert b[i..e'] == b[i..e1] + b[e1..e2] + b[e2..e'];
      assert ([Pair(k, v)] + ps)[1..] == ps;
    }
  }

  /** A well-framed tree is read back wherever its bytes stand. */
  lemma {:induction false} ParseFlat(t: Tree, b: bytes, i: nat)
    requires Framed(t) && At(b, i, Flat(t))
    ensures ParseAt(b, i) == Ok((t, i + |Flat(t)|))
    decreases t, 0
  {
    hide FrameAt, ParseItems, ParsePairs, FlatItems, FlatPairs, At;
    match t
    case Leaf(raw) => LeafFrame(raw, One, b, i);
    case ArrT(head, items) =>
      AtSplit(b, i, head, FlatItems(items));
      LeafFrame(head, ArrOf(|items|), b, i);
      AtBound(b, i + |head|, FlatItems(items));
      ParseFlatItems(items, b, i + |head|);
    case MapT(head, pairs) =>
      AtSplit(b, i, head, FlatPairs(pairs));
      LeafFrame(head, MapOf(|pairs|), b, i);
      AtBound(b, i + |head|, FlatPairs(pairs));
      ParseFlatPairs(pairs, b, i + |head|);
  }

  lemma AtBound(b: bytes, i: nat, s: bytes)
    requires At(b, i, s)
    ensures i + |s| <= |b| && b[i..i + |s|] == s
  {
  }

  lemma LeafFrame(raw: bytes, s: Shape, b: bytes, i: nat)
    requires IsFrame(raw, s) && At(b, i, raw)
    ensures FrameAt(b, i) == Ok((s, i + |raw|)) && b[i..i + |raw|] == raw
  {
    hide FrameAt;
    assert raw[0..|raw|] == raw;
    FrameLocal(raw, 0, s, |raw|, b, i);
  }

  lemma {:induction false} ParseFlatItems(ts: seq<Tree>, b: bytes, i: nat)
    requires (forall t | t in ts :: Framed(t)) && At(b, i, FlatItems(ts)) && i <= |b|
    ensures ParseItems(b, i, |ts|) == Ok((ts, i + |FlatItems(ts)|))
    decreases ts, 0
  {
    hide ParseAt, Flat, Framed, At;
    if ts != [] {
      AtSplit(b, i, Flat(ts[0]), FlatItems(ts[1..]));
      ParseFlat(ts[0], b, i);
      AtBound(b, i + |Flat(ts[0])|, FlatItems(ts[1..]));
      ParseFlatItems(ts[1..], b, i + |Flat(ts[0])|);
      assert ts == [ts[0]] + ts[1..];
    }
  }

  lemma {:induction false} ParseFlatPairs(ps: seq<Pair>, b: bytes, i: nat)
    requires (forall p | p in ps :: Framed(p.key) && Framed(p.val)) && At(b, i, FlatPairs(ps)) && i <= |b|
    ensures ParsePairs(b, i, |ps|) == Ok((ps, i + |FlatPairs(ps)|))
    decreases ps, 0
  {
    hide ParseAt, Flat, Framed, At;
    if ps != [] {
      assert ps[0].key < ps[0] && ps[0].val < ps[0];
      var k, v := Flat(ps[0].key), Flat(ps[0].val);
      AtSplit(b, i, k + v, FlatPairs(ps[1..]));
      AtSplit(b, i, k, v);
      ParseFlat(ps[0].key, b, i);
      ParseFlat(ps[0].val, b, i + |k|);
      AtBound(b, i + |k + v|, FlatPairs(ps[1..]));
      ParseFlatPairs(ps[1..], b, i + |k + v|);
      assert ps == [ps[0]] + ps[1..];
    }
  }

  // ---- what a tree means ----------------------------------------------------------------

  function Meaning(t: Tree): Result<Value> {
    match t
    case Leaf(raw) =>
      (match TokenAt(raw, 0)
       case Ok((Whole(v), _)) => Ok(v)
       case Ok(_) => Err(Truncated)
       case Err(x) => Err(x))
    case ArrT(_, items) =>
      var xs :- MeaningItems(items);
      Ok(Arr(xs))
    case MapT(_, pairs) =>
      var m :- MeaningPairs(pairs, map[]);
      Ok(Dict(m))
  }

  function MeaningItems(ts: seq<Tree>): Result<seq<Value>> {
    if ts == [] then Ok([])
    else
      var x :- Meaning(ts[0]);
      var xs :- MeaningItems(ts[1..]);
      Ok([x] + xs)
  }

  function MeaningPairs(ps: seq<Pair>, acc: map<Value, Value>): Result<map<Value, Value>> {
    if ps == [] then Ok(acc)
    else
      assert ps[0].key < ps[0] && ps[0].val < ps[0];
      var k :- Meaning(ps[0].key);
      var v :- Meaning(ps[0].val);
      var key :- KeyOf(k);
      MeaningPairs(ps[1..], acc[key := v])
  }

  /** The value reader is the structural parser followed by `Meaning`. */
  lemma {:induction false} DecodeIsMeaning(b: bytes, i: nat)
    ensures ValueAt(b, i).Ok? <==> ParseAt(b, i).Ok? && Meaning(ParseAt(b, i).value.0).Ok?
    ensures ValueAt(b, i).Ok? ==>
              ValueAt(b, i).value == (Meaning(ParseAt(b, i).value.0).value, ParseAt(b, i).value.1)
    decreases |b| - i, 0
  {
    hide TokenAt, FrameAt, ItemsAt, PairsAt, ParseItems, ParsePairs, MeaningItems, MeaningPairs;
    if TokenAt(b, i).Ok? {
      TokenHasFrame(b, i);
      var (tok, e) := TokenAt(b, i).value;
      match tok
      case Whole(v) =>
        assert At(b[i..e], 0, b[i..e]);
        TokenLocal(b, i, tok, e, b[i..e], 0);
      case ArrHead(n) => ItemsIsMeaning(b, e, n);
      case MapHead(n) => PairsIsMeaning(b, e, n, map[]);
    } else if FrameAt(b, i).Ok? {
      var (s, e) := FrameAt(b, i).value;
      if !s.One? { HeadIsToken(b, i); }
      LeafFails(b, i);
    }
  }

  lemma LeafFails(b: bytes, i: nat)
    requires FrameAt(b, i).Ok? && FrameAt(b, i).value.0.One? && TokenAt(b, i).Err?
    ensures Meaning(Leaf(b[i..FrameAt(b, i).value.1])).Err?
  {
    hide TokenAt, FrameAt;
    var (s, e) := FrameAt(b, i).value;
    var raw := b[i..e];
    assert At(raw, 0, b[i..e]);
    FrameLocal(b, i, s, e, raw, 0);
    if TokenAt(raw, 0).Ok? {
      TokenHasFrame(raw, 0);
      assert raw[0..|raw|] == raw && At(b, i, raw);
      TokenLocal(raw, 0, TokenAt(raw, 0).value.0, |raw|, b, i);
      assert false;
    }
  }

  lemma {:induction false} ItemsIsMeaning(b: bytes, i: nat, n: nat)
    requires i <= |b|
    ensures ItemsAt(b, i, n).Ok? <==> ParseItems(b, i, n).Ok? && MeaningItems(ParseItems(b, i, n).value.0).Ok?
    ensures ItemsAt(b, i, n).Ok? ==>
              ItemsAt(b, i, n).value == (MeaningItems(ParseItems(b, i, n).value.0).value, ParseItems(b, i, n).value.1)
    decreases |b| - i, n + 1
  {
    hide ValueAt, ParseAt, Meaning;
    if n != 0 {
      DecodeIsMeaning(b, i);
      if ParseAt(b, i).Ok? {
        var (t, e) := ParseAt(b, i).value;
        ItemsIsMeaning(b, e, n - 1);
        if ParseItems(b, e, n - 1).Ok? {
          var ts := ParseItems(b, e, n - 1).value.0;
          assert ([t] + ts)[1..] == ts;
        }
      }
    }
  }

  lemma {:induction false} PairsIsMeaning(b: bytes, i: nat, n: nat, acc: map<Value, Value>)
    requires i <= |b|
    ensures PairsAt(b, i, n, acc).Ok? <==>
              ParsePairs(b, i, n).Ok? && MeaningPairs(ParsePairs(b, i, n).value.0, acc).Ok?
    ensures PairsAt(b, i, n, acc).Ok? ==>
              PairsAt(b, i, n, acc).value ==
              (MeaningPairs(ParsePairs(b, i, n).value.0, acc).value, ParsePairs(b, i, n).value.1)
    decreases |b| - i, n + 1
  {
    hide ValueAt, ParseAt, Meaning;
    if n != 0 {
      DecodeIsMeaning(b, i);
      if ParseAt(b, i).Ok? {
        var (k, e1) := ParseAt(b, i).value;
        DecodeIsMeaning(b, e1);
        if ParseAt(b, e1).Ok? {
          var (v, e2) := ParseAt(b, e1).value;
          if ParsePairs(b, e2, n - 1).Ok? {
            var ps := ParsePairs(b, e2, n - 1).value.0;
            assert ([Pair(k, v)] + ps)[1..] == ps;
          }
          if ValueAt(b, i).Ok? && ValueAt(b, e1).Ok? && KeyOf(ValueAt(b, i).value.0).Ok? {
            PairsIsMeaning(b, e2, n - 1, acc[KeyOf(ValueAt(b, i).value.0).value := ValueAt(b, e1).value.0]);
          }
        }
      }
    }
  }
}

/** The laws that tie the MessagePack writer to the reader. */
module MsgPackLaws {
  import opened Bytes
  import opened MsgPack
  import opened KeyOrder
  import opened MsgPackEncoder

  // ---- round trip ----------------------------------------------------------------

  /** Storing the entries of dict `d` under `ks`, in order, on top of `acc`. */
  ghost function Store(acc: map<Value, Value>, d: Value, ks: seq<Value>): map<Value, Value>
    requires d.Dict? && forall k | k in ks :: k in d.m
    decreases |ks|
  {
    if ks == [] then acc else Store(acc[ks[0] := d.m[ks[0]]], d, ks[1..])
  }

  lemma {:induction false} StoreAll(acc: map<Value, Value>, d: Value, ks: seq<Value>)
    requires d.Dict? && forall k | k in ks :: k in d.m
    requires forall k | k in acc :: k in d.m && acc[k] == d.m[k]
    requires forall k | k in d.m :: k in acc || k in ks
    ensures Store(acc, d, ks) == d.m
    decreases |ks|
  {
    if ks != [] {
      StoreAll(acc[ks[0] := d.m[ks[0]]], d, ks[1..]);
    }
  }

  /** Reading at the place where `v` was written returns `v` and stops at its last byte, whatever
      stands before and after. */
  lemma {:induction false} RoundTripAt(v: Value, b: bytes, i: nat)
    requires StrKeyed(v) && Encode(v).Out? && At(b, i, Encode(v).bytes)
    ensures ValueAt(b, i) == Ok((v, i + |Encode(v).bytes|))
    decreases v, 1
  {
    hide At, TokenAt, EncodeInt, EncodeStr, EncodeBin, EncodeHead, EncodeItems, EncodePairs, Utf8, ItemsAt, PairsAt;
    match v
    case Nil => NilToken(b, i);
    case Bool(x) => BoolToken(x, b, i);
    case Int(n) => IntToken(n, b, i);
    case Str(s) => StrToken(s, b, i);
    case Bin(d) => BinToken(d, b, i);
    case Arr(_) => RoundTripArr(v, b, i);
    case Dict(_) => RoundTripDict(v, b, i);
  }

  lemma {:induction false} RoundTripArr(v: Value, b: bytes, i: nat)
    requires v.Arr? && StrKeyed(v) && Encode(v).Out? && At(b, i, Encode(v).bytes)
    ensures ValueAt(b, i) == Ok((v, i + |Encode(v).bytes|))
    decreases v, 0
  {
    hide At, TokenAt, EncodeHead, EncodeItems, ItemsAt, PairsAt;
    var xs := v.items;
    var head, body := EncodeHead(false, |xs|).bytes, EncodeItems(xs).bytes;
    AtSplit(b, i, head, body);
    HeadToken(false, |xs|, b, i);
    AtBound(b, i + |head|, body);
    RoundTripItems(xs, b, i + |head|);
  }

  lemma {:induction false} RoundTripDict(v: Value, b: bytes, i: nat)
    requires v.Dict? && StrKeyed(v) && Encode(v).Out? && At(b, i, Encode(v).bytes)
    ensures ValueAt(b, i) == Ok((v, i + |Encode(v).bytes|))
    decreases v, 0
  {
    hide At, TokenAt, EncodeHead, EncodePairs, ItemsAt, PairsAt, SortKeys;
    var ks := SortKeys(v.m.Keys);
    var head, body := EncodeHead(true, |v.m|).bytes, EncodePairs(v, ks).bytes;
    AtSplit(b, i, head, body);
    HeadToken(true, |v.m|, b, i);
    AtBound(b, i + |head|, body);
    RoundTripPairs(v, ks, b, i + |head|, map[]);
    StoreAll(map[], v, ks);
  }

  lemma AtBound(b: bytes, i: nat, s: bytes)
    requires At(b, i, s)
    ensures i + |s| <= |b|
  {
  }

  lemma NilToken(b: bytes, i: nat)
    requires At(b, i, [0xc0])
    ensures TokenAt(b, i) == Ok((Whole(Nil), i + 1))
  {
    hide TokenAt, At;
    ImmediateToken(b, i, 0xc0);
  }

  lemma BoolToken(x: bool, b: bytes, i: nat)
    requires At(b, i, [if x then 0xc3 else 0xc2])
    ensures TokenAt(b, i) == Ok((Whole(Bool(x)), i + 1))
  {
    hide TokenAt, At;
    ImmediateToken(b, i, if x then 0xc3 else 0xc2);
  }

  lemma {:induction false} RoundTripItems(xs: seq<Value>, b: bytes, i: nat)
    requires forall x | x in xs :: StrKeyed(x)
    requires EncodeItems(xs).Out? && At(b, i, EncodeItems(xs).bytes) && i <= |b|
    ensures ItemsAt(b, i, |xs|) == Ok((xs, i + |EncodeItems(xs).bytes|))
    decreases xs, 0
  {
    hide At, ValueAt, Encode;
    if xs != [] {
      var x, rest := Encode(xs[0]).bytes, EncodeItems(xs[1..]).bytes;
      AtSplit(b, i, x, rest);
      RoundTripAt(xs[0], b, i);
      AtBound(b, i + |x|, rest);
      RoundTripItems(xs[1..], b, i + |x|);
      assert xs == [xs[0]] + xs[1..];
    }
  }

  lemma {:induction false} RoundTripPairs(d: Value, ks: seq<Value>, b: bytes, i: nat, acc: map<Value, Value>)
    requires d.Dict? && StrKeyed(d) && forall k | k in ks :: k in d.m
    requires EncodePairs(d, ks).Out? && At(b, i, EncodePairs(d, ks).bytes) && i <= |b|
    ensures PairsAt(b, i, |ks|, acc) == Ok((Store(acc, d, ks), i + |EncodePairs(d, ks).bytes|))
    decreases d, 0, |ks|
  {
    hide At, Encode, EncodeStr, TokenAt, Utf8;
    if ks != [] {
      hide StrKeyed;
      var k, x := EncodeStr(Utf8(ks[0].s)).bytes, Encode(d.m[ks[0]]).bytes;
      var rest := EncodePairs(d, ks[1..]).bytes;
      AtSplit(b, i, k + x, rest);
      AtSplit(b, i, k, x);
      StrToken(ks[0].s, b, i);
      RoundTripAt(d.m[ks[0]], b, i + |k|);
      AtBound(b, i + |k + x|, rest);
      RoundTripPairs(d, ks[1..], b, i + |k + x|, acc[ks[0] := d.m[ks[0]]]);
    }
  }

  lemma RoundTrip(v: Value)
    requires StrKeyed(v) && Encode(v).Out?
    ensures Decode(Encode(v).bytes) == Ok(v)
  {
    var b := Encode(v).bytes;
    assert At(b, 0, b);
    RoundTripAt(v, b, 0);
  }

  /** No encoding is a prefix of another; in particular two values never share one. */
  lemma PrefixFree(v: Value, w: Value)
    requires StrKeyed(v) && Encode(v).Out? && StrKeyed(w) && Encode(w).Out?
    requires Encode(v).bytes <= Encode(w).bytes
    ensures v == w
  {
    var b := Encode(w).bytes;
    assert At(b, 0, Encode(v).bytes) && At(b, 0, b);
    RoundTripAt(v, b, 0);
    RoundTripAt(w, b, 0);
  }

  // ---- minimality ----------------------------------------------------------------

  /** The length of the writer's encoding, 0 for a value it refuses. */
  ghost function Size(v: Value): nat {
    if StrKeyed(v) && Encode(v).Out? then |Encode(v).bytes| else 0
  }

  /** The encoded length of the entries of `m` under `ks`. */
  ghost function Cost(m: map<Value, Value>, ks: set<Value>): nat
    requires ks <= m.Keys
  {
    if ks == {} then 0
    else
      var k :| k in ks;
      Size(k) + Size(m[k]) + Cost(m, ks - {k})
  }

  lemma {:induction false} CostRemove(m: map<Value, Value>, ks: set<Value>, k: Value)
    requires ks <= m.Keys && k in ks
    ensures Cost(m, ks) == Size(k) + Size(m[k]) + Cost(m, ks - {k})
  {
    hide Size;
    var j :| j in ks && Cost(m, ks) == Size(j) + Size(m[j]) + Cost(m, ks - {j});
    if j != k {
      CostRemove(m, ks - {j}, k);
      CostRemove(m, ks - {k}, j);
      assert ks - {j} - {k} == ks - {k} - {j};
    }
  }

  lemma {:induction false} CostSame(m: map<Value, Value>, m': map<Value, Value>, ks: set<Value>)
    requires ks <= m.Keys && ks <= m'.Keys && forall k | k in ks :: m[k] == m'[k]
    ensures Cost(m, ks) == Cost(m', ks)
  {
    hide Size;
    if ks != {} {
      var k :| k in ks;
      CostRemove(m, ks, k);
      CostRemove(m', ks, k);
      CostSame(m, m', ks - {k});
    }
  }

  lemma CostPut(m: map<Value, Value>, k: Value, v: Value)
    ensures var m' := m[k := v]; Cost(m', m'.Keys) <= Cost(m, m.Keys) + Size(k) + Size(v)
  {
    hide Size, Cost;
    var m' := m[k := v];
    var rest := m.Keys - {k};
    assert m'.Keys - {k} == rest;
    CostRemove(m', m'.Keys, k);
    CostSame(m, m', rest);
    if k in m { CostRemove(m, m.Keys, k); }
    else { assert rest == m.Keys; }
  }

  lemma SizeOfStr(k: Value)
    requires k.Str? && EncodeStr(Utf8(k.s)).Out?
    ensures Size(k) == |EncodeStr(Utf8(k.s)).bytes|
  {
  }

  lemma {:induction false} PairsCost(d: Value, ks: seq<Value>)
    requires d.Dict? && StrKeyed(d) && (forall k | k in ks :: k in d.m)
    requires EncodePairs(d, ks).Out?
    requires forall i, j | 0 <= i < j < |ks| :: ks[i] != ks[j]
    ensures (set k | k in ks) <= d.m.Keys
    ensures |EncodePairs(d, ks).bytes| == Cost(d.m, set k | k in ks)
    decreases |ks|
  {
    hide Encode, EncodeStr, Utf8, Cost;
    var all := set k | k in ks;
    if ks == [] {
      assert all == {};
      CostEmpty(d.m);
    } else {
      PairsCost(d, ks[1..]);
      var rest := set k | k in ks[1..];
      assert all - {ks[0]} == rest;
      CostRemove(d.m, all, ks[0]);
      SizeOfStr(ks[0]);
    }
  }

  lemma CostEmpty(m: map<Value, Value>)
    ensures Cost(m, {}) == 0
  {
  }

  /** What each tag byte can introduce. */
  lemma FormFacts(t: byte)
    ensures var f := FormOf(t);
      match f
      case Immediate(Whole(v)) => v == Nil || v.Bool? || (v.Int? && v.i < 128)
      case Immediate(ArrHead(n)) => n < 16
      case Immediate(MapHead(n)) => n < 16
      case Fixed(cls, n) => (cls in {CUint, CSint} ==> n in {1, 2, 4, 8}) && (cls == CStr ==> n < 32) && cls != CBin
      case Sized(cls, w) => cls in {CStr, CBin, CExt} && w in {1, 2, 4}
      case Counted(_, w) => w in {2, 4}
      case Unknown => true
  {
  }

  lemma FieldSizes(n: nat, w: nat)
    requires n < Pow256(w) && w in {1, 2, 4, 8}
    ensures EncodeInt(n).Out? && |EncodeInt(n).bytes| <= 1 + w
    ensures w == 2 || w == 4 ==> forall isMap :: EncodeHead(isMap, n).Out? && |EncodeHead(isMap, n).bytes| <= 1 + w
  {
    hide ToBE;
    PowValues();
  }

  lemma StrSizes(p: bytes, w: nat)
    requires |p| < Pow256(w) && w in {1, 2, 4}
    ensures EncodeStr(p).Out? && |EncodeStr(p).bytes| <= 1 + w + |p|
    ensures EncodeBin(p).Out? && |EncodeBin(p).bytes| <= 1 + w + |p|
  {
    hide ToBE;
    PowValues();
  }

  lemma ScalarSize(cls: Class, p: bytes, v: Value, w: nat)
    requires cls in {CUint, CSint, CExt} ==> p != []
    requires ScalarOf(cls, p) == Ok(v)
    requires cls in {CUint, CSint} ==> |p| in {1, 2, 4, 8}
    requires cls == CStr ==> (w == 0 && |p| < 32) || (w in {1, 2, 4} && |p| < Pow256(w))
    requires cls == CBin ==> w in {1, 2, 4} && |p| < Pow256(w)
    ensures !v.Arr? && !v.Dict? && Size(v) <= 1 + w + |p|
  {
    hide EncodeInt, EncodeStr, EncodeBin, Utf8, DecodeUtf8;
    match cls
    case CUint => FieldSizes(v.i, |p|);
    case CSint => SignedSize(p);
    case CStr =>
      Utf8Exact(p, v.s);
      if w == 0 { ShortStr(p); } else { StrSizes(p, w); }
    case CBin => StrSizes(p, w);
    case _ =>
  }

  lemma ShortStr(p: bytes)
    requires |p| < 32
    ensures EncodeStr(p).Out? && |EncodeStr(p).bytes| == 1 + |p|
  {
  }

  lemma SignedSize(p: bytes)
    requires |p| in {1, 2, 4, 8}
    ensures EncodeInt(SignedBE(p)).Out? ==> |EncodeInt(SignedBE(p)).bytes| <= 1 + |p|
  {
    if 2 * FromBE(p) < Pow256(|p|) { FieldSizes(FromBE(p), |p|); }
  }

  /** A scalar token is at least as long as the writer's encoding of the scalar, and a container
      head at least as long as the writer's head for the same count. */
  lemma TokenMinimal(b: bytes, i: nat, tok: Token, e: nat)
    requires TokenAt(b, i) == Ok((tok, e))
    ensures tok.Whole? ==> !tok.v.Arr? && !tok.v.Dict? && Size(tok.v) <= e - i
    ensures !tok.Whole? ==> forall isMap, n: nat | n <= tok.n ::
              EncodeHead(isMap, n).Out? && |EncodeHead(isMap, n).bytes| <= e - i
  {
    hide FormOf, ScalarOf, Size, Utf8, ToBE;
    var t := b[i];
    FormFacts(t);
    match FormOf(t)
    case Immediate(Whole(v)) => SmallSize(v);
    case Immediate(_) =>
    case Fixed(cls, n) => ScalarSize(cls, b[i + 1..i + 1 + n], tok.v, 0);
    case Sized(cls, w) =>
      var n := FromBE(b[i + 1..i + 1 + w]);
      ScalarSize(cls, b[i + 1 + w..i + 1 + w + n + Overhead(cls)], tok.v, w);
    case Counted(_, w) =>
      forall isMap, n: nat | n <= tok.n
        ensures EncodeHead(isMap, n).Out? && |EncodeHead(isMap, n).bytes| <= e - i
      {
        FieldSizes(n, w);
      }
  }

  lemma SmallSize(v: Value)
    requires v == Nil || v.Bool? || (v.Int? && v.i < 128)
    ensures Size(v) <= 1
  {
  }

  lemma KeySize(k: Value)
    requires KeyOf(k).Ok?
    ensures Size(KeyOf(k).value) <= Size(k)
  {
  }

  ghost function ItemsSize(xs: seq<Value>): nat {
    if xs == [] then 0 else Size(xs[0]) + ItemsSize(xs[1..])
  }

  lemma {:induction false} ItemsSum(xs: seq<Value>)
    requires (forall x | x in xs :: StrKeyed(x)) && EncodeItems(xs).Out?
    ensures |EncodeItems(xs).bytes| == ItemsSize(xs)
  {
    hide Encode;
    if xs != [] { ItemsSum(xs[1..]); }
  }

  /** Every byte string that decodes to `v` is at least as long as the writer's encoding. */
  lemma {:induction false} ValueMinimal(b: bytes, i: nat)
    requires ValueAt(b, i).Ok?
    ensures Size(ValueAt(b, i).value.0) <= ValueAt(b, i).value.1 - i
    decreases |b| - i, 0
  {
    hide TokenAt, ItemsAt, PairsAt, Size, EncodeHead;
    var (tok, e) := TokenAt(b, i).value;
    TokenMinimal(b, i, tok, e);
    match tok
    case Whole(_) =>
    case ArrHead(n) =>
      var (xs, e') := ItemsAt(b, e, n).value;
      ItemsMinimal(b, e, n);
      ArrSize(xs, e - i);
    case MapHead(n) =>
      var (m, e') := PairsAt(b, e, n, map[]).value;
      CostEmpty(map[]);
      PairsMinimal(b, e, n, map[]);
      DictSize(m, e - i);
  }

  lemma ArrSize(xs: seq<Value>, h: nat)
    requires EncodeHead(false, |xs|).Out? && |EncodeHead(false, |xs|).bytes| <= h
    ensures Size(Arr(xs)) <= h + ItemsSize(xs)
  {
    hide EncodeHead, EncodeItems, ItemsSize;
    if StrKeyed(Arr(xs)) && Encode(Arr(xs)).Out? { ItemsSum(xs); }
  }

  lemma DictSize(m: map<Value, Value>, h: nat)
    requires EncodeHead(true, |m|).Out? && |EncodeHead(true, |m|).bytes| <= h
    ensures Size(Dict(m)) <= h + Cost(m, m.Keys)
  {
    hide EncodeHead, EncodePairs, Cost, SortKeys;
    if StrKeyed(Dict(m)) && Encode(Dict(m)).Out? {
      var ks := SortKeys(m.Keys);
      assert m.Keys == set k | k in ks;
      forall i, j | 0 <= i < j < |ks|
        ensures ks[i] != ks[j]
      {
        LessIrreflexive(ks[i].s);
      }
      PairsCost(Dict(m), ks);
    }
  }

  lemma {:induction false} ItemsMinimal(b: bytes, i: nat, n: nat)
    requires i <= |b| && ItemsAt(b, i, n).Ok?
    ensures ItemsSize(ItemsAt(b, i, n).value.0) <= ItemsAt(b, i, n).value.1 - i
    decreases |b| - i, n + 1
  {
    hide ValueAt, Size;
    if n != 0 {
      ValueMinimal(b, i);
      ItemsMinimal(b, ValueAt(b, i).value.1, n - 1);
    }
  }

  lemma {:induction false} PairsMinimal(b: bytes, i: nat, n: nat, acc: map<Value, Value>)
    requires i <= |b| && PairsAt(b, i, n, acc).Ok?
    ensures var (m, e) := PairsAt(b, i, n, acc).value;
      |m| <= |acc| + n && Cost(m, m.Keys) <= Cost(acc, acc.Keys) + (e - i)
    decreases |b| - i, n + 1
  {
    hide ValueAt, Size, Cost;
    if n != 0 {
      ValueMinimal(b, i);
      var (k, e1) := ValueAt(b, i).value;
      ValueMinimal(b, e1);
      var (v, e2) := ValueAt(b, e1).value;
      KeySize(k);
      var key := KeyOf(k).value;
      CostPut(acc, key, v);
      assert |acc[key := v]| <= |acc| + 1;
      PairsMinimal(b, e2, n - 1, acc[key := v]);
    }
  }

  lemma Minimal(v: Value, b: bytes)
    requires StrKeyed(v) && Encode(v).Out? && Decode(b) == Ok(v)
    ensures |Encode(v).bytes| <= |b|
  {
    hide ValueAt, Encode;
    ValueMinimal(b, 0);
  }
}

/** The canonical MessagePack writer `msgpack(v)` of scripts/bench/rest_lib.py, and each of its tokens
    as the reader finds it. */
module MsgPackEncoder {
  import opened Bytes
  import opened MsgPack
  import opened KeyOrder

  /** The writer's ValueErrors. */
  datatype WriteError = Negative | TooBig | TooLong | NotEncodable

  datatype Written = Out(bytes: bytes) | Refused(error: WriteError) {
    predicate IsFailure() { Refused? }
    function PropagateFailure(): Written
      requires Refused?
    {
      this
    }
    function Extract(): bytes
      requires Out?
    {
      bytes
    }
  }

  /** Every dict in `v` has only string keys, so that Python's `sorted` can order them. */
  predicate StrKeyed(v: Value) {
    match v
    case Arr(xs) => forall x | x in xs :: StrKeyed(x)
    case Dict(m) => forall k | k in m :: k.Str? && StrKeyed(m[k])
    case _ => true
  }

  function EncodeInt(i: int): Written {
    if i < 0 then Refused(Negative)
    else if i < 128 then Out([i])
    else if i < 0x100 then Out([0xcc] + ToBE(i, 1))
    else if i < 0x1_0000 then Out([0xcd] + ToBE(i, 2))
    else if i < 0x1_0000_0000 then Out([0xce] + ToBE(i, 4))
    else if i < 0x1_0000_0000_0000_0000 then Out([0xcf] + ToBE(i, 8))
    else Refused(TooBig)
  }

  function EncodeStr(b: bytes): Written {
    var n := |b|;
    if n < 32 then Out([0xa0 + n] + b)
    else if n < 0x100 then Out([0xd9] + ToBE(n, 1) + b)
    else if n < 0x1_0000 then Out([0xda] + ToBE(n, 2) + b)
    else if n < 0x1_0000_0000 then Out([0xdb] + ToBE(n, 4) + b)
    else Refused(TooLong)
  }

  function EncodeBin(b: bytes): Written {
    var n := |b|;
    if n < 0x100 then Out([0xc4] + ToBE(n, 1) + b)
    else if n < 0x1_0000 then Out([0xc5] + ToBE(n, 2) + b)
    else if n < 0x1_0000_0000 then Out([0xc6] + ToBE(n, 4) + b)
    else Refused(TooLong)
  }

  /** The head of an array or a map of n elements. */
  function EncodeHead(isMap: bool, n: nat): Written {
    if n < 16 then Out([(if isMap then 0x80 else 0x90) + n])
    else if n < 0x1_0000 then Out([if isMap then 0xde else 0xdc] + ToBE(n, 2))
    else if n < 0x1_0000_0000 then Out([if isMap then 0xdf else 0xdd] + ToBE(n, 4))
    else Refused(TooLong)
  }

  function Encode(v: Value): Written
    requires StrKeyed(v)
    decreases v, 0
  {
    match v
    case Nil => Out([0xc0])
    case Bool(b) => Out([if b then 0xc3 else 0xc2])
    case Int(i) => EncodeInt(i)
    case Str(s) => EncodeStr(Utf8(s))
    case Bin(d) => EncodeBin(d)
    case Arr(xs) =>
      var head :- EncodeHead(false, |xs|);
      var body :- EncodeItems(xs);
      Out(head + body)
    case Dict(m) =>
      var head :- EncodeHead(true, |m|);
      var body :- EncodePairs(v, SortKeys(m.Keys));
      Out(head + body)
    case _ => Refused(NotEncodable)
  }

  function EncodeItems(xs: seq<Value>): Written
    requires forall x | x in xs :: StrKeyed(x)
    decreases xs, 0
  {
    if xs == [] then Out([])
    else
      var x :- Encode(xs[0]);
      var rest :- EncodeItems(xs[1..]);
      Out(x + rest)
  }

  function EncodePairs(d: Value, ks: seq<Value>): Written
    requires d.Dict? && StrKeyed(d)
    requires forall k | k in ks :: k in d.m
    decreases d, 0, |ks|
  {
    if ks == [] then Out([])
    else
      var k :- EncodeStr(Utf8(ks[0].s));
      var x :- Encode(d.m[ks[0]]);
      var rest :- EncodePairs(d, ks[1..]);
      Out(k + x + rest)
  }

  // ---- what the reader makes of each written token -------------------------------

  lemma TagAt(b: bytes, i: nat, t: byte, rest: bytes)
    requires At(b, i, [t] + rest)
    ensures i < |b| && b[i] == t && At(b, i + 1, rest)
    ensures TokenAt(b, i) == BodyAt(FormOf(t), t, b, i + 1)
  {
    hide FormOf, BodyAt;
    AtSplit(b, i, [t], rest);
    assert b[i] == b[i..i + 1][0];
  }

  lemma FixedToken(b: bytes, i: nat, t: byte, cls: Class, p: bytes, v: Value)
    requires FormOf(t) == Fixed(cls, |p|) && (cls in {CUint, CSint, CExt} ==> p != [])
    requires ScalarOf(cls, p) == Ok(v)
    requires At(b, i, [t] + p)
    ensures TokenAt(b, i) == Ok((Whole(v), i + 1 + |p|))
  {
    hide FormOf, ScalarOf;
    TagAt(b, i, t, p);
    assert Take(b, i + 1, |p|) == Ok(p);
  }

  lemma SizedBody(b: bytes, i: nat, t: byte, cls: Class, w: nat, p: bytes, v: Value)
    requires cls in {CStr, CBin} && |p| < Pow256(w) && ScalarOf(cls, p) == Ok(v)
    requires At(b, i, ToBE(|p|, w)) && At(b, i + w, p)
    ensures BodyAt(Sized(cls, w), t, b, i) == Ok((Whole(v), i + w + |p|))
  {
    hide ScalarOf, ToBE, FromBE, Pow256;
    FromToBE(|p|, w);
    assert Take(b, i, w) == Ok(ToBE(|p|, w));
    assert Take(b, i + w, |p|) == Ok(p);
  }

  lemma SizedToken(b: bytes, i: nat, t: byte, cls: Class, w: nat, p: bytes, v: Value)
    requires FormOf(t) == Sized(cls, w) && cls in {CStr, CBin} && |p| < Pow256(w)
    requires ScalarOf(cls, p) == Ok(v)
    requires At(b, i, [t] + ToBE(|p|, w) + p)
    ensures TokenAt(b, i) == Ok((Whole(v), i + 1 + w + |p|))
  {
    hide FormOf, ScalarOf, ToBE, BodyAt, TokenAt, At, Pow256;
    assert [t] + ToBE(|p|, w) + p == [t] + (ToBE(|p|, w) + p);
    TagAt(b, i, t, ToBE(|p|, w) + p);
    AtSplit(b, i + 1, ToBE(|p|, w), p);
    SizedBody(b, i + 1, t, cls, w, p, v);
  }

  lemma CountedToken(b: bytes, i: nat, t: byte, isMap: bool, w: nat, n: nat)
    requires FormOf(t) == Counted(isMap, w) && n < Pow256(w)
    requires At(b, i, [t] + ToBE(n, w))
    ensures TokenAt(b, i) == Ok((if isMap then MapHead(n) else ArrHead(n), i + 1 + w))
  {
    hide FormOf, ToBE;
    TagAt(b, i, t, ToBE(n, w));
    FromToBE(n, w);
    assert Take(b, i + 1, w) == Ok(ToBE(n, w));
  }

  lemma ImmediateToken(b: bytes, i: nat, t: byte)
    requires FormOf(t).Immediate? && At(b, i, [t])
    ensures TokenAt(b, i) == Ok((FormOf(t).tok, i + 1))
  {
    hide FormOf;
    assert [t] + [] == [t];
    TagAt(b, i, t, []);
  }

  lemma IntToken(v: int, b: bytes, i: nat)
    requires EncodeInt(v).Out? && At(b, i, EncodeInt(v).bytes)
    ensures TokenAt(b, i) == Ok((Whole(Int(v)), i + |EncodeInt(v).bytes|))
  {
    hide ToBE, TokenAt, At;
    PowValues();
    if v < 128 { ImmediateToken(b, i, v); }
    else if v < 0x100 { FromToBE(v, 1); FixedToken(b, i, 0xcc, CUint, ToBE(v, 1), Int(v)); }
    else if v < 0x1_0000 { FromToBE(v, 2); FixedToken(b, i, 0xcd, CUint, ToBE(v, 2), Int(v)); }
    else if v < 0x1_0000_0000 { FromToBE(v, 4); FixedToken(b, i, 0xce, CUint, ToBE(v, 4), Int(v)); }
    else { FromToBE(v, 8); FixedToken(b, i, 0xcf, CUint, ToBE(v, 8), Int(v)); }
  }

  lemma StrToken(s: string, b: bytes, i: nat)
    requires EncodeStr(Utf8(s)).Out? && At(b, i, EncodeStr(Utf8(s)).bytes)
    ensures TokenAt(b, i) == Ok((Whole(Str(s)), i + |EncodeStr(Utf8(s)).bytes|))
  {
    hide ToBE, TokenAt, At, Utf8, DecodeUtf8;
    PowValues();
    var p := Utf8(s);
    Utf8Exact(p, s);
    if |p| < 32 { FixedToken(b, i, 0xa0 + |p|, CStr, p, Str(s)); }
    else if |p| < 0x100 { SizedToken(b, i, 0xd9, CStr, 1, p, Str(s)); }
    else if |p| < 0x1_0000 { SizedToken(b, i, 0xda, CStr, 2, p, Str(s)); }
    else { SizedToken(b, i, 0xdb, CStr, 4, p, Str(s)); }
  }

  lemma BinToken(p: bytes, b: bytes, i: nat)
    requires EncodeBin(p).Out? && At(b, i, EncodeBin(p).bytes)
    ensures TokenAt(b, i) == Ok((Whole(Bin(p)), i + |EncodeBin(p).bytes|))
  {
    hide ToBE, TokenAt, At;
    PowValues();
    if |p| < 0x100 { SizedToken(b, i, 0xc4, CBin, 1, p, Bin(p)); }
    else if |p| < 0x1_0000 { SizedToken(b, i, 0xc5, CBin, 2, p, Bin(p)); }
    else { SizedToken(b, i, 0xc6, CBin, 4, p, Bin(p)); }
  }

  lemma HeadToken(isMap: bool, n: nat, b: bytes, i: nat)
    requires EncodeHead(isMap, n).Out? && At(b, i, EncodeHead(isMap, n).bytes)
    ensures TokenAt(b, i) == Ok((if isMap then MapHead(n) else ArrHead(n), i + |EncodeHead(isMap, n).bytes|))
  {
    hide ToBE, TokenAt, At;
    PowValues();
    if n < 16 { ImmediateToken(b, i, (if isMap then 0x80 else 0x90) + n); }
    else if n < 0x1_0000 { CountedToken(b, i, if isMap then 0xde else 0xdc, isMap, 2, n); }
    else { CountedToken(b, i, if isMap then 0xdf else 0xdd, isMap, 4, n); }
  }
}

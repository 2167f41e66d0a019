/** The value domain of scripts/bench/rest_lib.py's MessagePack codec and its reader as a function
    of a byte string and an offset. */
module MsgPack {
  import opened Bytes

  /** A decoded Python value. A dict is a finite map, because Python compares dicts without regard
      to insertion order; its keys are values in `KeyOf` form. */
  datatype Value =
    | Nil
    | Bool(b: bool)
    | Int(i: int)
    | Float32(bits: bytes)
    | Float64(bits: bytes)
    | Str(s: string)
    | Bin(data: bytes)
    | Arr(items: seq<Value>)
    | Dict(m: map<Value, Value>)
    | Ext(kind: int, data: bytes)
    | Timestamp(seconds: int, nanos: int)

  datatype Error =
    | Truncated
    | BadUtf8
    | BadType(tag: byte)
    | BadTimestamp(size: nat)
    | Unhashable
    | Trailing(offset: nat)

  datatype Result<+T> = Ok(value: T) | Err(error: Error) {
    predicate IsFailure() { Err? }
    function PropagateFailure<U>(): Result<U>
      requires Err?
    {
      Err(error)
    }
    function Extract(): T
      requires Ok?
    {
      value
    }
  }

  // ---- tokens ------------------------------------------------------------------

  /** What one tag byte and the bytes it owns stand for: a whole scalar, or the head of a
      container with its element count. */
  datatype Token = Whole(v: Value) | ArrHead(n: nat) | MapHead(n: nat)

  datatype Class = CUint | CSint | CFloat32 | CFloat64 | CStr | CBin | CExt

  /** How the bytes after a tag are laid out. */
  datatype Form =
    | Immediate(tok: Token)           // nothing follows
    | Fixed(cls: Class, n: nat)       // n payload bytes
    | Sized(cls: Class, w: nat)       // a w-byte length, then that many payload bytes
    | Counted(isMap: bool, w: nat)    // a w-byte element count
    | Unknown

  /** Integers and ext values own at least one payload byte. */
  predicate Sound(f: Form) {
    f.Fixed? && f.cls in {CUint, CSint, CExt} ==> f.n > 0
  }

  function FormOf(t: byte): (f: Form)
    ensures Sound(f)
    ensures f.Sized? ==> f.cls in {CStr, CBin, CExt} && f.w in {1, 2, 4}
  {
    if t < 0x80 then Immediate(Whole(Int(t)))
    else if t >= 0xe0 then Immediate(Whole(Int(t - 256)))
    else if t <= 0x8f then Immediate(MapHead(t - 0x80))
    else if t <= 0x9f then Immediate(ArrHead(t - 0x90))
    else if t <= 0xbf then Fixed(CStr, t - 0xa0)
    else if t == 0xc0 then Immediate(Whole(Nil))
    else if t == 0xc2 then Immediate(Whole(Bool(false)))
    else if t == 0xc3 then Immediate(Whole(Bool(true)))
    else if t == 0xc4 then Sized(CBin, 1)
    else if t == 0xc5 then Sized(CBin, 2)
    else if t == 0xc6 then Sized(CBin, 4)
    else if t == 0xc7 then Sized(CExt, 1)
    else if t == 0xc8 then Sized(CExt, 2)
    else if t == 0xc9 then Sized(CExt, 4)
    else if t == 0xca then Fixed(CFloat32, 4)
    else if t == 0xcb then Fixed(CFloat64, 8)
    else if t == 0xcc then Fixed(CUint, 1)
    else if t == 0xcd then Fixed(CUint, 2)
    else if t == 0xce then Fixed(CUint, 4)
    else if t == 0xcf then Fixed(CUint, 8)
    else if t == 0xd0 then Fixed(CSint, 1)
    else if t == 0xd1 then Fixed(CSint, 2)
    else if t == 0xd2 then Fixed(CSint, 4)
    else if t == 0xd3 then Fixed(CSint, 8)
    else if t == 0xd4 then Fixed(CExt, 1 + 1)
    else if t == 0xd5 then Fixed(CExt, 1 + 2)
    else if t == 0xd6 then Fixed(CExt, 1 + 4)
    else if t == 0xd7 then Fixed(CExt, 1 + 8)
    else if t == 0xd8 then Fixed(CExt, 1 + 16)
    else if t == 0xd9 then Sized(CStr, 1)
    else if t == 0xda then Sized(CStr, 2)
    else if t == 0xdb then Sized(CStr, 4)
    else if t == 0xdc then Counted(false, 2)
    else if t == 0xdd then Counted(false, 4)
    else if t == 0xde then Counted(true, 2)
    else if t == 0xdf then Counted(true, 4)
    else Unknown
  }

  /** An ext payload is its type byte followed by the data the length counts. */
  function Overhead(cls: Class): nat {
    if cls == CExt then 1 else 0
  }

  function TimestampOf(data: bytes): Result<Value> {
    if |data| == 4 then Ok(Timestamp(FromBE(data), 0))
    else if |data| == 8 then Ok(Timestamp(FromBE(data) % 0x4_0000_0000, FromBE(data) / 0x4_0000_0000))
    else if |data| == 12 then Ok(Timestamp(SignedBE(data[4..]), FromBE(data[..4])))
    else Err(BadTimestamp(|data|))
  }

  function ScalarOf(cls: Class, p: bytes): Result<Value>
    requires cls in {CUint, CSint, CExt} ==> p != []
  {
    match cls
    case CUint => Ok(Int(FromBE(p)))
    case CSint => Ok(Int(SignedBE(p)))
    case CFloat32 => Ok(Float32(p))
    case CFloat64 => Ok(Float64(p))
    case CBin => Ok(Bin(p))
    case CStr =>
      (match DecodeUtf8(p)
       case None => Err(BadUtf8)
       case Some(s) => Ok(Str(s)))
    case CExt =>
      var kind := SignedBE(p[..1]);
      if kind == -1 then TimestampOf(p[1..]) else Ok(Ext(kind, p[1..]))
  }

  /** `_MpReader.take`: the n bytes at offset i. */
  function Take(b: bytes, i: nat, n: nat): (r: Result<bytes>)
    ensures r.Ok? <==> i + n <= |b|
    ensures r.Ok? ==> |r.value| == n
  {
    if i + n > |b| then Err(Truncated) else Ok(b[i..i + n])
  }

  function TokenAt(b: bytes, i: nat): (r: Result<(Token, nat)>)
    ensures r.Ok? ==> i < r.value.1 <= |b|
  {
    var tag :- Take(b, i, 1);
    BodyAt(FormOf(tag[0]), tag[0], b, i + 1)
  }

  /** The rest of a token whose tag byte `t`, of form `f`, ends at offset i. */
  function BodyAt(f: Form, t: byte, b: bytes, i: nat): (r: Result<(Token, nat)>)
    requires Sound(f) && i <= |b| && (f.Sized? ==> f.cls in {CStr, CBin, CExt})
    ensures r.Ok? ==> i <= r.value.1 <= |b|
  {
    match f
    case Immediate(tok) => Ok((tok, i))
    case Fixed(cls, n) =>
      var p :- Take(b, i, n);
      var v :- ScalarOf(cls, p);
      Ok((Whole(v), i + n))
    case Sized(cls, w) =>
      var l :- Take(b, i, w);
      var n := FromBE(l) + Overhead(cls);
      var p :- Take(b, i + w, n);
      var v :- ScalarOf(cls, p);
      Ok((Whole(v), i + w + n))
    case Counted(isMap, w) =>
      var l :- Take(b, i, w);
      Ok((if isMap then MapHead(FromBE(l)) else ArrHead(FromBE(l)), i + w))
    case Unknown => Err(BadType(t))
  }

  // ---- values ------------------------------------------------------------------

  /** The dict slot a key names: True and 1 (and False and 0) are the same key in Python; lists
      and dicts are not hashable. */
  function KeyOf(k: Value): (r: Result<Value>)
  {
    match k
    case Arr(_) => Err(Unhashable)
    case Dict(_) => Err(Unhashable)
    case Bool(b) => Ok(Int(if b then 1 else 0))
    case _ => Ok(k)
  }

  function ValueAt(b: bytes, i: nat): (r: Result<(Value, nat)>)
    ensures r.Ok? ==> i < r.value.1 <= |b|
    decreases |b| - i, 0
  {
    var (tok, e) :- TokenAt(b, i);
    match tok
    case Whole(v) => Ok((v, e))
    case ArrHead(n) =>
      var (xs, e') :- ItemsAt(b, e, n);
      Ok((Arr(xs), e'))
    case MapHead(n) =>
      var (m, e') :- PairsAt(b, e, n, map[]);
      Ok((Dict(m), e'))
  }

  function ItemsAt(b: bytes, i: nat, n: nat): (r: Result<(seq<Value>, nat)>)
    requires i <= |b|
    ensures r.Ok? ==> i <= r.value.1 <= |b| && |r.value.0| == n
    decreases |b| - i, n + 1
  {
    if n == 0 then Ok(([], i))
    else
      var (x, e) :- ValueAt(b, i);
      var (xs, e') :- ItemsAt(b, e, n - 1);
      Ok(([x] + xs, e'))
  }

  function PairsAt(b: bytes, i: nat, n: nat, acc: map<Value, Value>): (r: Result<(map<Value, Value>, nat)>)
    requires i <= |b|
    ensures r.Ok? ==> i <= r.value.1 <= |b|
    decreases |b| - i, n + 1
  {
    if n == 0 then Ok((acc, i))
    else
      var (k, e1) :- ValueAt(b, i);
      var (v, e2) :- ValueAt(b, e1);
      var key :- KeyOf(k);
      PairsAt(b, e2, n - 1, acc[key := v])
  }

  /** `msgpack_decode`: one value that spans all of `b`. */
  function Decode(b: bytes): Result<Value> {
    var (v, e) :- ValueAt(b, 0);
    if e != |b| then Err(Trailing(e)) else Ok(v)
  }

  // ---- locality ------------------------------------------------------------------

  lemma BodyLocal(f: Form, t: byte, b: bytes, i: nat, tok: Token, e: nat, b': bytes, i': nat)
    requires Sound(f) && i <= e <= |b| && (f.Sized? ==> f.cls in {CStr, CBin, CExt})
    requires BodyAt(f, t, b, i) == Ok((tok, e))
    requires i' + (e - i) <= |b'| && b'[i'..i' + (e - i)] == b[i..e]
    ensures BodyAt(f, t, b', i') == Ok((tok, i' + (e - i)))
  {
    hide ScalarOf, FromBE;
    match f
    case Immediate(_) =>
    case Fixed(_, n) =>
      AtPart(b, i, e, b', i', 0, n);
      assert Take(b', i', n) == Take(b, i, n);
    case Sized(cls, w) =>
      AtPart(b, i, e, b', i', 0, w);
      assert Take(b', i', w) == Take(b, i, w);
      var n := FromBE(b[i..i + w]) + Overhead(cls);
      AtPart(b, i, e, b', i', w, w + n);
      assert Take(b', i' + w, n) == Take(b, i + w, n);
    case Counted(_, w) =>
      AtPart(b, i, e, b', i', 0, w);
      assert Take(b', i', w) == Take(b, i, w);
  }

  /** A token is determined by its own bytes: wherever they reappear, it is read again. */
  lemma TokenLocal(b: bytes, i: nat, tok: Token, e: nat, b': bytes, i': nat)
    requires TokenAt(b, i) == Ok((tok, e))
    requires At(b', i', b[i..e])
    ensures TokenAt(b', i') == Ok((tok, i' + (e - i)))
  {
    hide FormOf, BodyAt;
    AtPart(b, i, e, b', i', 0, 1);
    assert b'[i'] == b'[i'..i' + 1][0] == b[i..i + 1][0];
    AtPart(b, i, e, b', i', 1, e - i);
    BodyLocal(FormOf(b[i]), b[i], b, i + 1, tok, e, b', i' + 1);
  }
}

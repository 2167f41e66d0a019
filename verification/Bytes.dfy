/** Bytes, big-endian integers and strict UTF-8: the vocabulary that the MessagePack reader,
    writer and splicer share. */
module Bytes {
  import opened Optional

  type byte = x: int | 0 <= x < 256

  type bytes = seq<byte>

  /** `s` lies in `b` at offset `i`. */
  ghost predicate At(b: bytes, i: nat, s: bytes) {
    i + |s| <= |b| && b[i..i + |s|] == s
  }

  lemma AtSplit(b: bytes, i: nat, s: bytes, t: bytes)
    requires At(b, i, s + t)
    ensures At(b, i, s) && At(b, i + |s|, t)
  {
    var u := b[i..i + |s + t|];
    assert u[..|s|] == s && u[|s|..] == t;
    assert b[i..i + |s|] == u[..|s|];
    assert b[i + |s|..i + |s| + |t|] == u[|s|..];
  }

  /** Two byte strings that agree on a window agree on every part of it. */
  lemma AtPart(b: bytes, i: nat, e: nat, b': bytes, i': nat, x: nat, y: nat)
    requires i <= e <= |b| && At(b', i', b[i..e]) && x <= y <= e - i
    ensures b'[i' + x..i' + y] == b[i + x..i + y]
  {
    var u, v := b'[i' + x..i' + y], b[i + x..i + y];
    forall k | 0 <= k < |u|
      ensures u[k] == v[k]
    {
      assert b'[i'..i' + (e - i)][x + k] == b[i..e][x + k];
    }
  }

  // ---- big-endian integers ---------------------------------------------------

  function Pow256(k: nat): (p: nat)
    ensures p > 0
  {
    if k == 0 then 1 else 256 * Pow256(k - 1)
  }

  function ToBE(n: nat, k: nat): (s: bytes)
    ensures |s| == k
  {
    if k == 0 then [] else ToBE(n / 256, k - 1) + [n % 256]
  }

  function FromBE(s: bytes): (n: nat)
    ensures n < Pow256(|s|)
  {
    if s == [] then 0 else FromBE(s[..|s| - 1]) * 256 + s[|s| - 1]
  }

  /** Two's complement reading of a big-endian field. */
  function SignedBE(s: bytes): int
    requires s != []
  {
    var n := FromBE(s);
    if 2 * n < Pow256(|s|) then n else n - Pow256(|s|)
  }

  lemma {:induction false} FromToBE(n: nat, k: nat)
    requires n < Pow256(k)
    ensures FromBE(ToBE(n, k)) == n
  {
    if k != 0 {
      FromToBE(n / 256, k - 1);
      var s := ToBE(n, k);
      assert s[..|s| - 1] == ToBE(n / 256, k - 1);
    }
  }

  lemma PowValues()
    ensures Pow256(1) == 0x100 && Pow256(2) == 0x1_0000
    ensures Pow256(4) == 0x1_0000_0000 && Pow256(8) == 0x1_0000_0000_0000_0000
  {
    assert Pow256(3) == 0x100_0000;
    assert Pow256(5) == 0x100_0000_0000;
    assert Pow256(6) == 0x1_0000_0000_0000;
    assert Pow256(7) == 0x100_0000_0000_0000;
  }

  // ---- strict UTF-8 ------------------------------------------------------------

  /** A Unicode scalar value: a code point that is not a surrogate. */
  predicate Scalar(c: int) {
    0 <= c < 0xD800 || 0xE000 <= c < 0x11_0000
  }

  predicate Cont(b: byte) {
    0x80 <= b < 0xC0
  }

  /** The code point whose continuation bytes `t` follow the leading bits `hi`. */
  function Extend(hi: int, t: bytes): int
    decreases |t|
  {
    if t == [] then hi else Extend(hi * 64 + t[0] - 0x80, t[1..])
  }

  function EncChar(c: int): (s: bytes)
    requires Scalar(c)
    ensures 1 <= |s| <= 4
  {
    if c < 0x80 then [c]
    else if c < 0x800 then [0xC0 + c / 64, 0x80 + c % 64]
    else if c < 0x1_0000 then [0xE0 + c / 64 / 64, 0x80 + c / 64 % 64, 0x80 + c % 64]
    else [0xF0 + c / 64 / 64 / 64, 0x80 + c / 64 / 64 % 64, 0x80 + c / 64 % 64, 0x80 + c % 64]
  }

  /** The code point at the head of `b` and how many bytes it takes; overlong forms, surrogates
      and code points above 0x10FFFF are refused. */
  function DecChar(b: bytes): (r: Option<(int, nat)>)
    ensures r.Some? ==> Scalar(r.value.0) && 1 <= r.value.1 <= |b|
  {
    if |b| >= 1 && b[0] < 0x80 then
      Some((b[0], 1))
    else if |b| >= 2 && 0xC0 <= b[0] < 0xE0 && Cont(b[1]) then
      var c := Extend(b[0] - 0xC0, [b[1]]);
      if c >= 0x80 && Scalar(c) then Some((c, 2)) else None
    else if |b| >= 3 && 0xE0 <= b[0] < 0xF0 && Cont(b[1]) && Cont(b[2]) then
      var c := Extend(b[0] - 0xE0, [b[1], b[2]]);
      if c >= 0x800 && Scalar(c) then Some((c, 3)) else None
    else if |b| >= 4 && 0xF0 <= b[0] < 0xF8 && Cont(b[1]) && Cont(b[2]) && Cont(b[3]) then
      var c := Extend(b[0] - 0xF0, [b[1], b[2], b[3]]);
      if c >= 0x1_0000 && Scalar(c) then Some((c, 4)) else None
    else
      None
  }

  lemma Extend1(hi: int, x: byte)
    ensures Extend(hi, [x]) == hi * 64 + (x - 0x80)
  {
    assert [x][1..] == [];
  }

  lemma Extend2(hi: int, x: byte, y: byte)
    ensures Extend(hi, [x, y]) == (hi * 64 + (x - 0x80)) * 64 + (y - 0x80)
  {
    assert [x, y][1..] == [y];
    Extend1(hi * 64 + (x - 0x80), y);
  }

  lemma Extend3(hi: int, x: byte, y: byte, z: byte)
    ensures Extend(hi, [x, y, z]) == ((hi * 64 + (x - 0x80)) * 64 + (y - 0x80)) * 64 + (z - 0x80)
  {
    assert [x, y, z][1..] == [y, z];
    Extend2(hi * 64 + (x - 0x80), y, z);
  }

  lemma DecEncChar(c: int, t: bytes)
    requires Scalar(c)
    ensures DecChar(EncChar(c) + t) == Some((c, |EncChar(c)|))
  {
    var s := EncChar(c);
    var b := s + t;
    assert b[0] == s[0];
    if c < 0x80 {
    } else if c < 0x800 {
      assert b[1] == s[1];
      Extend1(b[0] - 0xC0, b[1]);
    } else if c < 0x1_0000 {
      assert b[1] == s[1] && b[2] == s[2];
      Extend2(b[0] - 0xE0, b[1], b[2]);
    } else {
      assert b[1] == s[1] && b[2] == s[2] && b[3] == s[3];
      Extend3(b[0] - 0xF0, b[1], b[2], b[3]);
    }
  }

  lemma Shift64(q: int, x: byte)
    requires Cont(x)
    ensures (q * 64 + (x - 0x80)) / 64 == q && 0x80 + (q * 64 + (x - 0x80)) % 64 == x
  {
  }

  lemma EncDecChar(b: bytes)
    requires DecChar(b).Some?
    ensures b[..DecChar(b).value.1] == EncChar(DecChar(b).value.0)
  {
    if b[0] < 0x80 {
    } else if b[0] < 0xE0 {
      Extend1(b[0] - 0xC0, b[1]);
      Shift64(b[0] - 0xC0, b[1]);
    } else if b[0] < 0xF0 {
      Extend2(b[0] - 0xE0, b[1], b[2]);
      EncDec3(b[0] - 0xE0, b[1], b[2]);
    } else {
      Extend3(b[0] - 0xF0, b[1], b[2], b[3]);
      EncDec4(b[0] - 0xF0, b[1], b[2], b[3]);
    }
  }

  lemma EncDec3(h: int, x: byte, y: byte)
    requires Cont(x) && Cont(y) && 0 <= h < 16
    requires var c := (h * 64 + (x - 0x80)) * 64 + (y - 0x80); c >= 0x800 && Scalar(c)
    ensures EncChar((h * 64 + (x - 0x80)) * 64 + (y - 0x80)) == [0xE0 + h, x, y]
  {
    Shift64(h, x);
    Shift64(h * 64 + (x - 0x80), y);
  }

  lemma EncDec4(h: int, x: byte, y: byte, z: byte)
    requires Cont(x) && Cont(y) && Cont(z) && 0 <= h < 8
    requires var c := ((h * 64 + (x - 0x80)) * 64 + (y - 0x80)) * 64 + (z - 0x80); c >= 0x1_0000 && Scalar(c)
    ensures EncChar(((h * 64 + (x - 0x80)) * 64 + (y - 0x80)) * 64 + (z - 0x80)) == [0xF0 + h, x, y, z]
  {
    Shift64(h, x);
    Shift64(h * 64 + (x - 0x80), y);
    Shift64((h * 64 + (x - 0x80)) * 64 + (y - 0x80), z);
  }

  function Utf8(s: string): (b: bytes)
  {
    if s == [] then [] else EncChar(s[0] as int) + Utf8(s[1..])
  }

  function DecodeUtf8(b: bytes): (r: Option<string>)
    decreases |b|
  {
    if b == [] then Some([])
    else
      match DecChar(b)
      case None => None
      case Some((c, n)) =>
        match DecodeUtf8(b[n..])
        case None => None
        case Some(s) => Some([c as char] + s)
  }

  /** Strict decoding is the exact inverse of encoding: it accepts a byte string only when that
      string is the one encoding of its result. */
  lemma {:induction false} Utf8Exact(b: bytes, s: string)
    ensures DecodeUtf8(b) == Some(s) <==> b == Utf8(s)
    decreases |b| + |s|
  {
    if b == [] {
      if s != [] { assert Utf8(s) != []; }
    } else {
      if s == [] { return; }
      if b == Utf8(s) {
        DecEncChar(s[0] as int, Utf8(s[1..]));
        assert b[|EncChar(s[0] as int)|..] == Utf8(s[1..]);
        Utf8Exact(Utf8(s[1..]), s[1..]);
        assert s == [s[0]] + s[1..];
      }
      if DecodeUtf8(b) == Some(s) {
        EncDecChar(b);
        var n := DecChar(b).value.1;
        Utf8Exact(b[n..], s[1..]);
        assert b == b[..n] + b[n..];
      }
    }
  }
}

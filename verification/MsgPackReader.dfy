/** `_MpReader` of scripts/bench/rest_lib.py: the cursor that walks a byte string, proved to be the
    offset function of module MsgPack. */
module MsgPackReader {
  import opened Bytes
  import opened MsgPack

  class Reader {
    const b: bytes
    var i: nat

    constructor (data: bytes)
      ensures b == data && i == 0
    {
      b := data;
      i := 0;
    }

    method Take(n: nat) returns (r: Result<bytes>)
      requires i <= |b|
      modifies this
      ensures r == MsgPack.Take(b, old(i), n)
      ensures i == (if r.Ok? then old(i) + n else old(i)) && i <= |b|
    {
      if i + n > |b| {
        return Err(Truncated);
      }
      r := Ok(b[i..i + n]);
      i := i + n;
    }

    method Uint(n: nat) returns (r: Result<nat>)
      requires i <= |b|
      modifies this
      ensures match MsgPack.Take(b, old(i), n)
              case Ok(s) => r == Ok(FromBE(s)) && i == old(i) + n
              case Err(x) => r == Err(x)
      ensures i <= |b|
    {
      var s := Take(n);
      if s.Err? {
        return Err(s.error);
      }
      r := Ok(FromBE(s.value));
    }

    /** The payload of a scalar: n bytes read as class `cls`. */
    method Payload(cls: Class, n: nat, ghost t: byte) returns (r: Result<Value>)
      requires i <= |b| && Sound(Fixed(cls, n))
      modifies this
      ensures Agrees(r, BodyAt(Fixed(cls, n), t, b, old(i)))
      ensures i <= |b|
    {
      hide ScalarOf;
      var p := Take(n);
      if p.Err? {
        return Err(p.error);
      }
      r := ScalarOf(cls, p.value);
    }

    /** The cursor and the result stand where the offset function says. */
    ghost predicate Agrees(r: Result<Value>, spec: Result<(Token, nat)>)
      reads this
    {
      match spec
      case Ok((Whole(v), e)) => r == Ok(v) && i == e
      case Ok(_) => false
      case Err(x) => r == Err(x)
    }

    /** A payload whose length is the w-byte integer in front of it. */
    method SizedPayload(cls: Class, w: nat, ghost t: byte) returns (r: Result<Value>)
      requires i <= |b| && cls in {CStr, CBin, CExt}
      modifies this
      ensures Agrees(r, BodyAt(Sized(cls, w), t, b, old(i)))
      ensures i <= |b|
    {
      hide ScalarOf;
      var n := Uint(w);
      if n.Err? {
        return Err(n.error);
      }
      var p := Take(n.value + Overhead(cls));
      if p.Err? {
        return Err(p.error);
      }
      r := ScalarOf(cls, p.value);
    }

    method Array(n: nat) returns (r: Result<Value>)
      requires i <= |b|
      modifies this
      ensures match ItemsAt(b, old(i), n)
              case Ok((xs, e)) => r == Ok(Arr(xs)) && i == e
              case Err(x) => r == Err(x)
      ensures i <= |b|
      decreases |b| - i, n + 2
    {
      hide ValueAt;
      ghost var start := i;
      var out: seq<Value> := [];
      assert forall xs: seq<Value> :: out + xs == xs;
      for k := 0 to n
        invariant start <= i <= |b|
        invariant match ItemsAt(b, i, n - k)
                  case Ok((xs, e)) => ItemsAt(b, start, n) == Ok((out + xs, e))
                  case Err(x) => ItemsAt(b, start, n) == Err(x)
      {
        var x := Value();
        if x.Err? {
          return Err(x.error);
        }
        assert forall xs: seq<Value> :: out + ([x.value] + xs) == out + [x.value] + xs;
        out := out + [x.value];
      }
      assert out + [] == out;
      r := Ok(Arr(out));
    }

    method Map(n: nat) returns (r: Result<Value>)
      requires i <= |b|
      modifies this
      ensures match PairsAt(b, old(i), n, map[])
              case Ok((m, e)) => r == Ok(Dict(m)) && i == e
              case Err(x) => r == Err(x)
      ensures i <= |b|
      decreases |b| - i, n + 2
    {
      hide ValueAt;
      ghost var start := i;
      var out: map<Value, Value> := map[];
      for k := 0 to n
        invariant start <= i <= |b|
        invariant PairsAt(b, start, n, map[]) == PairsAt(b, i, n - k, out)
      {
        var key := Value();
        if key.Err? {
          return Err(key.error);
        }
        var v := Value();
        if v.Err? {
          return Err(v.error);
        }
        var slot := KeyOf(key.value);
        if slot.Err? {
          return Err(slot.error);
        }
        out := out[slot.value := v.value];
      }
      r := Ok(Dict(out));
    }

    method Value() returns (r: Result<Value>)
      requires i <= |b|
      modifies this
      ensures match ValueAt(b, old(i))
              case Ok((v, e)) => r == Ok(v) && i == e
              case Err(x) => r == Err(x)
      ensures i <= |b|
      decreases |b| - i, 1
    {
      hide ScalarOf, FormOf, ItemsAt, PairsAt;
      var tag := Take(1);
      if tag.Err? {
        return Err(tag.error);
      }
      var t := tag.value[0];
      var f := FormOf(t);
      match f
      case Immediate(Whole(v)) => r := Ok(v);
      case Immediate(ArrHead(n)) => r := Array(n);
      case Immediate(MapHead(n)) => r := Map(n);
      case Fixed(cls, n) => r := Payload(cls, n, t);
      case Sized(cls, w) => r := SizedPayload(cls, w, t);
      case Counted(isMap, w) =>
        var n := Uint(w);
        if n.Err? {
          return Err(n.error);
        }
        if isMap { r := Map(n.value); } else { r := Array(n.value); }
      case Unknown => r := Err(BadType(t));
    }
  }

  /** `msgpack_decode`. */
  method MsgpackDecode(data: bytes) returns (r: Result<Value>)
    ensures r == Decode(data)
  {
    hide ValueAt;
    var reader := new Reader(data);
    r := reader.Value();
    if r.Ok? && reader.i != |data| {
      r := Err(Trailing(reader.i));
    }
  }
}

/** The written form of a dict is canonical: its keys stand in ascending order on the wire. */
module MsgPackCanonical {
  import opened Bytes
  import opened MsgPack
  import opened KeyOrder
  import opened MsgPackEncoder
  import opened MsgPackLaws

  /** The keys of n pairs as they follow one another from offset i. */
  function KeysAt(b: bytes, i: nat, n: nat): seq<Value>
    decreases n
  {
    if n == 0 then []
    else
      match ValueAt(b, i)
      case Err(_) => []
      case Ok((k, e)) =>
        match ValueAt(b, e)
        case Err(_) => [k]
        case Ok((_, e')) => [k] + KeysAt(b, e', n - 1)
  }

  lemma {:induction false} KeysRead(d: Value, ks: seq<Value>, b: bytes, i: nat)
    requires d.Dict? && StrKeyed(d) && (forall k | k in ks :: k in d.m)
    requires EncodePairs(d, ks).Out? && At(b, i, EncodePairs(d, ks).bytes)
    ensures KeysAt(b, i, |ks|) == ks
    decreases |ks|
  {
    hide At, Encode, EncodeStr, ValueAt, Utf8, StrKeyed;
    if ks != [] {
      var k0 := ks[0];
      assert k0 in ks;
      StringKey(d, k0);
      var k, x := EncodeStr(Utf8(k0.s)).bytes, Encode(d.m[k0]).bytes;
      var rest := EncodePairs(d, ks[1..]).bytes;
      AtSplit(b, i, k + x, rest);
      AtSplit(b, i, k, x);
      RoundTripAt(k0, b, i);
      RoundTripAt(d.m[k0], b, i + |k|);
      KeysRead(d, ks[1..], b, i + |k + x|);
      assert ks == [k0] + ks[1..];
    }
  }

  lemma StringKey(d: Value, k: Value)
    requires d.Dict? && StrKeyed(d) && k in d.m
    ensures k.Str? && StrKeyed(k) && StrKeyed(d.m[k]) && Encode(k) == EncodeStr(Utf8(k.s))
  {
    hide Utf8, EncodeStr;
  }

  /** After the head of an encoded dict come all its keys, each once, in ascending order. */
  lemma Canonical(d: Value, b: bytes, i: nat)
    requires d.Dict? && StrKeyed(d) && Encode(d).Out? && At(b, i, Encode(d).bytes)
    ensures var h := i + |EncodeHead(true, |d.m|).bytes|;
      && TokenAt(b, i) == Ok((MapHead(|d.m|), h)) && Ascending(KeysAt(b, h, |d.m|))
      && (forall k :: k in KeysAt(b, h, |d.m|) <==> k in d.m)
  {
    hide At, TokenAt, EncodeHead, EncodePairs, SortKeys, KeysAt, StrKeyed;
    AllStrings(d);
    var ks := SortKeys(d.m.Keys);
    var head, body := EncodeHead(true, |d.m|).bytes, EncodePairs(d, ks).bytes;
    AtSplit(b, i, head, body);
    HeadToken(true, |d.m|, b, i);
    KeysRead(d, ks, b, i + |head|);
  }

  lemma AllStrings(d: Value)
    requires d.Dict? && StrKeyed(d)
    ensures forall k | k in d.m.Keys :: k.Str?
  {
  }
}

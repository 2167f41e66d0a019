/** Which responses `strip_state_proof_bodies` accepts, and one that it accepts without removing
    every proof body. */
module StateProofScan {
  import opened Bytes
  import opened Optional
  import opened MsgPack
  import opened MsgTree
  import opened StateProofStrip
  import opened StateProofLaws
  import opened StateProofMeaning

  // ---- what the scan accepts --------------------------------------------------------------

  /** The path leads through maps and arrays to maps, and every state-proof transaction among them
      has a proof body under a header that can be shortened. */
  ghost predicate Fits(t: Tree, path: seq<Step>)
    decreases |path|
  {
    if path == [] then t.MapT? && (SaysStpf(t.pairs, false) ==> Strippable(t))
    else
      match path[0]
      case Entry(key) => t.MapT? && forall p | p in t.pairs && IsKey(p, key) :: Fits(p.val, path[1..])
      case Each => t.ArrT? && forall x | x in t.items :: Fits(x, path[1..])
  }

  ghost predicate Accepts(b: bytes, r: Scan<(seq<Cut>, nat)>) {
    r.Done? && AllShrinkable(b, r.value.0)
  }

  lemma UnpackWorks(b: bytes, i: nat)
    requires ParseAt(b, i).Ok? && Meaning(ParseAt(b, i).value.0).Ok?
    ensures Unpack(b, i) == Done((Meaning(ParseAt(b, i).value.0).value, ParseAt(b, i).value.1))
  {
    hide ValueAt, ParseAt, Meaning;
    DecodeIsMeaning(b, i);
  }

  lemma {:induction false} FieldsWork(b: bytes, i: nat, n: nat, found: Option<(nat, nat)>, stpf: bool)
    requires i <= |b| && ParsePairs(b, i, n).Ok? && Readable(ParsePairs(b, i, n).value.0)
    ensures Fields(b, i, n, found, stpf).Done?
    decreases n
  {
    hide Unpack, ParseAt, Meaning, KeyOf;
    if n != 0 {
      var (kt, e) := ParseAt(b, i).value;
      var (vt, e') := ParseAt(b, e).value;
      var ps, qs := ParsePairs(b, i, n).value.0, ParsePairs(b, e', n - 1).value.0;
      assert ps[0] == Pair(kt, vt) && ps[1..] == qs;
      assert ps[0] in ps;
      UnpackWorks(b, i);
      UnpackWorks(b, e);
      var k := Meaning(kt).value;
      FieldsWork(b, e', n - 1, if k == Str("sp") then Some((i, e')) else found,
                 if k == Str("type") then Meaning(vt).value == Str("stpf") else stpf);
    }
  }

  lemma TxnAccepted(b: bytes, i: nat)
    requires ParseAt(b, i).Ok? && Meaning(ParseAt(b, i).value.0).Ok?
    ensures Accepts(b, Txn(b, i)) <==> Fits(ParseAt(b, i).value.0, [])
  {
    hide FrameAt, Fields, ParsePairs, ParseItems, MeaningPairs, MeaningItems, SaysStpf, FoundIn, Shrinkable, LastKey;
    var t := ParseAt(b, i).value.0;
    var (shape, e) := FrameAt(b, i).value;
    if t.MapT? {
      var n := |t.pairs|;
      ReadableIff(t.pairs, map[]);
      FieldsWork(b, e, n, None, false);
      FieldsReads(b, e, n, None, false);
      FoundIsLast(t.pairs, e, None);
      assert t.head[0] == b[i];
      if Txn(b, i).Done? && SaysStpf(t.pairs, false) {
        var cs := Txn(b, i).value.0;
        assert cs[0] in cs;
        assert cs[0].hdr == i && cs[0].n == n;
      }
    }
  }

  /** On a response that decodes, the strip goes through exactly when the response has the expected
      shape and every state-proof transaction in it a removable proof body. */
  lemma {:induction false} WalkAccepted(b: bytes, i: nat, path: seq<Step>)
    requires ParseAt(b, i).Ok? && Meaning(ParseAt(b, i).value.0).Ok?
    ensures Accepts(b, Walk(b, i, path)) <==> Fits(ParseAt(b, i).value.0, path)
    decreases |path|, 0, 0
  {
    hide FrameAt, ParsePairs, ParseItems, MeaningPairs, MeaningItems, WalkEntries, WalkItems, Txn, AllShrinkable;
    if path == [] {
      TxnAccepted(b, i);
    } else {
      var t := ParseAt(b, i).value.0;
      var (shape, e) := FrameAt(b, i).value;
      match path[0]
      case Entry(key) =>
        if t.MapT? {
          ReadableIff(t.pairs, map[]);
          EntriesAccepted(b, e, |t.pairs|, key, path[1..]);
        }
      case Each =>
        if t.ArrT? { ItemsAccepted(b, e, |t.items|, path[1..]); }
    }
  }

  lemma BothShrinkable(b: bytes, cs: seq<Cut>, cs': seq<Cut>)
    ensures AllShrinkable(b, cs + cs') <==> AllShrinkable(b, cs) && AllShrinkable(b, cs')
  {
    if AllShrinkable(b, cs + cs') {
      assert forall c | c in cs :: c in cs + cs';
      assert forall c | c in cs' :: c in cs + cs';
    }
  }

  lemma {:induction false} EntriesAccepted(b: bytes, i: nat, n: nat, key: string, rest: seq<Step>)
    requires i <= |b| && ParsePairs(b, i, n).Ok? && Readable(ParsePairs(b, i, n).value.0)
    ensures Accepts(b, WalkEntries(b, i, n, key, rest)) <==>
              forall p | p in ParsePairs(b, i, n).value.0 && IsKey(p, key) :: Fits(p.val, rest)
    decreases |rest|, 1, n
  {
    hide Walk, Unpack, ParseAt, Meaning, KeyOf, Fits, Shrinkable;
    if n != 0 {
      var (kt, e) := ParseAt(b, i).value;
      var (vt, e') := ParseAt(b, e).value;
      var ps, qs := ParsePairs(b, i, n).value.0, ParsePairs(b, e', n - 1).value.0;
      assert ps[0] == Pair(kt, vt) && ps[1..] == qs;
      assert forall p :: p in ps <==> p == ps[0] || p in qs;
      UnpackWorks(b, i);
      EntriesAccepted(b, e', n - 1, key, rest);
      if IsKey(ps[0], key) {
        WalkAccepted(b, e, rest);
        StepAccepted(b, e, rest, WalkEntries(b, e', n - 1, key, rest));
      }
    }
  }

  /** A scan followed by another scan is accepted when both are. */
  lemma StepAccepted(b: bytes, i: nat, rest: seq<Step>, more: Scan<(seq<Cut>, nat)>)
    requires ParseAt(b, i).Ok?
    ensures Accepts(b, Walk(b, i, rest)) ==> Walk(b, i, rest).value.1 == ParseAt(b, i).value.1
    ensures Walk(b, i, rest).Done? && more.Done? ==>
              (AllShrinkable(b, Walk(b, i, rest).value.0 + more.value.0) <==>
               AllShrinkable(b, Walk(b, i, rest).value.0) && AllShrinkable(b, more.value.0))
  {
    hide Walk, ParseAt, AllShrinkable;
    if Accepts(b, Walk(b, i, rest)) { WalkStrips(b, i, rest); }
    if Walk(b, i, rest).Done? && more.Done? { BothShrinkable(b, Walk(b, i, rest).value.0, more.value.0); }
  }

  lemma {:induction false} ItemsAccepted(b: bytes, i: nat, n: nat, rest: seq<Step>)
    requires i <= |b| && ParseItems(b, i, n).Ok? && MeaningItems(ParseItems(b, i, n).value.0).Ok?
    ensures Accepts(b, WalkItems(b, i, n, rest)) <==>
              forall x | x in ParseItems(b, i, n).value.0 :: Fits(x, rest)
    decreases |rest|, 1, n
  {
    hide Walk, ParseAt, Meaning, Fits, Shrinkable;
    if n != 0 {
      var (t, e) := ParseAt(b, i).value;
      var ts, us := ParseItems(b, i, n).value.0, ParseItems(b, e, n - 1).value.0;
      assert ts[0] == t && ts[1..] == us;
      assert forall x :: x in ts <==> x == t || x in us;
      ItemsAccepted(b, e, n - 1, rest);
      WalkAccepted(b, i, rest);
      StepAccepted(b, i, rest, WalkItems(b, e, n - 1, rest));
    }
  }

  // ---- a response whose proof body survives ---------------------------------------------------

  const BLOCK: bytes := [0xa5, 0x62, 0x6c, 0x6f, 0x63, 0x6b]
  const TXNS: bytes := [0xa4, 0x74, 0x78, 0x6e, 0x73]
  const TXN: bytes := [0xa3, 0x74, 0x78, 0x6e]
  const BODY: bytes := [0xa2, 0x73, 0x70]
  const KIND: bytes := [0xa4, 0x74, 0x79, 0x70, 0x65]
  const STPF: bytes := [0xa4, 0x73, 0x74, 0x70, 0x66]

  /** `{"block": {"txns": [{"txn": {"sp": 1, "sp": 2, "type": "stpf"}}]}}` */
  const TWO_BODIES: bytes :=
    [0x81, 0xa5, 0x62, 0x6c, 0x6f, 0x63, 0x6b, 0x81, 0xa4, 0x74, 0x78, 0x6e, 0x73, 0x91, 0x81, 0xa3, 0x74, 0x78, 0x6e,
     0x83, 0xa2, 0x73, 0x70, 0x01, 0xa2, 0x73, 0x70, 0x02, 0xa4, 0x74, 0x79, 0x70, 0x65, 0xa4, 0x73, 0x74, 0x70, 0x66]

  function TwoBodies(): Tree {
    MapT([0x83], [Pair(Leaf(BODY), Leaf([0x01])), Pair(Leaf(BODY), Leaf([0x02])), Pair(Leaf(KIND), Leaf(STPF))])
  }

  function Single(key: bytes, x: Tree): Tree {
    MapT([0x81], [Pair(Leaf(key), x)])
  }

  function Response(txn: Tree): Tree {
    Single(BLOCK, Single(TXNS, ArrT([0x91], [Single(TXN, txn)])))
  }

  /** A short string token and the string it stands for. */
  ghost predicate Names(raw: bytes, s: string) {
    && 1 <= |raw| <= 32 && raw[0] == 0xa0 + (|raw| - 1)
    && |s| == |raw| - 1 && forall k | 0 <= k < |s| :: s[k] as int == raw[k + 1] < 0x80
  }

  lemma PathNames()
    ensures Names(BLOCK, "block") && Names(TXNS, "txns") && Names(TXN, "txn")
  {
  }

  lemma FieldNames()
    ensures Names(BODY, "sp") && Names(KIND, "type") && Names(STPF, "stpf")
  {
  }

  lemma {:induction false} AsciiUtf8(s: string, b: bytes)
    requires |s| == |b| && forall k | 0 <= k < |s| :: s[k] as int == b[k] < 0x80
    ensures Utf8(s) == b
    decreases |s|
  {
    if s != [] {
      AsciiUtf8(s[1..], b[1..]);
      assert b == [b[0]] + b[1..];
    }
  }

  lemma NameLeaf(raw: bytes, s: string)
    requires Names(raw, s)
    ensures Framed(Leaf(raw)) && Meaning(Leaf(raw)) == Ok(Str(s))
  {
    hide Utf8, DecodeUtf8;
    AsciiUtf8(s, raw[1..]);
    Utf8Exact(raw[1..], s);
    assert raw[1..|raw|] == raw[1..];
  }

  lemma SingleFacts(key: bytes, s: string, x: Tree, rest: seq<Step>)
    requires Names(key, s) && Framed(x) && Meaning(x).Ok?
    ensures var t := Single(key, x);
      && Framed(t) && Meaning(t).Ok?
      && (LiveOnce(t, [Entry(s)] + rest) <==> LiveOnce(x, rest))
      && (Fits(t, [Entry(s)] + rest) <==> Fits(x, rest))
  {
    hide Meaning, Names;
    NameLeaf(key, s);
    var p := Pair(Leaf(key), x);
    assert [p][1..] == [];
    MapReads([0x81], [p]);
    assert p in [p];
    assert IsKey(p, s);
    assert ([Entry(s)] + rest)[1..] == rest;
    assert LastKey([p], s) == Some(0);
  }

  lemma MapReads(head: bytes, ps: seq<Pair>)
    requires Readable(ps)
    ensures Meaning(MapT(head, ps)).Ok?
  {
    hide MeaningPairs, Readable;
    ReadableIff(ps, map[]);
  }

  lemma ListReads(head: bytes, x: Tree)
    requires Meaning(x).Ok?
    ensures Meaning(ArrT(head, [x])).Ok?
  {
    OneItem(x);
    hide MeaningItems;
  }

  lemma OneItem(x: Tree)
    requires Meaning(x).Ok?
    ensures MeaningItems([x]).Ok?
  {
    hide Meaning;
    var xs := [x];
    assert xs[1..] == [];
    assert MeaningItems(xs[1..]) == Ok([]);
  }

  lemma DigitLeaf(n: byte)
    requires n < 0x80
    ensures Framed(Leaf([n])) && Meaning(Leaf([n])) == Ok(Int(n))
  {
  }

  lemma ListFacts(x: Tree, rest: seq<Step>)
    requires Framed(x) && Meaning(x).Ok?
    ensures var t := ArrT([0x91], [x]);
      && Framed(t) && Meaning(t).Ok?
      && (LiveOnce(t, [Each] + rest) <==> LiveOnce(x, rest))
      && (Fits(t, [Each] + rest) <==> Fits(x, rest))
  {
    hide Meaning;
    assert x in [x];
    ListReads([0x91], x);
    assert ([Each] + rest)[1..] == rest;
  }

  lemma ResponseFacts(x: Tree)
    requires Framed(x) && Meaning(x).Ok?
    ensures var t := Response(x);
      && Framed(t) && Meaning(t).Ok?
      && (LiveOnce(t, TXN_PATH) <==> LiveOnce(x, []))
      && (Fits(t, TXN_PATH) <==> Fits(x, []))
  {
    hide Framed, Meaning, LiveOnce, Fits, Names;
    PathNames();
    var p1 := [Entry("txn")] + [];
    var p2 := [Each] + p1;
    var p3 := [Entry("txns")] + p2;
    assert TXN_PATH == [Entry("block")] + p3;
    SingleFacts(TXN, "txn", x, []);
    ListFacts(Single(TXN, x), p1);
    SingleFacts(TXNS, "txns", ArrT([0x91], [Single(TXN, x)]), p2);
    SingleFacts(BLOCK, "block", Single(TXNS, ArrT([0x91], [Single(TXN, x)])), p3);
  }

  lemma TwoBodiesRead()
    ensures Framed(TwoBodies()) && Meaning(TwoBodies()).Ok?
    ensures forall k | 0 <= k < 3 :: IsKey(TwoBodies().pairs[k], if k < 2 then "sp" else "type")
    ensures Meaning(TwoBodies().pairs[2].val) == Ok(Str("stpf"))
  {
    hide Meaning, Names;
    FieldNames();
    NameLeaf(BODY, "sp");
    NameLeaf(KIND, "type");
    NameLeaf(STPF, "stpf");
    DigitLeaf(0x01);
    DigitLeaf(0x02);
    MapReads([0x83], TwoBodies().pairs);
  }

  /** The scan records the second `sp` entry, so the first one stays. */
  lemma TwoBodiesStripped()
    ensures Fits(TwoBodies(), []) && !LiveOnce(TwoBodies(), [])
    ensures StripTxn(TwoBodies()) == MapT([0x82], [Pair(Leaf(BODY), Leaf([0x01])), Pair(Leaf(KIND), Leaf(STPF))])
  {
    hide Meaning;
    TwoBodiesRead();
    var ps := TwoBodies().pairs;
    assert ps[1..][1..] == [ps[2]] && [ps[2]][1..] == [];
    assert SaysStpf(ps, false);
    assert LastKey(ps, "sp") == Some(1);
    assert IsKey(ps[0], "sp") && IsKey(ps[1], "sp");
  }

  lemma StripSingle(key: bytes, s: string, x: Tree, rest: seq<Step>)
    requires Names(key, s)
    ensures StripTree(Single(key, x), [Entry(s)] + rest) == Single(key, StripTree(x, rest))
  {
    hide Meaning, Names;
    NameLeaf(key, s);
    var p := Pair(Leaf(key), x);
    assert [p][1..] == [] && IsKey(p, s);
    assert ([Entry(s)] + rest)[1..] == rest;
  }

  lemma StripList(x: Tree, rest: seq<Step>)
    ensures StripTree(ArrT([0x91], [x]), [Each] + rest) == ArrT([0x91], [StripTree(x, rest)])
  {
    assert [x][1..] == [] && ([Each] + rest)[1..] == rest;
  }

  lemma StripResponse(x: Tree)
    ensures StripTree(Response(x), TXN_PATH) == Response(StripTxn(x))
  {
    assert StripTree(x, []) == StripTxn(x);
    hide StripTree, StripTxn, Names;
    PathNames();
    var p1 := [Entry("txn")] + [];
    var p2 := [Each] + p1;
    var p3 := [Entry("txns")] + p2;
    assert TXN_PATH == [Entry("block")] + p3;
    var y := Single(TXN, x);
    StripSingle(TXN, "txn", x, []);
    StripList(y, p1);
    StripSingle(TXNS, "txns", ArrT([0x91], [y]), p2);
    StripSingle(BLOCK, "block", Single(TXNS, ArrT([0x91], [y])), p3);
  }

  lemma FlatSingle(key: bytes, x: Tree)
    ensures Flat(Single(key, x)) == [0x81] + key + Flat(x)
  {
    var ps := [Pair(Leaf(key), x)];
    assert ps[1..] == [];
    assert FlatPairs(ps) == key + Flat(x);
  }

  lemma FlatList(x: Tree)
    ensures Flat(ArrT([0x91], [x])) == [0x91] + Flat(x)
  {
    var xs := [x];
    assert xs[1..] == [];
    assert FlatItems(xs) == Flat(x) + FlatItems(xs[1..]);
  }

  lemma FlatResponse(x: Tree)
    ensures Flat(Response(x)) == [0x81] + BLOCK + [0x81] + TXNS + [0x91, 0x81] + TXN + Flat(x)
  {
    var y := Single(TXN, x);
    FlatSingle(TXN, x);
    FlatList(y);
    hide Flat, Single;
    FlatSingle(TXNS, ArrT([0x91], [y]));
    FlatSingle(BLOCK, Single(TXNS, ArrT([0x91], [y])));
  }

  lemma FlatTwoBodies()
    ensures Flat(TwoBodies()) == [0x83] + BODY + [0x01] + BODY + [0x02] + KIND + STPF
  {
    var ps := TwoBodies().pairs;
    assert ps[1..][1..] == [ps[2]] && [ps[2]][1..] == [];
    assert FlatPairs([ps[2]]) == KIND + STPF;
    assert FlatPairs(ps[1..]) == BODY + [0x02] + (KIND + STPF);
  }

  lemma TwoBodiesBytes()
    ensures Flat(Response(TwoBodies())) == TWO_BODIES
  {
    hide Flat, Response, TwoBodies;
    FlatResponse(TwoBodies());
    FlatTwoBodies();
  }

  lemma TwoBodiesParsed()
    ensures ParseAt(TWO_BODIES, 0) == Ok((Response(TwoBodies()), |TWO_BODIES|)) && Decode(TWO_BODIES).Ok?
    ensures Accepts(TWO_BODIES, Walk(TWO_BODIES, 0, TXN_PATH))
    ensures !LiveOnce(Response(TwoBodies()), TXN_PATH)
  {
    hide Walk, ParseAt, ValueAt, Flat, Meaning, Framed, Fits, LiveOnce, Accepts, Response, TwoBodies, StripTxn;
    var t := Response(TwoBodies());
    TwoBodiesRead();
    TwoBodiesStripped();
    ResponseFacts(TwoBodies());
    TwoBodiesBytes();
    assert TWO_BODIES[0..|TWO_BODIES|] == TWO_BODIES;
    ParseFlat(t, TWO_BODIES, 0);
    DecodeIsMeaning(TWO_BODIES, 0);
    WalkAccepted(TWO_BODIES, 0, TXN_PATH);
  }

  /** A response that the strip accepts and whose proof body survives it: of two `sp` entries in one
      state-proof transaction only the last is cut. */
  lemma ProofBodySurvives()
    ensures var w := Walk(TWO_BODIES, 0, TXN_PATH);
      && Accepts(TWO_BODIES, w) && Within(TWO_BODIES, w.value.0, 0, |TWO_BODIES|)
      && ParseAt(Splice(TWO_BODIES, w.value.0, 0, |TWO_BODIES|), 0).Ok?
      && ParseAt(Splice(TWO_BODIES, w.value.0, 0, |TWO_BODIES|), 0).value.0 ==
         Response(MapT([0x82], [Pair(Leaf(BODY), Leaf([0x01])), Pair(Leaf(KIND), Leaf(STPF))]))
      && Decode(TWO_BODIES).Ok?
      && Decode(Splice(TWO_BODIES, w.value.0, 0, |TWO_BODIES|)) !=
         Ok(StripValue(Decode(TWO_BODIES).value, TXN_PATH))
  {
    hide Walk, ParseAt, Flat, LiveOnce, StripTree, StripTxn, StripValue, Splice, Within, AllShrinkable, Decode;
    hide Response, TwoBodies;
    TwoBodiesParsed();
    TwoBodiesStripped();
    var (cs, e) := Walk(TWO_BODIES, 0, TXN_PATH).value;
    StripPreserves(TWO_BODIES, cs, e, Decode(TWO_BODIES).value);
    StripStructure(TWO_BODIES, cs, e);
    StripResponse(TwoBodies());
  }
}

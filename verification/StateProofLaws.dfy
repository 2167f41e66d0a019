/** What the byte-level strip preserves. */
module StateProofLaws {
  import opened Bytes
  import opened Optional
  import opened MsgPack
  import opened MsgTree
  import opened StateProofStrip

  lemma HeadFacts(b: bytes, i: nat, n: nat, e: nat)
    requires FrameAt(b, i) == Ok((MapOf(n), e))
    requires 0x80 <= b[i] <= 0x8f || b[i] == 0xde
    ensures e == i + HeadLen(b[i]) && (1 <= n ==> Shrinkable(b[i], n))
  {
    PowValues();
  }

  lemma ShrinkIsHead(h: byte, n: nat)
    requires Shrinkable(h, n)
    ensures IsFrame(Shrink(h, n), MapOf(n - 1))
  {
    hide ToBE;
    if h == 0xde {
      PowValues();
      FromToBE(n - 1, 2);
      var s := Shrink(h, n);
      assert s[1..3] == ToBE(n - 1, 2);
    }
  }

  lemma {:induction false} FlatPairsSplit(ps: seq<Pair>, j: nat)
    requires j <= |ps|
    ensures FlatPairs(ps) == FlatPairs(ps[..j]) + FlatPairs(ps[j..])
  {
    hide Flat;
    if j == 0 {
      assert ps[..0] == [] && ps[0..] == ps;
    } else {
      FlatPairsSplit(ps[1..], j - 1);
      assert ps[..j][0] == ps[0] && ps[..j][1..] == ps[1..][..j - 1] && ps[1..][j - 1..] == ps[j..];
    }
  }

  lemma FlatPairsAt(ps: seq<Pair>, j: nat)
    requires j < |ps|
    ensures FlatPairs(ps) ==
      FlatPairs(ps[..j]) + (Flat(ps[j].key) + Flat(ps[j].val)) + FlatPairs(ps[j + 1..])
    ensures FlatPairs(Without(ps, j)) == FlatPairs(ps[..j]) + FlatPairs(ps[j + 1..])
  {
    hide Flat;
    FlatPairsSplit(ps, j);
    assert ps[j..][0] == ps[j] && ps[j..][1..] == ps[j + 1..];
    var w := Without(ps, j);
    FlatPairsSplit(w, j);
    assert w[..j] == ps[..j] && w[j..] == ps[j + 1..];
  }

  /** The scan of a map cuts exactly the bytes of the entry that the tree edit drops. */
  lemma CutPieces(b: bytes, i: nat, e0: nat, ps: seq<Pair>, e: nat, j: nat)
    requires i <= e0 <= e <= |b| && b[e0..e] == FlatPairs(ps) && j < |ps|
    ensures var ks := e0 + |FlatPairs(ps[..j])|;
      var ve := ks + |Flat(ps[j].key)| + |Flat(ps[j].val)|;
      && e0 <= ks <= ve <= e
      && b[e0..ks] + b[ve..e] == FlatPairs(Without(ps, j))
  {
    hide Flat, FlatPairs, Without;
    FlatPairsAt(ps, j);
    var x, y, z := FlatPairs(ps[..j]), Flat(ps[j].key) + Flat(ps[j].val), FlatPairs(ps[j + 1..]);
    var w := b[e0..e];
    assert w == x + y + z;
    assert b[e0..e0 + |x|] == w[..|x|] == x;
    assert b[e0 + |x + y|..e] == w[|x + y|..] == z;
  }

  lemma TxnParses(b: bytes, i: nat) returns (t: Tree, e0: nat, e: nat)
    requires Txn(b, i).Done?
    ensures ParseAt(b, i) == Ok((t, e)) && i < e0 <= e <= |b| && t.MapT?
    ensures FrameAt(b, i) == Ok((MapOf(|t.pairs|), e0)) && t.head == b[i..e0]
    ensures b[e0..e] == FlatPairs(t.pairs) && Framed(t)
    ensures Txn(b, i).value.1 == e
    ensures !SaysStpf(t.pairs, false) ==> Txn(b, i).value.0 == []
    ensures SaysStpf(t.pairs, false) ==> FoundIn(t.pairs, e0, None).Some?
    ensures SaysStpf(t.pairs, false) ==>
              (var (ks, ve) := FoundIn(t.pairs, e0, None).value;
               Txn(b, i).value.0 == [Cut(i, ks, ve, |t.pairs|)])
  {
    hide FrameAt, Fields, ParsePairs, FlatPairs, SaysStpf, FoundIn;
    var n := MapHeader(b, i).value.0;
    e0 := MapHeader(b, i).value.1;
    FieldsReads(b, e0, n, None, false);
    ParsePairsSound(b, e0, n);
    t, e := ParseAt(b, i).value.0, ParseAt(b, i).value.1;
    assert At(b[i..e0], 0, b[i..e0]);
    FrameLocal(b, i, MapOf(n), e0, b[i..e0], 0);
  }

  /** Every header that is to lose an entry is one the source can shorten. */
  predicate AllShrinkable(b: bytes, cs: seq<Cut>) {
    forall c | c in cs :: c.hdr < |b| && Shrinkable(b[c.hdr], c.n)
  }

  /** `strips`: cutting the bytes [i, e) with `cs` gives the bytes of the edited tree. */
  ghost predicate Strips(b: bytes, i: nat, cs: seq<Cut>, e: nat, path: seq<Step>) {
    && ParseAt(b, i).Ok? && ParseAt(b, i).value.1 == e
    && Within(b, cs, i, e)
    && Splice(b, cs, i, e) == Flat(StripTree(ParseAt(b, i).value.0, path))
    && Framed(StripTree(ParseAt(b, i).value.0, path))
    && AllStrippable(ParseAt(b, i).value.0, path)
  }

  lemma TxnSplice(b: bytes, i: nat, ks: nat, ve: nat, e: nat, n: nat)
    requires i < |b| && Shrinkable(b[i], n) && i + HeadLen(b[i]) <= ks <= ve <= e <= |b|
    ensures Within(b, [Cut(i, ks, ve, n)], i, e)
    ensures Splice(b, [Cut(i, ks, ve, n)], i, e) == Shrink(b[i], n) + (b[i + HeadLen(b[i])..ks] + b[ve..e])
  {
    hide Shrink, HeadLen, Shrinkable;
    var c := Cut(i, ks, ve, n);
    assert [c][1..] == [];
    assert b[i..i] == [];
  }

  lemma WithoutFramed(ps: seq<Pair>, j: nat)
    requires j < |ps| && forall p | p in ps :: Framed(p.key) && Framed(p.val)
    ensures |Without(ps, j)| == |ps| - 1 && forall p | p in Without(ps, j) :: Framed(p.key) && Framed(p.val)
  {
  }

  lemma TxnStrips(b: bytes, i: nat)
    requires Txn(b, i).Done? && AllShrinkable(b, Txn(b, i).value.0)
    ensures Strips(b, i, Txn(b, i).value.0, Txn(b, i).value.1, [])
  {
    hide FrameAt, Txn, ParseAt, Meaning, SaysStpf, FoundIn, LastKey, Without, FlatPairs, Shrink, IsFrame, HeadLen;
    var t, e0, e := TxnParses(b, i);
    var cs := Txn(b, i).value.0;
    ParseSound(b, i);
    FoundIsLast(t.pairs, e0, None);
    if SaysStpf(t.pairs, false) {
      var j := LastKey(t.pairs, "sp").value;
      var (ks, ve) := FoundIn(t.pairs, e0, None).value;
      assert cs[0] == Cut(i, ks, ve, |t.pairs|) && cs[0] in cs;
      HeadFacts(b, i, |t.pairs|, e0);
      CutPieces(b, i, e0, t.pairs, e, j);
      assert t.head[0] == b[i];
      ShrinkIsHead(b[i], |t.pairs|);
      TxnSplice(b, i, ks, ve, e, |t.pairs|);
      WithoutFramed(t.pairs, j);
    }
  }

  ghost predicate StripsPairs(b: bytes, i: nat, n: nat, cs: seq<Cut>, e: nat, key: string, rest: seq<Step>)
    requires i <= |b|
  {
    && ParsePairs(b, i, n).Ok? && ParsePairs(b, i, n).value.1 == e
    && Within(b, cs, i, e)
    && Splice(b, cs, i, e) == FlatPairs(StripPairs(ParsePairs(b, i, n).value.0, key, rest))
    && (forall p | p in StripPairs(ParsePairs(b, i, n).value.0, key, rest) :: Framed(p.key) && Framed(p.val))
    && forall p | p in ParsePairs(b, i, n).value.0 && IsKey(p, key) :: AllStrippable(p.val, rest)
  }

  ghost predicate StripsItems(b: bytes, i: nat, n: nat, cs: seq<Cut>, e: nat, rest: seq<Step>)
    requires i <= |b|
  {
    && ParseItems(b, i, n).Ok? && ParseItems(b, i, n).value.1 == e
    && Within(b, cs, i, e)
    && Splice(b, cs, i, e) == FlatItems(StripItems(ParseItems(b, i, n).value.0, rest))
    && (forall t | t in StripItems(ParseItems(b, i, n).value.0, rest) :: Framed(t))
    && forall t | t in ParseItems(b, i, n).value.0 :: AllStrippable(t, rest)
  }

  /** The walk finds, in ascending order, exactly the cuts that turn the bytes of the parsed tree
      into the bytes of the edited tree. */
  lemma {:induction false} WalkStrips(b: bytes, i: nat, path: seq<Step>)
    requires Walk(b, i, path).Done? && AllShrinkable(b, Walk(b, i, path).value.0)
    ensures Strips(b, i, Walk(b, i, path).value.0, Walk(b, i, path).value.1, path)
    decreases |path|, 0, 0
  {
    hide FrameAt, ParsePairs, ParseItems, WalkEntries, WalkItems, StripPairs, StripItems, Txn, StripTxn, Within, Splice;
    if path == [] {
      TxnStrips(b, i);
    } else {
      match path[0]
      case Entry(key) =>
        var (n, e0) := MapHeader(b, i).value;
        WalkEntriesStrips(b, e0, n, key, path[1..]);
        HeadKept(b, i, MapOf(n), e0, WalkEntries(b, e0, n, key, path[1..]).value.0, Walk(b, i, path).value.1);
      case Each =>
        var (n, e0) := ArrayHeader(b, i).value;
        WalkItemsStrips(b, e0, n, path[1..]);
        HeadKept(b, i, ArrOf(n), e0, WalkItems(b, e0, n, path[1..]).value.0, Walk(b, i, path).value.1);
    }
  }

  lemma HeadKept(b: bytes, i: nat, s: Shape, e0: nat, cs: seq<Cut>, e: nat)
    requires FrameAt(b, i) == Ok((s, e0)) && Within(b, cs, e0, e)
    ensures Within(b, cs, i, e) && Splice(b, cs, i, e) == b[i..e0] + Splice(b, cs, e0, e)
    ensures IsFrame(b[i..e0], s)
  {
    hide FrameAt, Within, Splice;
    SpliceFrom(b, cs, i, e0, e);
    assert At(b[i..e0], 0, b[i..e0]);
    FrameLocal(b, i, s, e0, b[i..e0], 0);
  }

  lemma {:induction false} WalkItemsStrips(b: bytes, i: nat, n: nat, rest: seq<Step>)
    requires i <= |b| && WalkItems(b, i, n, rest).Done? && AllShrinkable(b, WalkItems(b, i, n, rest).value.0)
    ensures StripsItems(b, i, n, WalkItems(b, i, n, rest).value.0, WalkItems(b, i, n, rest).value.1, rest)
    decreases |rest|, 1, n
  {
    hide Walk, ParseAt, Framed, Flat, StripTree, Shrinkable, AllStrippable;
    if n != 0 {
      var (cs, e) := Walk(b, i, rest).value;
      var (cs', e') := WalkItems(b, e, n - 1, rest).value;
      WalkStrips(b, i, rest);
      WalkItemsStrips(b, e, n - 1, rest);
      SpliceJoin(b, cs, i, e, cs', e');
      var t, ts := ParseAt(b, i).value.0, ParseItems(b, e, n - 1).value.0;
      ItemsCons(t, ts, rest);
    }
  }

  lemma ItemsCons(t: Tree, ts: seq<Tree>, rest: seq<Step>)
    ensures StripItems([t] + ts, rest) == [StripTree(t, rest)] + StripItems(ts, rest)
    ensures FlatItems(StripItems([t] + ts, rest)) == Flat(StripTree(t, rest)) + FlatItems(StripItems(ts, rest))
  {
    hide StripTree, Flat;
    assert ([t] + ts)[1..] == ts;
    var r := [StripTree(t, rest)] + StripItems(ts, rest);
    assert r[1..] == StripItems(ts, rest);
  }

  lemma PairsCons(p: Pair, ps: seq<Pair>, key: string, rest: seq<Step>)
    ensures var p' := if IsKey(p, key) then Pair(p.key, StripTree(p.val, rest)) else p;
      && StripPairs([p] + ps, key, rest) == [p'] + StripPairs(ps, key, rest)
      && FlatPairs(StripPairs([p] + ps, key, rest)) ==
        Flat(p'.key) + Flat(p'.val) + FlatPairs(StripPairs(ps, key, rest))
  {
    hide StripTree, Flat, IsKey;
    assert ([p] + ps)[1..] == ps;
    var p' := if IsKey(p, key) then Pair(p.key, StripTree(p.val, rest)) else p;
    var r := [p'] + StripPairs(ps, key, rest);
    assert r[1..] == StripPairs(ps, key, rest);
  }

  lemma {:induction false} WalkEntriesStrips(b: bytes, i: nat, n: nat, key: string, rest: seq<Step>)
    requires i <= |b| && WalkEntries(b, i, n, key, rest).Done?
    requires AllShrinkable(b, WalkEntries(b, i, n, key, rest).value.0)
    ensures var r := WalkEntries(b, i, n, key, rest).value; StripsPairs(b, i, n, r.0, r.1, key, rest)
    decreases |rest|, 1, n
  {
    hide Walk, Unpack, ParseAt, Meaning, Framed, Flat, StripTree, Shrinkable, AllStrippable;
    if n != 0 {
      UnpackReads(b, i);
      ParseSound(b, i);
      var (k, e) := Unpack(b, i).value;
      var kt := ParseAt(b, i).value.0;
      if k != Str(key) {
        ParseSound(b, e);
        var (vt, e') := ParseAt(b, e).value;
        WalkEntriesStrips(b, e', n - 1, key, rest);
        var cs := WalkEntries(b, e', n - 1, key, rest).value.0;
        var e'' := WalkEntries(b, e', n - 1, key, rest).value.1;
        SpliceFrom(b, cs, i, e', e'');
        assert b[i..e'] == b[i..e] + b[e..e'];
        PairsCons(Pair(kt, vt), ParsePairs(b, e', n - 1).value.0, key, rest);
      } else {
        EntryStrips(b, i, n, key, rest, e, kt);
      }
    }
  }

  lemma {:induction false} EntryStrips(b: bytes, i: nat, n: nat, key: string, rest: seq<Step>, e: nat, kt: Tree)
    requires n > 0 && i < e <= |b| && WalkEntries(b, i, n, key, rest).Done?
    requires AllShrinkable(b, WalkEntries(b, i, n, key, rest).value.0)
    requires Unpack(b, i) == Done((Str(key), e)) && ParseAt(b, i) == Ok((kt, e))
    requires Framed(kt) && Flat(kt) == b[i..e] && Meaning(kt) == Ok(Str(key))
    ensures var r := WalkEntries(b, i, n, key, rest).value; StripsPairs(b, i, n, r.0, r.1, key, rest)
    decreases |rest|, 1, n, 0
  {
    hide Walk, Unpack, ParseAt, Meaning, Framed, Flat, StripTree, Shrinkable, AllStrippable;
    var (cs, e') := Walk(b, e, rest).value;
    var (cs', e'') := WalkEntries(b, e', n - 1, key, rest).value;
    WalkStrips(b, e, rest);
    WalkEntriesStrips(b, e', n - 1, key, rest);
    SpliceFrom(b, cs, i, e, e');
    SpliceJoin(b, cs, i, e', cs', e'');
    PairsCons(Pair(kt, ParseAt(b, e).value.0), ParsePairs(b, e', n - 1).value.0, key, rest);
  }
}

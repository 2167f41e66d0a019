/** The strip on decoded values: the output decodes to the input without the proof bodies. */
module StateProofMeaning {
  import opened Bytes
  import opened Optional
  import opened MsgPack
  import opened MsgTree
  import opened StateProofStrip
  import opened StateProofLaws

  const SP := Str("sp")
  const TYPE := Str("type")

  predicate IsStpf(m: map<Value, Value>) {
    TYPE in m && m[TYPE] == Str("stpf")
  }

  /** The decoded block without the `sp` entry of each top-level `stpf` transaction. */
  function StripValue(v: Value, path: seq<Step>): Value
    decreases |path|, 0
  {
    if path == [] then
      (if v.Dict? && IsStpf(v.m) then Dict(v.m - {SP}) else v)
    else
      match (path[0], v)
      case (Entry(key), Dict(m)) => Dict(Change(m, key, path[1..]))
      case (Each, Arr(xs)) => Arr(StripValues(xs, path[1..]))
      case _ => v
  }

  function StripValues(xs: seq<Value>, rest: seq<Step>): (r: seq<Value>)
    decreases |rest|, 1, |xs|
  {
    if xs == [] then [] else [StripValue(xs[0], rest)] + StripValues(xs[1..], rest)
  }

  function Change(m: map<Value, Value>, key: string, rest: seq<Step>): map<Value, Value>
    decreases |rest|, 1
  {
    if Str(key) in m then m[Str(key) := StripValue(m[Str(key)], rest)] else m
  }

  // ---- one transaction ------------------------------------------------------------------

  lemma {:induction false} KeysGrow(ps: seq<Pair>, acc: map<Value, Value>)
    requires MeaningPairs(ps, acc).Ok?
    ensures acc.Keys <= MeaningPairs(ps, acc).value.Keys
    ensures forall p, s | p in ps && IsKey(p, s) :: Str(s) in MeaningPairs(ps, acc).value
  {
    hide Meaning;
    if ps != [] {
      var k, v := Meaning(ps[0].key).value, Meaning(ps[0].val).value;
      KeysGrow(ps[1..], acc[KeyOf(k).value := v]);
    }
  }

  lemma {:induction false} TypeRead(ps: seq<Pair>, acc: map<Value, Value>)
    requires MeaningPairs(ps, acc).Ok?
    ensures SaysStpf(ps, IsStpf(acc)) == IsStpf(MeaningPairs(ps, acc).value)
  {
    hide Meaning;
    if ps != [] {
      var k, v := Meaning(ps[0].key).value, Meaning(ps[0].val).value;
      TypeRead(ps[1..], acc[KeyOf(k).value := v]);
    }
  }

  /** At most one entry is named `sp`. */
  ghost predicate SpOnce(ps: seq<Pair>) {
    forall i, j | 0 <= i < j < |ps| :: !(IsKey(ps[i], "sp") && IsKey(ps[j], "sp"))
  }

  lemma {:induction false} DropAdded(ps: seq<Pair>, acc: map<Value, Value>, v: Value)
    requires SP !in acc && (forall p | p in ps :: !IsKey(p, "sp")) && MeaningPairs(ps, acc[SP := v]).Ok?
    ensures MeaningPairs(ps, acc) == Ok(MeaningPairs(ps, acc[SP := v]).value - {SP})
  {
    hide Meaning;
    if ps == [] {
      assert acc[SP := v] - {SP} == acc;
    } else {
      assert !IsKey(ps[0], "sp");
      var k, x := KeyOf(Meaning(ps[0].key).value).value, Meaning(ps[0].val).value;
      assert acc[SP := v][k := x] == acc[k := x][SP := v];
      DropAdded(ps[1..], acc[k := x], v);
    }
  }

  lemma {:induction false} DropEntry(ps: seq<Pair>, j: nat, acc: map<Value, Value>)
    requires SP !in acc && j < |ps| && IsKey(ps[j], "sp") && SpOnce(ps) && MeaningPairs(ps, acc).Ok?
    ensures MeaningPairs(Without(ps, j), acc) == Ok(MeaningPairs(ps, acc).value - {SP})
  {
    hide Meaning;
    var w := Without(ps, j);
    var k, v := Meaning(ps[0].key).value, Meaning(ps[0].val).value;
    if j == 0 {
      assert w == ps[1..];
      forall p | p in ps[1..]
        ensures !IsKey(p, "sp")
      {
      }
      DropAdded(ps[1..], acc, v);
    } else {
      assert !IsKey(ps[0], "sp");
      assert w[0] == ps[0] && w[1..] == Without(ps[1..], j - 1);
      DropEntry(ps[1..], j - 1, acc[KeyOf(k).value := v]);
    }
  }

  lemma OtherSpStays(ps: seq<Pair>, i: nat, j: nat)
    requires i < |ps| && j < |ps| && i != j && IsKey(ps[i], "sp")
    ensures ps[i] in Without(ps, j)
  {
    var w := Without(ps, j);
    if i < j { assert w[i] == ps[i]; } else { assert w[i - 1] == ps[i]; }
  }

  /** One transaction: dropping the entry the scan found removes `sp` from the decoded map exactly
      when the map names `sp` once. */
  lemma TxnMeaning(t: Tree)
    requires t.MapT? && Meaning(t).Ok? && Strippable(t)
    ensures Meaning(StripTxn(t)) == Ok(StripValue(Meaning(t).value, [])) <==> SpOnce(t.pairs)
  {
    hide MeaningPairs, SaysStpf, LastKey, Shrink, Shrinkable;
    var j := LastKey(t.pairs, "sp").value;
    var m := MeaningPairs(t.pairs, map[]).value;
    TypeRead(t.pairs, map[]);
    assert !IsStpf(map[]);
    if SpOnce(t.pairs) {
      DropEntry(t.pairs, j, map[]);
    } else {
      var x, y :| 0 <= x < y < |t.pairs| && IsKey(t.pairs[x], "sp") && IsKey(t.pairs[y], "sp");
      var i := if x == j then y else x;
      OtherSpStays(t.pairs, i, j);
      var w := Without(t.pairs, j);
      if MeaningPairs(w, map[]).Ok? {
        KeysGrow(w, map[]);
        assert SP in MeaningPairs(w, map[]).value;
      }
    }
  }

  // ---- the whole response -----------------------------------------------------------------

  /** No state-proof transaction that the decoded response still shows names `sp` twice: on the way
      down, only the last entry with a key counts, since decoding lets it override the others. */
  ghost predicate LiveOnce(t: Tree, path: seq<Step>)
    decreases |path|
  {
    if path == [] then (t.MapT? && SaysStpf(t.pairs, false) ==> SpOnce(t.pairs))
    else
      match (path[0], t)
      case (Entry(key), MapT(_, pairs)) =>
        LastKey(pairs, key).Some? ==> LiveOnce(pairs[LastKey(pairs, key).value].val, path[1..])
      case (Each, ArrT(_, items)) => forall x | x in items :: LiveOnce(x, path[1..])
      case _ => true
  }

  /** The edited structure still decodes, and it decodes to the decoded original without the proof
      bodies exactly when no live state-proof transaction names `sp` twice. */
  lemma {:induction false} StripMeaning(t: Tree, path: seq<Step>)
    requires Meaning(t).Ok? && AllStrippable(t, path)
    ensures Meaning(StripTree(t, path)).Ok?
    ensures Meaning(StripTree(t, path)) == Ok(StripValue(Meaning(t).value, path)) <==> LiveOnce(t, path)
    decreases |path|, 0, 0
  {
    hide MeaningPairs, MeaningItems, StripPairs, StripItems, StripValues, Change, SaysStpf, SpOnce, StripTxn, LastKey;
    if path == [] {
      TxnCase(t);
    } else {
      match (path[0], t)
      case (Entry(key), MapT(head, pairs)) => StripEntries(pairs, key, path[1..]);
      case (Each, ArrT(head, items)) => StripItemsMeaning(items, path[1..]);
      case _ => OtherCase(t, path);
    }
  }

  lemma TxnCase(t: Tree)
    requires Meaning(t).Ok? && AllStrippable(t, [])
    ensures Meaning(StripTxn(t)).Ok?
    ensures Meaning(StripTxn(t)) == Ok(StripValue(Meaning(t).value, [])) <==> LiveOnce(t, [])
  {
    hide MeaningPairs, SaysStpf, SpOnce, LastKey;
    if Strippable(t) {
      TxnMeaning(t);
      WithoutReads(t.pairs, LastKey(t.pairs, "sp").value);
    } else if t.MapT? {
      TypeRead(t.pairs, map[]);
      assert !IsStpf(map[]);
    } else {
      LeafIsScalar(t);
    }
  }

  /** Every entry decodes, with a key that a map can hold. */
  ghost predicate Readable(ps: seq<Pair>) {
    forall p | p in ps :: Meaning(p.key).Ok? && Meaning(p.val).Ok? && KeyOf(Meaning(p.key).value).Ok?
  }

  lemma {:induction false} ReadableIff(ps: seq<Pair>, acc: map<Value, Value>)
    ensures MeaningPairs(ps, acc).Ok? <==> Readable(ps)
    decreases |ps|
  {
    hide Meaning, KeyOf;
    if ps != [] {
      var p := ps[0];
      assert forall x :: x in ps <==> x == p || x in ps[1..];
      if Meaning(p.key).Ok? && Meaning(p.val).Ok? && KeyOf(Meaning(p.key).value).Ok? {
        ReadableIff(ps[1..], acc[KeyOf(Meaning(p.key).value).value := Meaning(p.val).value]);
      }
    }
  }

  lemma WithoutReads(ps: seq<Pair>, j: nat)
    requires MeaningPairs(ps, map[]).Ok? && j < |ps|
    ensures MeaningPairs(Without(ps, j), map[]).Ok?
  {
    hide MeaningPairs, Meaning, KeyOf;
    ReadableIff(ps, map[]);
    ReadableIff(Without(ps, j), map[]);
    assert forall p | p in Without(ps, j) :: p in ps;
  }

  /** A scalar token never decodes to a container. */
  lemma LeafIsScalar(t: Tree)
    requires Meaning(t).Ok?
    ensures t.Leaf? ==> !Meaning(t).value.Dict? && !Meaning(t).value.Arr?
  {
    hide FormOf;
    if t.Leaf? && t.raw != [] { FormScalar(t.raw[0]); }
  }

  lemma FormScalar(h: byte)
    ensures var f := FormOf(h); f.Immediate? && f.tok.Whole? ==> !f.tok.v.Dict? && !f.tok.v.Arr?
  {
  }

  lemma OtherCase(t: Tree, path: seq<Step>)
    requires Meaning(t).Ok? && path != []
    requires path[0].Entry? ==> !t.MapT?
    requires path[0].Each? ==> !t.ArrT?
    ensures StripTree(t, path) == t && StripValue(Meaning(t).value, path) == Meaning(t).value
  {
    hide MeaningPairs, MeaningItems;
    LeafIsScalar(t);
  }

  lemma {:induction false} StripItemsMeaning(ts: seq<Tree>, rest: seq<Step>)
    requires MeaningItems(ts).Ok? && forall x | x in ts :: AllStrippable(x, rest)
    ensures MeaningItems(StripItems(ts, rest)).Ok?
    ensures MeaningItems(StripItems(ts, rest)) == Ok(StripValues(MeaningItems(ts).value, rest)) <==>
              forall x | x in ts :: LiveOnce(x, rest)
    decreases |rest|, 1, |ts|
  {
    hide Meaning, StripTree, StripValue, LiveOnce, AllStrippable;
    if ts != [] {
      StripMeaning(ts[0], rest);
      StripItemsMeaning(ts[1..], rest);
      var r := StripItems(ts, rest);
      assert r[1..] == StripItems(ts[1..], rest);
      var x, xs := Meaning(ts[0]).value, MeaningItems(ts[1..]).value;
      assert ([x] + xs)[1..] == xs;
      assert forall y :: y in ts <==> y == ts[0] || y in ts[1..];
      SameLists(Meaning(r[0]).value, MeaningItems(r[1..]).value, StripValue(x, rest), StripValues(xs, rest));
    }
  }

  lemma SameLists(x: Value, xs: seq<Value>, y: Value, ys: seq<Value>)
    ensures [x] + xs == [y] + ys <==> x == y && xs == ys
  {
    assert ([x] + xs)[0] == x && ([x] + xs)[1..] == xs && ([y] + ys)[0] == y && ([y] + ys)[1..] == ys;
  }

  function Get(m: map<Value, Value>, k: Value): Option<Value> {
    if k in m then Some(m[k]) else None
  }

  /** The two maps agree everywhere but at the key. */
  ghost predicate AgreeOff(m: map<Value, Value>, m': map<Value, Value>, k: Value) {
    forall x | x != k :: Get(m, x) == Get(m', x)
  }

  lemma AgreeUpdate(m: map<Value, Value>, m': map<Value, Value>, k: Value, slot: Value, v: Value, v': Value)
    requires AgreeOff(m, m', k) && (slot == k || v == v')
    ensures AgreeOff(m[slot := v], m'[slot := v'], k)
  {
    var n, n' := m[slot := v], m'[slot := v'];
    forall x | x != k
      ensures Get(n, x) == Get(n', x)
    {
      assert Get(m, x) == Get(m', x);
    }
  }

  lemma SameMaps(m: map<Value, Value>, m': map<Value, Value>)
    requires forall x :: Get(m, x) == Get(m', x)
    ensures m == m'
  {
    assert forall x :: x in m <==> Get(m, x).Some?;
    assert forall x :: x in m' <==> Get(m', x).Some?;
    assert forall x | x in m :: m[x] == Get(m, x).value && m'[x] == Get(m', x).value;
  }

  /** Editing the entries under a key: the decoded maps agree off the key, and at the key each holds
      its last entry. */
  lemma {:induction false} EditedPairs(ps: seq<Pair>, key: string, rest: seq<Step>,
                                       acc: map<Value, Value>, acc': map<Value, Value>)
    requires MeaningPairs(ps, acc).Ok? && AgreeOff(acc, acc', Str(key))
    requires forall p | p in ps && IsKey(p, key) :: Meaning(StripTree(p.val, rest)).Ok?
    ensures MeaningPairs(StripPairs(ps, key, rest), acc').Ok?
    ensures var m, m' := MeaningPairs(ps, acc).value, MeaningPairs(StripPairs(ps, key, rest), acc').value;
      && AgreeOff(m, m', Str(key))
      && (LastKey(ps, key).None? ==> Get(m, Str(key)) == Get(acc, Str(key)) && Get(m', Str(key)) == Get(acc', Str(key)))
      && (LastKey(ps, key).Some? ==>
            var last := ps[LastKey(ps, key).value].val;
            && Meaning(last).Ok? && Get(m, Str(key)) == Some(Meaning(last).value)
            && Meaning(StripTree(last, rest)).Ok? && Get(m', Str(key)) == Some(Meaning(StripTree(last, rest)).value))
    decreases |ps|
  {
    hide Meaning, StripTree;
    if ps != [] {
      var p := ps[0];
      assert p in ps;
      var slot, v := KeyOf(Meaning(p.key).value).value, Meaning(p.val).value;
      var v' := if IsKey(p, key) then Meaning(StripTree(p.val, rest)).value else v;
      assert StripPairs(ps, key, rest)[1..] == StripPairs(ps[1..], key, rest);
      AgreeUpdate(acc, acc', Str(key), slot, v, v');
      EditedPairs(ps[1..], key, rest, acc[slot := v], acc'[slot := v']);
    }
  }

  lemma StripEntries(ps: seq<Pair>, key: string, rest: seq<Step>)
    requires MeaningPairs(ps, map[]).Ok? && forall p | p in ps && IsKey(p, key) :: AllStrippable(p.val, rest)
    ensures MeaningPairs(StripPairs(ps, key, rest), map[]).Ok?
    ensures MeaningPairs(StripPairs(ps, key, rest), map[]) == Ok(Change(MeaningPairs(ps, map[]).value, key, rest)) <==>
              (LastKey(ps, key).Some? ==> LiveOnce(ps[LastKey(ps, key).value].val, rest))
    decreases |rest|, 1
  {
    hide MeaningPairs, Meaning, StripTree, StripValue, StripPairs, LiveOnce, AllStrippable, KeyOf, LastKey, AgreeOff;
    ReadableIff(ps, map[]);
    forall p | p in ps && IsKey(p, key)
      ensures Meaning(StripTree(p.val, rest)).Ok?
    {
      StripMeaning(p.val, rest);
    }
    assert AgreeOff(map[], map[], Str(key)) by { NoneAgree(Str(key)); }
    EditedPairs(ps, key, rest, map[], map[]);
    var m, m' := MeaningPairs(ps, map[]).value, MeaningPairs(StripPairs(ps, key, rest), map[]).value;
    if LastKey(ps, key).Some? {
      var last := ps[LastKey(ps, key).value].val;
      assert ps[LastKey(ps, key).value] in ps;
      StripMeaning(last, rest);
      ChangedAt(m, m', key, rest);
    } else {
      ChangedAt(m, m', key, rest);
    }
  }

  lemma NoneAgree(k: Value)
    ensures AgreeOff(map[], map[], k)
  {
  }

  /** Maps that agree off the key are related by the change exactly when their values at the key are. */
  lemma ChangedAt(m: map<Value, Value>, m': map<Value, Value>, key: string, rest: seq<Step>)
    requires AgreeOff(m, m', Str(key)) && (Str(key) in m <==> Str(key) in m')
    ensures m' == Change(m, key, rest) <==> (Str(key) in m ==> m'[Str(key)] == StripValue(m[Str(key)], rest))
  {
    hide StripValue;
    var k := Str(key);
    var c := Change(m, key, rest);
    if k in m ==> m'[k] == StripValue(m[k], rest) {
      forall x
        ensures Get(m', x) == Get(c, x)
      {
        assert x != k ==> Get(m, x) == Get(m', x);
      }
      SameMaps(m', c);
    }
  }

  /** Byte for byte: the output is the edited tree followed by whatever came after the response,
      also when strings in it are not valid UTF-8. */
  lemma StripStructure(buf: bytes, cs: seq<Cut>, e: nat)
    requires Walk(buf, 0, TXN_PATH) == Done((cs, e)) && AllShrinkable(buf, cs)
    ensures Within(buf, cs, 0, |buf|) && ParseAt(buf, 0).Ok?
    ensures var t := StripTree(ParseAt(buf, 0).value.0, TXN_PATH);
      && Splice(buf, cs, 0, |buf|) == Flat(t) + buf[e..]
      && ParseAt(Splice(buf, cs, 0, |buf|), 0) == Ok((t, |Flat(t)|))
  {
    hide Walk, ParseAt, StripTree, Framed, Within, Splice, AllStrippable;
    WalkStrips(buf, 0, TXN_PATH);
    var t := StripTree(ParseAt(buf, 0).value.0, TXN_PATH);
    SpliceTail(buf, cs, e);
    var out := Splice(buf, cs, 0, |buf|);
    assert At(out, 0, Flat(t));
    ParseFlat(t, out, 0);
  }

  lemma SpliceTail(buf: bytes, cs: seq<Cut>, e: nat)
    requires Within(buf, cs, 0, e)
    ensures e <= |buf| && Within(buf, cs, 0, |buf|) && Splice(buf, cs, 0, |buf|) == Splice(buf, cs, 0, e) + buf[e..]
  {
    WithinBounds(buf, cs, 0, e);
    SpliceJoin(buf, cs, 0, e, [], |buf|);
    assert cs + [] == cs;
  }

  /** The strip preserves meaning: the output decodes, and it decodes to the decoded input without the
      `sp` entry of every top-level state-proof transaction, exactly when none of those that the
      decoded input shows names `sp` twice. */
  lemma StripPreserves(buf: bytes, cs: seq<Cut>, e: nat, v: Value)
    requires Walk(buf, 0, TXN_PATH) == Done((cs, e)) && AllShrinkable(buf, cs) && Decode(buf) == Ok(v)
    ensures Within(buf, cs, 0, |buf|) && ParseAt(buf, 0).Ok?
    ensures Decode(Splice(buf, cs, 0, |buf|)).Ok?
    ensures Decode(Splice(buf, cs, 0, |buf|)) == Ok(StripValue(v, TXN_PATH)) <==>
        LiveOnce(ParseAt(buf, 0).value.0, TXN_PATH)
  {
    hide Walk, ValueAt, ParseAt, StripTree, StripValue, Meaning, Framed, Within, Splice, LiveOnce, AllStrippable;
    WalkStrips(buf, 0, TXN_PATH);
    DecodeIsMeaning(buf, 0);
    var t := ParseAt(buf, 0).value.0;
    StripMeaning(t, TXN_PATH);
    var out := Splice(buf, cs, 0, |buf|);
    assert At(out, 0, Flat(StripTree(t, TXN_PATH)));
    ParseFlat(StripTree(t, TXN_PATH), out, 0);
    DecodeIsMeaning(out, 0);
  }
}

/** `strip_state_proof_bodies` of scripts/capture_mainnet_corpus.py: cutting the `sp` entry out of
    every state-proof transaction of a block response at the byte level. */
module StateProofStrip {
  import opened Bytes
  import opened Optional
  import opened MsgPack
  import opened MsgTree

  // ---- the scan: which byte ranges to cut -------------------------------------------

  /** A transaction map at `hdr` with `n` entries whose `sp` entry occupies [ks, ve). */
  datatype Cut = Cut(hdr: nat, ks: nat, ve: nat, n: nat)

  datatype Failure =
    | Malformed(error: Error)
    | NotAMap
    | NotAnArray
    | NoProofBody       // an `stpf` transaction without an `sp` entry
    | BadHeader         // a map32 header on an `stpf` transaction

  datatype Scan<+T> = Done(value: T) | Fail(why: Failure) {
    predicate IsFailure() { Fail? }
    function PropagateFailure<U>(): Scan<U>
      requires Fail?
    {
      Fail(why)
    }
    function Extract(): T
      requires Done?
    {
      value
    }
  }

  /** One step from the response down to a transaction: into the map entry named `key`, or into
      every element of an array. */
  datatype Step = Entry(key: string) | Each

  const TXN_PATH: seq<Step> := [Entry("block"), Entry("txns"), Each, Entry("txn")]

  function MapHeader(b: bytes, i: nat): (r: Scan<(nat, nat)>)
    ensures r.Done? ==> i < r.value.1 <= |b|
  {
    match FrameAt(b, i)
    case Ok((MapOf(n), e)) => Done((n, e))
    case Ok(_) => Fail(NotAMap)
    case Err(x) => Fail(Malformed(x))
  }

  function ArrayHeader(b: bytes, i: nat): (r: Scan<(nat, nat)>)
    ensures r.Done? ==> i < r.value.1 <= |b|
  {
    match FrameAt(b, i)
    case Ok((ArrOf(n), e)) => Done((n, e))
    case Ok(_) => Fail(NotAnArray)
    case Err(x) => Fail(Malformed(x))
  }

  function Unpack(b: bytes, i: nat): (r: Scan<(Value, nat)>)
    ensures r.Done? ==> i < r.value.1 <= |b|
  {
    match ValueAt(b, i)
    case Ok((v, e)) => Done((v, e))
    case Err(x) => Fail(Malformed(x))
  }

  function Skip(b: bytes, i: nat): (r: Scan<nat>)
    ensures r.Done? ==> i < r.value <= |b|
  {
    match ParseAt(b, i)
    case Ok((_, e)) => Done(e)
    case Err(x) => Fail(Malformed(x))
  }

  /** The entries of one transaction map: where the last `sp` entry lies and whether the last
      `type` is `stpf`. */
  function Fields(b: bytes, i: nat, n: nat, found: Option<(nat, nat)>, stpf: bool)
    : (r: Scan<(Option<(nat, nat)>, bool, nat)>)
    requires i <= |b|
    ensures r.Done? ==> i <= r.value.2 <= |b|
    decreases n
  {
    if n == 0 then Done((found, stpf, i))
    else
      var (k, e) :- Unpack(b, i);
      if k == Str("sp") then
        var e' :- Skip(b, e);
        Fields(b, e', n - 1, Some((i, e')), stpf)
      else if k == Str("type") then
        var (v, e') :- Unpack(b, e);
        Fields(b, e', n - 1, found, v == Str("stpf"))
      else
        var e' :- Skip(b, e);
        Fields(b, e', n - 1, found, stpf)
  }

  function Txn(b: bytes, i: nat): (r: Scan<(seq<Cut>, nat)>)
    ensures r.Done? ==> i < r.value.1 <= |b|
  {
    var (n, e) :- MapHeader(b, i);
    var (found, stpf, e') :- Fields(b, e, n, None, false);
    if !stpf then Done(([], e'))
    else
      match found
      case None => Fail(NoProofBody)
      case Some((ks, ve)) => Done(([Cut(i, ks, ve, n)], e'))
  }

  function Walk(b: bytes, i: nat, path: seq<Step>): (r: Scan<(seq<Cut>, nat)>)
    ensures r.Done? ==> i < r.value.1 <= |b|
    decreases |path|, 0, 0
  {
    if path == [] then Txn(b, i)
    else
      match path[0]
      case Entry(key) =>
        var (n, e) :- MapHeader(b, i);
        WalkEntries(b, e, n, key, path[1..])
      case Each =>
        var (n, e) :- ArrayHeader(b, i);
        WalkItems(b, e, n, path[1..])
  }

  function WalkEntries(b: bytes, i: nat, n: nat, key: string, rest: seq<Step>): (r: Scan<(seq<Cut>, nat)>)
    requires i <= |b|
    ensures r.Done? ==> i <= r.value.1 <= |b|
    decreases |rest|, 1, n
  {
    if n == 0 then Done(([], i))
    else
      var (k, e) :- Unpack(b, i);
      if k != Str(key) then
        var e' :- Skip(b, e);
        WalkEntries(b, e', n - 1, key, rest)
      else
        var (cs, e') :- Walk(b, e, rest);
        var (cs', e'') :- WalkEntries(b, e', n - 1, key, rest);
        Done((cs + cs', e''))
  }

  function WalkItems(b: bytes, i: nat, n: nat, rest: seq<Step>): (r: Scan<(seq<Cut>, nat)>)
    requires i <= |b|
    ensures r.Done? ==> i <= r.value.1 <= |b|
    decreases |rest|, 1, n
  {
    if n == 0 then Done(([], i))
    else
      var (cs, e) :- Walk(b, i, rest);
      var (cs', e') :- WalkItems(b, e, n - 1, rest);
      Done((cs + cs', e'))
  }

  // ---- cutting: the bytes that remain -------------------------------------------------

  /** The two map headers the source knows how to shorten in place: a fixmap byte, or map16. */
  predicate Shrinkable(h: byte, n: nat) {
    1 <= n && ((0x80 <= h <= 0x8f && n < 16) || (h == 0xde && n < 0x1_0000))
  }

  function HeadLen(h: byte): nat {
    if h == 0xde then 3 else 1
  }

  /** The same kind of header for one entry fewer. */
  function Shrink(h: byte, n: nat): (s: bytes)
    requires Shrinkable(h, n)
    ensures |s| == HeadLen(h)
  {
    if h == 0xde then [0xde] + ToBE(n - 1, 2) else [0x80 + (n - 1)]
  }

  predicate WellCut(b: bytes, c: Cut) {
    c.hdr < |b| && Shrinkable(b[c.hdr], c.n) && c.hdr + HeadLen(b[c.hdr]) <= c.ks <= c.ve <= |b|
  }

  /** The bytes from `from` up to the end of the cut, with the cut made. */
  function Piece(b: bytes, c: Cut, from: nat): bytes
    requires WellCut(b, c) && from <= c.hdr
  {
    b[from..c.hdr] + Shrink(b[c.hdr], c.n) + b[c.hdr + HeadLen(b[c.hdr])..c.ks]
  }

  /** The cuts lie in [from, to), in ascending order and apart. */
  predicate Within(b: bytes, cs: seq<Cut>, from: nat, to: nat) {
    if cs == [] then from <= to <= |b|
    else WellCut(b, cs[0]) && from <= cs[0].hdr && Within(b, cs[1..], cs[0].ve, to)
  }

  lemma {:induction false} WithinBounds(b: bytes, cs: seq<Cut>, from: nat, to: nat)
    requires Within(b, cs, from, to)
    ensures from <= to <= |b|
  {
    if cs != [] { WithinBounds(b, cs[1..], cs[0].ve, to); }
  }

  /** The bytes of [from, to) with every cut made and every header shortened. */
  function Splice(b: bytes, cs: seq<Cut>, from: nat, to: nat): bytes
    requires Within(b, cs, from, to)
  {
    if cs == [] then b[from..to] else Piece(b, cs[0], from) + Splice(b, cs[1..], cs[0].ve, to)
  }

  lemma PieceFrom(b: bytes, c: Cut, from: nat, mid: nat)
    requires WellCut(b, c) && from <= mid <= c.hdr
    ensures Piece(b, c, from) == b[from..mid] + Piece(b, c, mid)
  {
    hide Shrink;
    assert b[from..c.hdr] == b[from..mid] + b[mid..c.hdr];
  }

  lemma {:induction false} SpliceFrom(b: bytes, cs: seq<Cut>, from: nat, mid: nat, to: nat)
    requires Within(b, cs, mid, to) && from <= mid
    ensures Within(b, cs, from, to) && Splice(b, cs, from, to) == b[from..mid] + Splice(b, cs, mid, to)
  {
    hide Piece, WellCut;
    WithinBounds(b, cs, mid, to);
    if cs == [] {
      assert b[from..to] == b[from..mid] + b[mid..to];
    } else {
      PieceFrom(b, cs[0], from, mid);
    }
  }

  lemma {:induction false} SpliceJoin(b: bytes, cs: seq<Cut>, from: nat, mid: nat, cs': seq<Cut>, to: nat)
    requires Within(b, cs, from, mid) && Within(b, cs', mid, to)
    ensures Within(b, cs + cs', from, to)
    ensures Splice(b, cs + cs', from, to) == Splice(b, cs, from, mid) + Splice(b, cs', mid, to)
  {
    hide WellCut, Piece;
    if cs == [] {
      assert cs + cs' == cs';
      WithinBounds(b, cs, from, mid);
      SpliceFrom(b, cs', from, mid, to);
    } else {
      SpliceJoin(b, cs[1..], cs[0].ve, mid, cs', to);
      assert (cs + cs')[0] == cs[0] && (cs + cs')[1..] == cs[1..] + cs';
      Assoc(Piece(b, cs[0], from), Splice(b, cs[1..], cs[0].ve, mid), Splice(b, cs', mid, to));
    }
  }

  lemma Assoc(x: bytes, y: bytes, z: bytes)
    ensures x + y + z == x + (y + z)
  {
  }

  // ---- the same edit on the tree ---------------------------------------------------------

  predicate IsKey(p: Pair, key: string) {
    Meaning(p.key) == Ok(Str(key))
  }

  /** The last entry with a key: the one that a decoded map keeps. */
  function LastKey(ps: seq<Pair>, key: string): (r: Option<nat>)
    ensures r.Some? ==> r.value < |ps| && IsKey(ps[r.value], key)
  {
    if ps == [] then None
    else
      match LastKey(ps[1..], key)
      case Some(j) => Some(j + 1)
      case None => if IsKey(ps[0], key) then Some(0) else None
  }

  /** Whether the last `type` entry says `stpf`, given what earlier entries said. */
  function SaysStpf(ps: seq<Pair>, before: bool): bool {
    if ps == [] then before
    else SaysStpf(ps[1..], if IsKey(ps[0], "type") then Meaning(ps[0].val) == Ok(Str("stpf")) else before)
  }

  function Without(ps: seq<Pair>, j: nat): seq<Pair>
    requires j < |ps|
  {
    ps[..j] + ps[j + 1..]
  }

  predicate Strippable(t: Tree) {
    && t.MapT? && SaysStpf(t.pairs, false) && LastKey(t.pairs, "sp").Some?
    && t.head != [] && Shrinkable(t.head[0], |t.pairs|)
  }

  function StripTxn(t: Tree): Tree {
    if Strippable(t)
    then MapT(Shrink(t.head[0], |t.pairs|), Without(t.pairs, LastKey(t.pairs, "sp").value))
    else t
  }

  /** Every state-proof transaction reached by `path` carries a proof body under a header that can
      be shortened: what a completed strip has established. */
  ghost predicate AllStrippable(t: Tree, path: seq<Step>)
    decreases |path|
  {
    if path == [] then (t.MapT? && SaysStpf(t.pairs, false) ==> Strippable(t))
    else
      match (path[0], t)
      case (Entry(key), MapT(_, pairs)) => forall p | p in pairs && IsKey(p, key) :: AllStrippable(p.val, path[1..])
      case (Each, ArrT(_, items)) => forall x | x in items :: AllStrippable(x, path[1..])
      case _ => true
  }

  function StripTree(t: Tree, path: seq<Step>): Tree
    decreases |path|, 0, 0
  {
    if path == [] then StripTxn(t)
    else
      match (path[0], t)
      case (Entry(key), MapT(head, pairs)) => MapT(head, StripPairs(pairs, key, path[1..]))
      case (Each, ArrT(head, items)) => ArrT(head, StripItems(items, path[1..]))
      case _ => t
  }

  function StripPairs(ps: seq<Pair>, key: string, rest: seq<Step>): (r: seq<Pair>)
    ensures |r| == |ps|
    decreases |rest|, 1, |ps|
  {
    if ps == [] then []
    else
      [if IsKey(ps[0], key) then Pair(ps[0].key, StripTree(ps[0].val, rest)) else ps[0]]
      + StripPairs(ps[1..], key, rest)
  }

  function StripItems(ts: seq<Tree>, rest: seq<Step>): (r: seq<Tree>)
    ensures |r| == |ts|
    decreases |rest|, 1, |ts|
  {
    if ts == [] then [] else [StripTree(ts[0], rest)] + StripItems(ts[1..], rest)
  }

  // ---- the scan reads the tree --------------------------------------------------------------

  /** Where the scan of entries starting at `i` last saw `sp`. */
  function FoundIn(ps: seq<Pair>, i: nat, before: Option<(nat, nat)>): Option<(nat, nat)> {
    if ps == [] then before
    else
      var e := i + |Flat(ps[0].key)| + |Flat(ps[0].val)|;
      FoundIn(ps[1..], e, if IsKey(ps[0], "sp") then Some((i, e)) else before)
  }

  lemma {:induction false} FoundIsLast(ps: seq<Pair>, i: nat, before: Option<(nat, nat)>)
    ensures FoundIn(ps, i, before) ==
      match LastKey(ps, "sp")
      case None => before
      case Some(j) => Some((i + |FlatPairs(ps[..j])|, i + |FlatPairs(ps[..j])| + |Flat(ps[j].key)| + |Flat(ps[j].val)|))
  {
    hide IsKey, Flat;
    if ps != [] {
      var e := i + |Flat(ps[0].key)| + |Flat(ps[0].val)|;
      FoundIsLast(ps[1..], e, if IsKey(ps[0], "sp") then Some((i, e)) else before);
      match LastKey(ps[1..], "sp")
      case Some(j) => assert ps[..j + 1][0] == ps[0] && ps[..j + 1][1..] == ps[1..][..j];
      case None => assert ps[..0] == [];
    }
  }

  lemma UnpackReads(b: bytes, i: nat)
    requires Unpack(b, i).Done?
    ensures ParseAt(b, i).Ok? && ParseAt(b, i).value.1 == Unpack(b, i).value.1
    ensures Meaning(ParseAt(b, i).value.0) == Ok(Unpack(b, i).value.0)
  {
    hide ValueAt, ParseAt, Meaning;
    DecodeIsMeaning(b, i);
  }

  lemma PairsRead(b: bytes, i: nat, n: nat, k: Tree, e: nat, v: Tree, e': nat)
    requires 0 < n && ParseAt(b, i) == Ok((k, e)) && ParseAt(b, e) == Ok((v, e')) && ParsePairs(b, e', n - 1).Ok?
    ensures i <= |b| && ParsePairs(b, i, n) ==
      Ok(([Pair(k, v)] + ParsePairs(b, e', n - 1).value.0, ParsePairs(b, e', n - 1).value.1))
  {
    hide ParseAt;
  }

  lemma EntryRead(p: Pair, ps: seq<Pair>, i: nat, found: Option<(nat, nat)>, stpf: bool)
    ensures SaysStpf([p] + ps, stpf) ==
            SaysStpf(ps, if IsKey(p, "type") then Meaning(p.val) == Ok(Str("stpf")) else stpf)
    ensures var e := i + |Flat(p.key)| + |Flat(p.val)|;
            FoundIn([p] + ps, i, found) == FoundIn(ps, e, if IsKey(p, "sp") then Some((i, e)) else found)
  {
    hide Meaning, Flat;
    assert ([p] + ps)[1..] == ps;
  }

  lemma {:induction false} FieldsReads(b: bytes, i: nat, n: nat, found: Option<(nat, nat)>, stpf: bool)
    requires i <= |b| && Fields(b, i, n, found, stpf).Done?
    ensures var (f, s, e) := Fields(b, i, n, found, stpf).value;
      && ParsePairs(b, i, n).Ok? && ParsePairs(b, i, n).value.1 == e
      && s == SaysStpf(ParsePairs(b, i, n).value.0, stpf)
      && f == FoundIn(ParsePairs(b, i, n).value.0, i, found)
    decreases n
  {
    hide Unpack, ParseAt, Meaning, Flat;
    if n != 0 {
      hide ParsePairs, SaysStpf, FoundIn;
      UnpackReads(b, i);
      var (k, e) := Unpack(b, i).value;
      if k == Str("type") { UnpackReads(b, e); }
      ParseSound(b, i);
      ParseSound(b, e);
      var kt, vt, e' := ParseAt(b, i).value.0, ParseAt(b, e).value.0, ParseAt(b, e).value.1;
      FieldsReads(b, e', n - 1, if k == Str("sp") then Some((i, e')) else found,
                  if k == Str("type") then Unpack(b, e).value.0 == Str("stpf") else stpf);
      PairsRead(b, i, n, kt, e, vt, e');
      EntryRead(Pair(kt, vt), ParsePairs(b, e', n - 1).value.0, i, found, stpf);
    }
  }
}

/** The strip as the source runs it: a streaming unpacker collects the cuts, then they are made in
    the buffer from the last to the first. */
module StateProofUnpacker {
  import opened Bytes
  import opened Optional
  import opened MsgPack
  import opened MsgTree
  import opened StateProofStrip
  import opened StateProofLaws

  class Unpacker {
    const b: bytes
    var pos: nat

    constructor (buf: bytes)
      ensures b == buf && pos == 0
    {
      b := buf;
      pos := 0;
    }

    method ReadMapHeader() returns (r: Scan<nat>)
      requires pos <= |b|
      modifies this
      ensures pos <= |b|
      ensures match MapHeader(b, old(pos))
              case Done((n, e)) => r == Done(n) && pos == e
              case Fail(w) => r == Fail(w)
    {
      match MapHeader(b, pos)
      case Done((n, e)) => pos := e; r := Done(n);
      case Fail(w) => r := Fail(w);
    }

    method ReadArrayHeader() returns (r: Scan<nat>)
      requires pos <= |b|
      modifies this
      ensures pos <= |b|
      ensures match ArrayHeader(b, old(pos))
              case Done((n, e)) => r == Done(n) && pos == e
              case Fail(w) => r == Fail(w)
    {
      match ArrayHeader(b, pos)
      case Done((n, e)) => pos := e; r := Done(n);
      case Fail(w) => r := Fail(w);
    }

    method UnpackOne() returns (r: Scan<Value>)
      requires pos <= |b|
      modifies this
      ensures pos <= |b|
      ensures match Unpack(b, old(pos))
              case Done((v, e)) => r == Done(v) && pos == e
              case Fail(w) => r == Fail(w)
    {
      match Unpack(b, pos)
      case Done((v, e)) => pos := e; r := Done(v);
      case Fail(w) => r := Fail(w);
    }

    method SkipOne() returns (r: Scan<nat>)
      requires pos <= |b|
      modifies this
      ensures pos <= |b|
      ensures r == Skip(b, old(pos)) && (r.Done? ==> pos == r.value)
    {
      r := Skip(b, pos);
      if r.Done? { pos := r.value; }
    }

    /** The innermost loop: one transaction map. */
    method VisitTxn() returns (r: Scan<seq<Cut>>)
      requires pos <= |b|
      modifies this
      ensures pos <= |b|
      ensures match Txn(b, old(pos))
              case Done((cs, e)) => r == Done(cs) && pos == e
              case Fail(w) => r == Fail(w)
    {
      hide MapHeader, Unpack, Skip;
      var hdr := pos;
      var n :- ReadMapHeader();
      var found: Option<(nat, nat)> := None;
      var isStpf := false;
      ghost var first := pos;
      for left := n downto 0
        invariant pos <= |b|
        invariant Fields(b, first, n, None, false) == Fields(b, pos, left, found, isStpf)
      {
        var kstart := pos;
        var k :- UnpackOne();
        if k == Str("sp") {
          var _ :- SkipOne();
          found := Some((kstart, pos));
        } else if k == Str("type") {
          var v :- UnpackOne();
          isStpf := v == Str("stpf");
        } else {
          var _ :- SkipOne();
        }
      }
      if isStpf && found.None? {
        return Fail(NoProofBody);
      }
      r := Done(if isStpf then [Cut(hdr, found.value.0, found.value.1, n)] else []);
    }

    /** The loops above it, one per step of the path. */
    method Visit(path: seq<Step>) returns (r: Scan<seq<Cut>>)
      requires pos <= |b|
      modifies this
      ensures pos <= |b|
      ensures match Walk(b, old(pos), path)
              case Done((cs, e)) => r == Done(cs) && pos == e
              case Fail(w) => r == Fail(w)
      decreases |path|
    {
      hide Txn, MapHeader, ArrayHeader, Unpack, Skip;
      if path == [] {
        r := VisitTxn();
        return;
      }
      var cuts: seq<Cut> := [];
      match path[0] {
      case Entry(key) =>
        var n :- ReadMapHeader();
        ghost var first := pos;
        var k := 0;
        JoinNothing(WalkEntries(b, first, n, key, path[1..]));
        while k < n
          invariant k <= n && pos <= |b|
          invariant WalkEntries(b, first, n, key, path[1..]) ==
              Prepend(cuts, WalkEntries(b, pos, n - k, key, path[1..]))
        {
          var name :- UnpackOne();
          if name != Str(key) {
            var _ :- SkipOne();
          } else {
            var cs :- Visit(path[1..]);
            JoinMore(cuts, cs, WalkEntries(b, pos, n - k - 1, key, path[1..]));
            cuts := cuts + cs;
          }
          k := k + 1;
        }
      case Each =>
        var n :- ReadArrayHeader();
        ghost var first := pos;
        var k := 0;
        JoinNothing(WalkItems(b, first, n, path[1..]));
        while k < n
          invariant k <= n && pos <= |b|
          invariant WalkItems(b, first, n, path[1..]) == Prepend(cuts, WalkItems(b, pos, n - k, path[1..]))
        {
          var cs :- Visit(path[1..]);
          JoinMore(cuts, cs, WalkItems(b, pos, n - k - 1, path[1..]));
          cuts := cuts + cs;
          k := k + 1;
        }
      }
      assert cuts + [] == cuts;
      r := Done(cuts);
    }
  }

  /** A scan whose cuts come after `cs`. */
  ghost function Prepend(cs: seq<Cut>, r: Scan<(seq<Cut>, nat)>): Scan<(seq<Cut>, nat)> {
    match r
    case Done((cs', e)) => Done((cs + cs', e))
    case Fail(w) => Fail(w)
  }

  lemma JoinNothing(r: Scan<(seq<Cut>, nat)>)
    ensures Prepend([], r) == r
  {
    if r.Done? { assert [] + r.value.0 == r.value.0; }
  }

  lemma JoinMore(cs: seq<Cut>, cs': seq<Cut>, r: Scan<(seq<Cut>, nat)>)
    ensures Prepend(cs, Prepend(cs', r)) == Prepend(cs + cs', r)
  {
    if r.Done? { assert cs + (cs' + r.value.0) == cs + cs' + r.value.0; }
  }

  // ---- the cutting loop -------------------------------------------------------------------

  /** One iteration: delete [ks, ve), then rewrite the entry count at hdr. */
  function MakeCut(out: bytes, h: byte, c: Cut): bytes
    requires Shrinkable(h, c.n) && c.hdr + HeadLen(h) <= c.ks <= c.ve <= |out|
  {
    var cut := out[..c.ks] + out[c.ve..];
    cut[..c.hdr] + Shrink(h, c.n) + cut[c.hdr + HeadLen(h)..]
  }

  /** Cutting from the last to the first keeps every recorded offset valid. */
  lemma CutBefore(b: bytes, c: Cut, cs: seq<Cut>)
    requires WellCut(b, c) && Within(b, cs, c.ve, |b|)
    ensures Within(b, cs, 0, |b|) && c.ve <= |Splice(b, cs, 0, |b|)|
    ensures Within(b, [c] + cs, 0, |b|)
    ensures MakeCut(Splice(b, cs, 0, |b|), b[c.hdr], c) == Splice(b, [c] + cs, 0, |b|)
  {
    hide Shrink, Shrinkable, HeadLen;
    SpliceFrom(b, cs, 0, c.ve, |b|);
    var tail := Splice(b, cs, c.ve, |b|);
    var out := Splice(b, cs, 0, |b|);
    assert out == b[..c.ve] + tail;
    assert ([c] + cs)[1..] == cs;
    assert out[..c.ks] == b[..c.ks] && out[c.ve..] == tail;
    var cut := out[..c.ks] + out[c.ve..];
    assert cut[..c.hdr] == b[..c.hdr];
    assert cut[c.hdr + HeadLen(b[c.hdr])..] == b[c.hdr + HeadLen(b[c.hdr])..c.ks] + tail;
  }

  lemma {:induction false} WithinTail(b: bytes, cs: seq<Cut>, from: nat, k: nat)
    requires Within(b, cs, from, |b|) && k < |cs|
    ensures WellCut(b, cs[k]) && Within(b, cs[k + 1..], cs[k].ve, |b|)
  {
    hide WellCut;
    if k > 0 {
      WithinTail(b, cs[1..], cs[0].ve, k - 1);
      assert cs[1..][k..] == cs[k + 1..];
    }
  }

  /** The scan's refusal, or the input with all its cuts made and their number, or the refusal of a
      header that cannot be shortened. */
  ghost predicate StripResult(buf: bytes, r: Scan<(bytes, nat)>) {
    var w := Walk(buf, 0, TXN_PATH);
    if w.Fail? then r == Fail(w.why)
    else
      var cs := w.value.0;
      if AllShrinkable(buf, cs) then Within(buf, cs, 0, |buf|) && r == Done((Splice(buf, cs, 0, |buf|), |cs|))
      else r == Fail(BadHeader)
  }

  /** `strip_state_proof_bodies`. The source notices a header it cannot shorten while cutting and
      gives up without output; the check stands before the loop here. */
  method StripStateProofBodies(buf: bytes) returns (r: Scan<(bytes, nat)>)
    ensures StripResult(buf, r)
  {
    hide Walk, Splice, Within, WellCut, Shrinkable, Shrink;
    var u := new Unpacker(buf);
    var cuts :- u.Visit(TXN_PATH);
    if !AllShrinkable(buf, cuts) {
      return Fail(BadHeader);
    }
    WalkStrips(buf, 0, TXN_PATH);
    CutsFit(buf, cuts, u.pos);
    var out := buf;
    SpliceNothing(buf);
    assert cuts[|cuts|..] == [];
    for k := |cuts| downto 0
      invariant Within(buf, cuts[k..], 0, |buf|) && out == Splice(buf, cuts[k..], 0, |buf|)
    {
      var c := cuts[k];
      WithinTail(buf, cuts, 0, k);
      CutBefore(buf, c, cuts[k + 1..]);
      assert cuts[k..] == [c] + cuts[k + 1..];
      WellCutBounds(buf, c);
      out := MakeCut(out, buf[c.hdr], c);
    }
    assert cuts[0..] == cuts;
    r := Done((out, |cuts|));
  }

  lemma CutsFit(buf: bytes, cs: seq<Cut>, e: nat)
    requires Within(buf, cs, 0, e)
    ensures Within(buf, cs, 0, |buf|)
  {
    WithinBounds(buf, cs, 0, e);
    SpliceJoin(buf, cs, 0, e, [], |buf|);
    assert cs + [] == cs;
  }

  lemma SpliceNothing(buf: bytes)
    ensures Within(buf, [], 0, |buf|) && Splice(buf, [], 0, |buf|) == buf
  {
  }

  lemma WellCutBounds(b: bytes, c: Cut)
    requires WellCut(b, c)
    ensures c.hdr < |b| && Shrinkable(b[c.hdr], c.n) && c.hdr + HeadLen(b[c.hdr]) <= c.ks <= c.ve
  {
  }
}

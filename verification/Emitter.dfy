/** `FuzzProgram::arbitrary` of fuzz/fuzz_targets/fuzz_teal_program.rs: a growing byte vector, recorded
    patch positions, and a final pass that overwrites branch displacements in place. */
module Emitters {
  import opened Optional
  import opened Bytes
  import opened Bytecode

  const MAX_INSTRUCTIONS: nat := 40

  function BlobCode(b: bytes): bytes
    requires |b| < 256
  {
    [|b|] + b
  }

  ghost predicate ShortBlobs(bs: seq<bytes>) {
    forall i | 0 <= i < |bs| :: |bs[i]| <= 8
  }

  ghost function BlobsCode(bs: seq<bytes>): bytes
    requires ShortBlobs(bs)
  {
    if bs == [] then [] else BlobCode(bs[0]) + BlobsCode(bs[1..])
  }

  lemma {:induction false} BlobsAppend(bs: seq<bytes>, b: bytes)
    requires ShortBlobs(bs) && |b| <= 8
    ensures ShortBlobs(bs + [b]) && BlobsCode(bs + [b]) == BlobsCode(bs) + BlobCode(b)
    decreases |bs|
  {
    if bs == [] {
      assert bs + [b] == [b] && [b][1..] == [];
    } else {
      assert (bs + [b])[1..] == bs[1..] + [b];
      BlobsAppend(bs[1..], b);
    }
  }

  lemma {:induction false} BlobsRead(bs: seq<bytes>, rest: bytes)
    requires ShortBlobs(bs)
    ensures Blobs(BlobsCode(bs) + rest, |bs|) == Some((bs, |BlobsCode(bs)|))
    decreases |bs|
  {
    if bs != [] {
      var tail := BlobsCode(bs[1..]);
      BlobFirst(bs[0], tail, rest);
      BlobsRead(bs[1..], rest);
      assert [bs[0]] + bs[1..] == bs;
    }
  }

  lemma BlobFirst(x: bytes, tail: bytes, rest: bytes)
    requires |x| <= 8
    ensures var b := BlobCode(x) + tail + rest;
      b[0] == |x| && b[1..1 + |x|] == x && b[1 + |x|..] == tail + rest
  {
  }

  /** The bytes before the body. */
  ghost function Prefix(version: byte, ints: bytes, blobs: seq<bytes>): bytes
    requires |ints| < 256 && |blobs| < 256 && ShortBlobs(blobs)
  {
    [version, 0x20, |ints|] + ints + [0x26, |blobs|] + BlobsCode(blobs)
  }

  lemma HeaderRead(version: byte, ints: bytes, blobs: seq<bytes>, rest: bytes)
    requires |ints| < 256 && |blobs| < 256 && ShortBlobs(blobs) && OneByteInts(ints)
    ensures ParseHeader(Prefix(version, ints, blobs) + rest) ==
        Some(Header(version, ints, blobs, |Prefix(version, ints, blobs)|))
  {
    hide BlobsCode, Blobs;
    var code := BlobsCode(blobs);
    var p := Prefix(version, ints, blobs) + rest;
    var n := |ints|;
    assert p[0] == version && p[1] == 0x20 && p[2] == n;
    assert p[3..3 + n] == ints;
    assert p[3 + n] == 0x26 && p[4 + n] == |blobs|;
    assert p[5 + n..] == code + rest;
    BlobsRead(blobs, rest);
  }

  /** The branches of a body, in order. */
  ghost predicate Branches(xs: seq<Instr>, at: seq<nat>) {
    && (forall j | 0 <= j < |at| :: at[j] < |xs| && xs[at[j]].Branch?)
    && (forall k | 0 <= k < |xs| && xs[k].Branch? :: k in at)
    && (forall i, j | 0 <= i < j < |at| :: at[i] < at[j])
  }

  lemma BranchesPlain(xs: seq<Instr>, at: seq<nat>, x: Instr)
    requires Branches(xs, at) && !x.Branch?
    ensures Branches(xs + [x], at)
  {
  }

  lemma BranchesMore(xs: seq<Instr>, at: seq<nat>, x: Instr)
    requires Branches(xs, at) && x.Branch?
    ensures Branches(xs + [x], at + [|xs|])
  {
    var ys, bt := xs + [x], at + [|xs|];
    forall k | 0 <= k < |ys| && ys[k].Branch?
      ensures k in bt
    {
      if k < |xs| {
        assert xs[k].Branch?;
      } else {
        assert bt[|at|] == k;
      }
    }
  }

  /** The recorded positions are those of the branches' displacements. */
  ghost predicate Recorded(base: nat, xs: seq<Instr>, at: seq<nat>, patches: seq<nat>)
    requires AllFit(xs)
  {
    && |patches| == |at|
    && forall j | 0 <= j < |at| :: at[j] <= |xs| && patches[j] == base + Start(xs, at[j]) + 1
  }

  lemma RecordedMore(base: nat, xs: seq<Instr>, at: seq<nat>, patches: seq<nat>, x: Instr)
    requires AllFit(xs) && Fits(x) && Recorded(base, xs, at, patches)
    ensures AllFit(xs + [x]) && Recorded(base, xs + [x], at, patches)
    ensures Recorded(base, xs + [x], at + [|xs|], patches + [base + |Flat(xs)| + 1])
  {
    hide Flat, Fits;
    assert forall k | 0 <= k <= |xs| :: (xs + [x])[..k] == xs[..k];
    assert xs[..|xs|] == xs;
  }

  /** References stay below the declared counts. */
  ghost predicate Refs(xs: seq<Instr>, ints: nat, blobs: nat) {
    && (forall k | 0 <= k < |xs| && xs[k].IntRef? :: xs[k].i < ints)
    && (forall k | 0 <= k < |xs| && xs[k].ByteRef? :: xs[k].i < blobs)
  }

  /** The same instructions up to the displacements of branches. */
  ghost predicate SameButTargets(xs: seq<Instr>, ys: seq<Instr>) {
    && |ys| == |xs|
    && forall k | 0 <= k < |xs| ::
         if xs[k].Branch? then ys[k].Branch? && ys[k].op == xs[k].op else ys[k] == xs[k]
  }

  class Emitter {
    const tape: nat -> nat
    var pos: nat
    var code: bytes
    var patches: seq<nat>
    var bodyStart: nat
    var numInts: nat
    var numBlobs: nat
    ghost var ints: bytes
    ghost var blobs: seq<bytes>
    ghost var xs: seq<Instr>
    ghost var at: seq<nat>

    constructor (tape: nat -> nat)
      ensures this.tape == tape && code == [] && patches == []
    {
      this.tape := tape;
      pos, code, patches, bodyStart, numInts, numBlobs := 0, [], [], 0, 0, 0;
      ints, blobs, xs, at := [], [], [], [];
    }

    method IntInRange(lo: nat, hi: nat) returns (k: nat)
      requires lo <= hi
      modifies this`pos
      ensures lo <= k <= hi
    {
      k := lo + tape(pos) % (hi - lo + 1);
      pos := pos + 1;
    }

    /** The header is written and the body is the code of the emitted instructions. */
    ghost predicate Emitting()
      reads this
    {
      && AllFit(xs) && bodyStart <= |code| && code[bodyStart..] == Flat(xs)
      && 1 <= numInts <= 4 && numBlobs <= 3 && |ints| == numInts && |blobs| == numBlobs
      && OneByteInts(ints) && ShortBlobs(blobs) && 0 < |code|
      && code[..bodyStart] == Prefix(code[0], ints, blobs)
      && Branches(xs, at) && Recorded(bodyStart, xs, at, patches) && Refs(xs, numInts, numBlobs)
    }

    method RandomBytes(n: nat) returns (d: bytes)
      modifies this`pos
      ensures |d| == n
    {
      d := [];
      for i := 0 to n
        invariant |d| == i
      {
        var k := IntInRange(0, 255);
        d := d + [k];
      }
    }

    /** `intcblock` with small one-byte constants. */
    method IntBlock() returns (n: nat, block: bytes, ghost vals: bytes)
      modifies this`pos
      ensures 1 <= n <= 4 && |vals| == n && OneByteInts(vals) && block == [0x20, n] + vals
    {
      n := IntInRange(1, 4);
      block, vals := [0x20, n], [];
      for i := 0 to n
        invariant |vals| == i && OneByteInts(vals) && block == [0x20, n] + vals
      {
        var v := IntInRange(0, 255);
        block, vals := block + [v % 0x80], vals + [v % 0x80];
      }
    }

    /** `bytecblock` with up to three short strings. */
    method ByteBlock() returns (n: nat, block: bytes, ghost vals: seq<bytes>)
      modifies this`pos
      ensures n <= 3 && |vals| == n && ShortBlobs(vals) && block == [0x26, n] + BlobsCode(vals)
    {
      n := IntInRange(0, 3);
      block, vals := [0x26, n], [];
      for i := 0 to n
        invariant |vals| == i && ShortBlobs(vals) && block == [0x26, n] + BlobsCode(vals)
      {
        var len := IntInRange(0, 8);
        var d := RandomBytes(len);
        BlobsAppend(vals, d);
        assert block + BlobCode(d) == [0x26, n] + (BlobsCode(vals) + BlobCode(d));
        block, vals := block + BlobCode(d), vals + [d];
      }
    }

    /** Version, `intcblock`, `bytecblock`. */
    method Preamble()
      requires code == [] && patches == []
      modifies this
      ensures Emitting() && xs == [] && at == [] && 2 <= code[0] <= 10
    {
      hide BlobsCode;
      var version := IntInRange(2, 10);
      var ni, ib, vs := IntBlock();
      var nb, bb, bs := ByteBlock();
      numInts, numBlobs, ints, blobs := ni, nb, vs, bs;
      code := [version] + ib + bb;
      assert code == Prefix(version, vs, bs);
      bodyStart, xs, at := |code|, [], [];
      assert code[bodyStart..] == [] && code[..bodyStart] == code;
    }

    /** One instruction without a displacement. */
    method Push(x: Instr)
      requires Emitting() && Fits(x) && !x.Branch? && Refs([x], numInts, numBlobs)
      modifies this`code, this`xs
      ensures Emitting() && xs == old(xs) + [x] && at == old(at) && code[0] == old(code[0])
    {
      hide Flat, Code, Fits, Prefix;
      FlatAppend(xs, x);
      BranchesPlain(xs, at, x);
      RecordedMore(bodyStart, xs, at, patches, x);
      RefsMore(xs, x, numInts, numBlobs);
      ghost var before := code;
      code := code + Code(x);
      assert code[bodyStart..] == before[bodyStart..] + Code(x) && code[..bodyStart] == before[..bodyStart];
      xs := xs + [x];
    }

    /** A branch with a placeholder displacement, whose position is recorded. */
    method PushBranch(op: byte)
      requires Emitting() && 0x40 <= op <= 0x42
      modifies this`code, this`xs, this`at, this`patches
      ensures Emitting() && xs == old(xs) + [Branch(op, 0)] && code[0] == old(code[0])
      ensures at == old(at) + [|old(xs)|] && patches == old(patches) + [|old(code)| + 1]
    {
      hide Flat, Prefix;
      var x := Branch(op, 0);
      FlatAppend(xs, x);
      BranchesMore(xs, at, x);
      RecordedMore(bodyStart, xs, at, patches, x);
      RefsMore(xs, x, numInts, numBlobs);
      assert Code(x) == [op, 0, 0] by { Placeholder(); }
      ghost var before := code;
      assert |code| == bodyStart + |Flat(xs)|;
      code := code + [op];
      patches := patches + [|code|];
      code := code + [0, 0];
      assert code == before + Code(x);
      assert code[bodyStart..] == before[bodyStart..] + Code(x) && code[..bodyStart] == before[..bodyStart];
      xs, at := xs + [x], at + [|xs|];
    }

    /** One random instruction after those emitted so far; a branch is recorded for patching. */
    method EmitOne()
      requires Emitting()
      modifies this
      ensures Emitting() && |xs| == |old(xs)| + 1 && old(xs) <= xs && code[0] == old(code[0])
      ensures at == old(at) + if xs[|old(xs)|].Branch? then [|old(xs)|] else []
    {
      hide Flat, Prefix, Recorded, Branches, Refs;
      var choice := IntInRange(0, 10);
      if choice <= 2 {
        var i := IntInRange(0, numInts - 1);
        RefsOne(IntRef(i), numInts, numBlobs);
        Push(IntRef(i));
      } else if choice == 3 {
        if numBlobs > 0 {
          var i := IntInRange(0, numBlobs - 1);
          RefsOne(ByteRef(i), numInts, numBlobs);
          Push(ByteRef(i));
        } else {
          RefsOne(IntRef(0), numInts, numBlobs);
          Push(IntRef(0));
        }
      } else if choice == 4 {
        var v := IntInRange(0, 255);
        RefsOne(PushInt(v % 0x80), numInts, numBlobs);
        Push(PushInt(v % 0x80));
      } else if choice == 5 {
        var n := IntInRange(0, 4);
        var d := RandomBytes(n);
        RefsOne(PushBytes(d), numInts, numBlobs);
        Push(PushBytes(d));
      } else if choice <= 8 {
        var i := IntInRange(0, |SIMPLE_OPCODES| - 1);
        SimpleTable(i);
        RefsOne(Simple(SIMPLE_OPCODES[i]), numInts, numBlobs);
        Push(Simple(SIMPLE_OPCODES[i]));
      } else if choice == 9 {
        var k := IntInRange(0, 2);
        PushBranch(0x40 + k);
      } else {
        var slot := IntInRange(0, 15);
        var coin := IntInRange(0, 1);
        var op := if coin == 1 then 0x35 else 0x34;
        RefsOne(Scratch(op, slot), numInts, numBlobs);
        Push(Scratch(op, slot));
      }
    }

    /** Overwrite the displacement of patch j so that the branch lands on `target`. */
    method PatchOne(j: nat, target: nat)
      requires Emitting() && j < |patches| && |xs| <= MAX_INSTRUCTIONS && target < |code| - bodyStart
      modifies this`code, this`xs
      ensures Emitting() && |code| == |old(code)| && code[0] == old(code[0])
      ensures at[j] < |old(xs)| && old(xs)[at[j]].Branch?
      ensures xs == old(xs)[at[j] := old(xs)[at[j]].(disp := target - Start(old(xs), at[j] + 1))]
      ensures forall i | 0 <= i < |at| && (i == j || Landed(old(xs), at[i])) :: Landed(xs, at[i])
    {
      hide Flat, Code, Prefix, Start, Refs, Branches, AllFit;
      ghost var k := at[j];
      BranchAt(xs, at, j);
      var p := patches[j];
      BranchSpan(xs, k);
      var afterBranch := p + 2;
      var afterRel := afterBranch - bodyStart;
      var disp := target - afterRel;
      var two := Int16(disp);
      ghost var ys := xs[k := xs[k].(disp := disp)];
      PatchBranch(xs, k, disp);
      Patched(bodyStart, xs, at, patches, j, disp, numInts, numBlobs);
      ghost var before := code;
      assert |code| == bodyStart + |Flat(xs)|;
      code := code[p := two[0]];
      code := code[p + 1 := two[1]];
      assert code[bodyStart..] == before[bodyStart..][p - bodyStart := two[0]][p - bodyStart + 1 := two[1]];
      assert code[..bodyStart] == before[..bodyStart] && code[0] == before[0];
      xs := ys;
    }

    /** The final pass over the recorded positions. */
    method PatchAll()
      requires Emitting() && |xs| <= MAX_INSTRUCTIONS
      modifies this
      ensures Emitting() && SameButTargets(old(xs), xs) && code[0] == old(code[0])
      ensures forall i | 0 <= i < |at| :: Landed(xs, at[i])
    {
      hide Flat, Prefix, Branches, Refs, Landed;
      var bodyLen := |code| - bodyStart;
      ghost var n := |patches|;
      var j := 0;
      while j < |patches|
        invariant Emitting() && SameButTargets(old(xs), xs) && code[0] == old(code[0])
        invariant j <= |patches| == n == |at| && |code| - bodyStart == bodyLen
        invariant forall i | 0 <= i < j :: Landed(xs, at[i])
      {
        SomeBody(xs, at, j);
        var raw := IntInRange(0, 0xffff);
        var target := if bodyLen > 0 then raw % bodyLen else 0;
        PatchOne(j, target);
        assert SameButTargets(old(xs), xs);
        j := j + 1;
      }
    }
  }

  /** A generated program: its header reads back, a linear decode of its body finds well-formed
      instructions only, every constant reference is declared, and every branch lands inside the body. */
  method Program(tape: nat -> nat) returns (prog: bytes)
    ensures ParseHeader(prog).Some?
    ensures var h := ParseHeader(prog).value;
      && 2 <= h.version <= 10 && h.body <= |prog| && Decode(prog[h.body..]).Some?
      && var xs := Decode(prog[h.body..]).value; 1 <= |xs| <= MAX_INSTRUCTIONS && Sound(h, xs)
  {
    hide Flat, Prefix, Branches, Refs, Recorded, ParseHeader, Decode, Sound;
    var e := new Emitter(tape);
    e.Preamble();
    var n := e.IntInRange(1, MAX_INSTRUCTIONS);
    for i := 0 to n
      invariant e.Emitting() && |e.xs| == i && fresh(e) && 2 <= e.code[0] <= 10
    {
      e.EmitOne();
    }
    e.PatchAll();
    prog := e.code;
    ghost var h := Header(prog[0], e.ints, e.blobs, e.bodyStart);
    HeaderRead(prog[0], e.ints, e.blobs, prog[e.bodyStart..]);
    assert prog == prog[..e.bodyStart] + prog[e.bodyStart..];
    DecodeFlat(e.xs);
    AllSound(h, e.xs, e.at);
  }

  lemma AllSound(h: Header, xs: seq<Instr>, at: seq<nat>)
    requires AllFit(xs) && Branches(xs, at) && Refs(xs, |h.ints|, |h.blobs|)
    requires forall i | 0 <= i < |at| :: Landed(xs, at[i])
    ensures Sound(h, xs)
  {
    hide Flat, Fits;
    forall k | 0 <= k < |xs| && xs[k].Branch?
      ensures Lands(xs, k)
    {
      assert k in at;
      var i :| 0 <= i < |at| && at[i] == k;
      assert Landed(xs, at[i]);
    }
  }

  ghost predicate Landed(xs: seq<Instr>, k: nat) {
    AllFit(xs) && k < |xs| && xs[k].Branch? && Lands(xs, k)
  }

  lemma Placeholder()
    ensures Int16(0) == [0, 0]
  {
    assert ToBE(0, 1) == [0];
  }

  lemma RefsOne(x: Instr, ints: nat, blobs: nat)
    requires (x.IntRef? ==> x.i < ints) && (x.ByteRef? ==> x.i < blobs)
    ensures Refs([x], ints, blobs)
  {
  }

  lemma RefsMore(xs: seq<Instr>, x: Instr, ints: nat, blobs: nat)
    requires Refs(xs, ints, blobs) && Refs([x], ints, blobs)
    ensures Refs(xs + [x], ints, blobs)
  {
    assert [x][0] == x;
  }

  lemma BranchAt(xs: seq<Instr>, at: seq<nat>, j: nat)
    requires Branches(xs, at) && j < |at|
    ensures at[j] < |xs| && xs[at[j]].Branch?
  {
  }

  lemma BranchSpan(xs: seq<Instr>, k: nat)
    requires AllFit(xs) && k < |xs| && xs[k].Branch?
    ensures Start(xs, k + 1) == Start(xs, k) + 3 <= |Flat(xs)| <= 6 * |xs|
  {
    hide Flat;
    FlatSplit(xs, k);
    FlatBound(xs);
    assert |Code(xs[k])| == 3;
  }

  /** A branch makes a body. */
  lemma SomeBody(xs: seq<Instr>, at: seq<nat>, j: nat)
    requires AllFit(xs) && Branches(xs, at) && j < |at|
    ensures |Flat(xs)| > 0
  {
    hide Flat;
    BranchSpan(xs, at[j]);
  }

  /** Setting one displacement keeps everything else about the body. */
  lemma Patched(base: nat, xs: seq<Instr>, at: seq<nat>, patches: seq<nat>, j: nat, disp: int, ints: nat, blobs: nat)
    requires AllFit(xs) && Branches(xs, at) && Recorded(base, xs, at, patches) && Refs(xs, ints, blobs) && j < |at|
    requires -0x8000 <= disp < 0x8000 && 0 <= Start(xs, at[j] + 1) + disp < |Flat(xs)|
    ensures var ys := xs[at[j] := xs[at[j]].(disp := disp)];
      && AllFit(ys) && Branches(ys, at) && Recorded(base, ys, at, patches) && Refs(ys, ints, blobs)
      && forall i | 0 <= i < |at| && (i == j || Landed(xs, at[i])) :: Landed(ys, at[i])
  {
    hide Flat, Code, Start;
    var k := at[j];
    var y := xs[k].(disp := disp);
    var ys := xs[k := y];
    assert |Code(y)| == |Code(xs[k])| by { BranchLength(xs[k]); BranchLength(y); }
    forall i: nat | i <= |xs|
      ensures AllFit(ys) && Start(ys, i) == Start(xs, i)
    {
      SameLayout(xs, k, y, i);
    }
    WholeBody(xs);
    WholeBody(ys);
    forall i | 0 <= i < |at| && (i == j || Landed(xs, at[i]))
      ensures Landed(ys, at[i])
    {
      assert Start(ys, at[i] + 1) == Start(xs, at[i] + 1);
    }
  }

  lemma BranchLength(x: Instr)
    requires Fits(x) && x.Branch?
    ensures |Code(x)| == 3
  {
  }

  lemma WholeBody(xs: seq<Instr>)
    requires AllFit(xs)
    ensures Start(xs, |xs|) == |Flat(xs)|
  {
    assert xs[..|xs|] == xs;
  }
}

/** The part of the AVM bytecode that the TEAL fuzzer emits (fuzz/fuzz_targets/fuzz_teal_program.rs):
    instructions, their bytes, and a linear decoder. */
module Bytecode {
  import opened Optional
  import opened Bytes

  /** The opcodes without immediates that the fuzzer chooses from. */
  const SIMPLE_OPCODES: bytes := [
    0x08, 0x09, 0x0a, 0x0b, 0x0c, 0x0d, 0x0e, 0x0f, 0x10, 0x11, 0x12, 0x13, 0x14, 0x15, 0x16,
    0x17, 0x18, 0x19, 0x1a, 0x1b, 0x1c, 0x1d, 0x1e, 0x48, 0x49, 0x4a, 0x4c, 0x4d, 0x43, 0x44]

  datatype Instr =
    | IntRef(i: nat)
    | ByteRef(i: nat)
    | PushInt(v: nat)
    | PushBytes(data: bytes)
    | Simple(op: byte)
    | Branch(op: byte, disp: int)
    | Scratch(op: byte, slot: nat)

  predicate IsSimple(op: byte) {
    0x08 <= op <= 0x1e || op == 0x43 || op == 0x44 || 0x48 <= op <= 0x4a || op == 0x4c || op == 0x4d
  }

  lemma SimpleTable(i: nat)
    requires i < |SIMPLE_OPCODES|
    ensures IsSimple(SIMPLE_OPCODES[i])
  {
  }

  /** What fits into the bytes of each form. */
  predicate Fits(ins: Instr) {
    match ins
    case IntRef(i) => i < 256
    case ByteRef(i) => i < 256
    case PushInt(v) => v < 0x80
    case PushBytes(d) => |d| <= 4
    case Simple(op) => IsSimple(op)
    case Branch(op, disp) => 0x40 <= op <= 0x42 && -0x8000 <= disp < 0x8000
    case Scratch(op, slot) => 0x34 <= op <= 0x35 && slot < 256
  }

  /** The two bytes of a 16-bit two's complement number; any larger number is cut to its low bits. */
  function Int16(x: int): (s: bytes)
    ensures |s| == 2
  {
    ToBE(x % 0x1_0000, 2)
  }

  lemma Int16Exact(x: int)
    requires -0x8000 <= x < 0x8000
    ensures SignedBE(Int16(x)) == x
  {
    PowValues();
    FromToBE(x % 0x1_0000, 2);
  }

  function Code(ins: Instr): (s: bytes)
    requires Fits(ins)
    ensures 1 <= |s| <= 6
  {
    match ins
    case IntRef(i) => if i < 4 then [0x22 + i] else [0x21, i]
    case ByteRef(i) => if i < 4 then [0x28 + i] else [0x27, i]
    case PushInt(v) => [0x81, v]
    case PushBytes(d) => [0x80, |d|] + d
    case Simple(op) => [op]
    case Branch(op, disp) => [op] + Int16(disp)
    case Scratch(op, slot) => [op, slot]
  }

  predicate AllFit(xs: seq<Instr>) {
    forall i | 0 <= i < |xs| :: Fits(xs[i])
  }

  function Flat(xs: seq<Instr>): bytes
    requires AllFit(xs)
  {
    if xs == [] then [] else Code(xs[0]) + Flat(xs[1..])
  }

  /** The instruction at the head of a byte string, and its length. */
  function One(b: bytes): (r: Option<(Instr, nat)>)
    requires b != []
    ensures r.Some? ==> 1 <= r.value.1 <= |b|
  {
    var op := b[0];
    if 0x22 <= op <= 0x25 then Some((IntRef(op - 0x22), 1))
    else if 0x28 <= op <= 0x2b then Some((ByteRef(op - 0x28), 1))
    else if IsSimple(op) then Some((Simple(op), 1))
    else if |b| < 2 then None
    else if op == 0x21 then Some((IntRef(b[1]), 2))
    else if op == 0x27 then Some((ByteRef(b[1]), 2))
    else if op == 0x81 then (if b[1] < 0x80 then Some((PushInt(b[1]), 2)) else None)
    else if op == 0x80 then
      (if b[1] < 0x80 && 2 + b[1] <= |b| then Some((PushBytes(b[2..2 + b[1]]), 2 + b[1])) else None)
    else if op == 0x34 || op == 0x35 then Some((Scratch(op, b[1]), 2))
    else if 0x40 <= op <= 0x42 && |b| >= 3 then Some((Branch(op, SignedBE(b[1..3])), 3))
    else None
  }

  /** Reading a body from front to back. */
  function Decode(b: bytes): Option<seq<Instr>>
    decreases |b|
  {
    if b == [] then Some([])
    else
      match One(b)
      case None => None
      case Some((ins, n)) =>
        match Decode(b[n..])
        case None => None
        case Some(rest) => Some([ins] + rest)
  }

  lemma OneCode(ins: Instr, rest: bytes)
    requires Fits(ins)
    ensures One(Code(ins) + rest) == Some((ins, |Code(ins)|))
  {
    var b := Code(ins) + rest;
    match ins {
      case PushBytes(d) =>
        assert b[2..2 + |d|] == d;
      case Branch(op, disp) =>
        assert b[1..3] == Int16(disp);
        Int16Exact(disp);
      case _ =>
    }
  }

  /** A linear decode of emitted code finds exactly the emitted instructions. */
  lemma {:induction false} DecodeFlat(xs: seq<Instr>)
    requires AllFit(xs)
    ensures Decode(Flat(xs)) == Some(xs)
    decreases |xs|
  {
    hide One, Code;
    if xs != [] {
      DecodeFlat(xs[1..]);
      OneCode(xs[0], Flat(xs[1..]));
      var b := Code(xs[0]) + Flat(xs[1..]);
      assert b[|Code(xs[0])|..] == Flat(xs[1..]);
      assert [xs[0]] + xs[1..] == xs;
    }
  }

  // ---- the layout of a body -----------------------------------------------------------------------------

  /** Where instruction k starts. */
  function Start(xs: seq<Instr>, k: nat): nat
    requires AllFit(xs) && k <= |xs|
  {
    |Flat(xs[..k])|
  }

  lemma {:induction false} FlatConcat(xs: seq<Instr>, ys: seq<Instr>)
    requires AllFit(xs) && AllFit(ys)
    ensures AllFit(xs + ys) && Flat(xs + ys) == Flat(xs) + Flat(ys)
    decreases |xs|
  {
    hide Code, Fits;
    if xs == [] {
      assert xs + ys == ys;
    } else {
      assert (xs + ys)[1..] == xs[1..] + ys;
      FlatConcat(xs[1..], ys);
    }
  }

  lemma FlatOne(x: Instr)
    requires Fits(x)
    ensures AllFit([x]) && Flat([x]) == Code(x)
  {
    hide Code;
    assert [x][1..] == [];
  }

  lemma FlatAppend(xs: seq<Instr>, x: Instr)
    requires AllFit(xs) && Fits(x)
    ensures AllFit(xs + [x]) && Flat(xs + [x]) == Flat(xs) + Code(x)
  {
    hide Code, Fits, Flat;
    FlatOne(x);
    FlatConcat(xs, [x]);
  }

  lemma FlatSplit(xs: seq<Instr>, k: nat)
    requires AllFit(xs) && k < |xs|
    ensures Flat(xs) == Flat(xs[..k]) + Code(xs[k]) + Flat(xs[k + 1..])
    ensures Start(xs, k + 1) == Start(xs, k) + |Code(xs[k])|
  {
    hide Code, Fits, Flat;
    assert xs == xs[..k] + [xs[k]] + xs[k + 1..];
    assert xs[..k + 1] == xs[..k] + [xs[k]];
    FlatAppend(xs[..k], xs[k]);
    FlatConcat(xs[..k + 1], xs[k + 1..]);
    assert xs[..k + 1] + xs[k + 1..] == xs;
  }

  lemma {:induction false} FlatBound(xs: seq<Instr>)
    requires AllFit(xs)
    ensures |Flat(xs)| <= 6 * |xs|
    decreases |xs|
  {
    hide Code;
    if xs != [] { FlatBound(xs[1..]); }
  }

  // ---- patching a displacement ------------------------------------------------------------------------------

  /** Another instruction of the same length moves no other instruction. */
  lemma {:induction false} SameLayout(xs: seq<Instr>, k: nat, y: Instr, j: nat)
    requires AllFit(xs) && k < |xs| && j <= |xs| && Fits(y) && |Code(y)| == |Code(xs[k])|
    ensures AllFit(xs[k := y]) && Start(xs[k := y], j) == Start(xs, j)
    decreases j
  {
    hide Code, Flat, Fits;
    if j > 0 {
      SameLayout(xs, k, y, j - 1);
      FlatSplit(xs, j - 1);
      FlatSplit(xs[k := y], j - 1);
    } else {
      assert xs[k := y][..0] == xs[..0];
    }
  }

  /** Overwriting the two displacement bytes of a branch changes that displacement and nothing else. */
  lemma PatchBranch(xs: seq<Instr>, k: nat, disp: int)
    requires AllFit(xs) && k < |xs| && xs[k].Branch? && -0x8000 <= disp < 0x8000
    ensures var s := Int16(disp);
      var p := Start(xs, k) + 1;
      && p + 2 <= |Flat(xs)| && Fits(xs[k].(disp := disp)) && AllFit(xs[k := xs[k].(disp := disp)])
      && Flat(xs[k := xs[k].(disp := disp)]) == Flat(xs)[p := s[0]][p + 1 := s[1]]
  {
    hide Flat;
    var y := xs[k].(disp := disp);
    var ys := xs[k := y];
    var s, p := Int16(disp), Start(xs, k) + 1;
    FlatSplit(xs, k);
    FlatSplit(ys, k);
    assert ys[..k] == xs[..k] && ys[k + 1..] == xs[k + 1..];
    Overwrite(Flat(xs[..k]), xs[k].op, Int16(xs[k].disp), s, Flat(xs[k + 1..]));
  }

  lemma Overwrite(a: bytes, op: byte, old2: bytes, s: bytes, c: bytes)
    requires |old2| == 2 == |s|
    ensures a + ([op] + s) + c == (a + ([op] + old2) + c)[|a| + 1 := s[0]][|a| + 2 := s[1]]
  {
  }

  // ---- whole programs ---------------------------------------------------------------------------------------

  datatype Header = Header(version: nat, ints: bytes, blobs: seq<bytes>, body: nat)

  function Blobs(b: bytes, n: nat): Option<(seq<bytes>, nat)> {
    if n == 0 then Some(([], 0))
    else if b == [] || 1 + b[0] > |b| then None
    else
      match Blobs(b[1 + b[0]..], n - 1)
      case None => None
      case Some((rest, used)) => Some(([b[1..1 + b[0]]] + rest, 1 + b[0] + used))
  }

  predicate OneByteInts(s: bytes) {
    forall i | 0 <= i < |s| :: s[i] < 0x80
  }

  /** The version, the two constant blocks, and where the body starts. */
  function ParseHeader(p: bytes): Option<Header> {
    if |p| < 3 || p[1] != 0x20 then None
    else
      var n: nat := p[2];
      if 3 + n + 2 > |p| || p[3 + n] != 0x26 || !OneByteInts(p[3..3 + n]) then None
      else
        match Blobs(p[5 + n..], p[4 + n])
        case None => None
        case Some((blobs, used)) => Some(Header(p[0], p[3..3 + n], blobs, 5 + n + used))
  }

  /** Constant references are declared and branches land inside the body. */
  ghost predicate Sound(h: Header, xs: seq<Instr>) {
    && AllFit(xs)
    && (forall k | 0 <= k < |xs| && xs[k].IntRef? :: xs[k].i < |h.ints|)
    && (forall k | 0 <= k < |xs| && xs[k].ByteRef? :: xs[k].i < |h.blobs|)
    && (forall k | 0 <= k < |xs| && xs[k].Branch? :: Lands(xs, k))
  }

  ghost predicate Lands(xs: seq<Instr>, k: nat)
    requires AllFit(xs) && k < |xs| && xs[k].Branch?
  {
    0 <= Start(xs, k + 1) + xs[k].disp < |Flat(xs)|
  }
}

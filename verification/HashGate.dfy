/** The block-hash gate of scripts/bench/catchup_lib.py: how the retained range is followed while it
    is fetched, and what a clean report means. */
module HashGates {
  import opened Optional
  import opened HashSampling

  // ---- filtering the sampled rounds -----------------------------------------------------------

  /** The rounds with a property, in order. */
  function Where(rounds: seq<int>, p: int -> bool): (r: seq<int>)
    ensures forall x :: x in r <==> x in rounds && p(x)
  {
    if rounds == [] then [] else (if p(rounds[0]) then [rounds[0]] else []) + Where(rounds[1..], p)
  }

  /** `r` has the property and no round before it does. */
  ghost predicate FirstWith(rounds: seq<int>, p: int -> bool, r: int) {
    exists k | 0 <= k < |rounds| :: rounds[k] == r && p(r) && forall j | 0 <= j < k :: !p(rounds[j])
  }

  lemma {:induction false} WhereFirst(rounds: seq<int>, p: int -> bool)
    requires Where(rounds, p) != []
    ensures FirstWith(rounds, p, Where(rounds, p)[0])
  {
    var w := Where(rounds, p);
    if p(rounds[0]) {
      assert w[0] == rounds[0];
    } else {
      WhereFirst(rounds[1..], p);
      var k :| 0 <= k < |rounds[1..]| && rounds[1..][k] == w[0] && p(w[0])
               && forall j | 0 <= j < k :: !p(rounds[1..][j]);
      assert rounds[k + 1] == w[0];
      forall j | 0 <= j < k + 1
        ensures !p(rounds[j])
      {
        if j > 0 { assert rounds[j] == rounds[1..][j - 1]; }
      }
    }
  }

  lemma {:induction false} WhereNext(rounds: seq<int>, p: int -> bool, i: nat)
    requires i < |rounds|
    ensures Where(rounds[..i + 1], p) == Where(rounds[..i], p) + (if p(rounds[i]) then [rounds[i]] else [])
  {
    if i == 0 {
      assert rounds[..1][1..] == [];
    } else {
      WhereNext(rounds[1..], p, i - 1);
      assert rounds[..i + 1][1..] == rounds[1..][..i] && rounds[..i][1..] == rounds[1..][..i - 1];
    }
  }

  lemma {:induction false} WhereAll(rounds: seq<int>, p: int -> bool)
    requires forall r | r in rounds :: p(r)
    ensures Where(rounds, p) == rounds
  {
    if rounds != [] {
      var r := rounds[0];
      assert r in rounds;
      WhereAll(rounds[1..], p);
      assert rounds == [r] + rounds[1..];
    }
  }

  // ---- hash_gate --------------------------------------------------------------------------------

  type Hash = nat
  type Hashes = map<int, Hash>

  /** Each report names the first round it is about and how many there are. */
  datatype Report =
    | MissingGo(first: int, count: nat)
    | MissingRust(first: int, count: nat)
    | Mismatch(first: int, count: nat, compared: nat)
    | NothingCompared

  function Absent(h: Hashes): int -> bool {
    r => r !in h
  }

  function Answered(go: Hashes, rust: Hashes): int -> bool {
    r => r in go && r in rust
  }

  function Differs(go: Hashes, rust: Hashes): int -> bool {
    r => r in go && r in rust && go[r] != rust[r]
  }

  ghost predicate Agree(go: Hashes, rust: Hashes, r: int) {
    r in go && r in rust && go[r] == rust[r]
  }

  /** Each report says what is the case. */
  ghost predicate Truthful(go: Hashes, rust: Hashes, rounds: seq<int>, e: Report) {
    match e
    case MissingGo(r, n) => FirstWith(rounds, Absent(go), r) && n == |Where(rounds, Absent(go))|
    case MissingRust(r, n) => FirstWith(rounds, Absent(rust), r) && n == |Where(rounds, Absent(rust))|
    case Mismatch(r, n, c) =>
      && FirstWith(rounds, Differs(go, rust), r) && n == |Where(rounds, Differs(go, rust))|
      && c == |Where(rounds, Answered(go, rust))|
    case NothingCompared => forall r | r in rounds :: r !in go || r !in rust
  }

  /** Nothing that is the case goes unreported. */
  ghost predicate Complete(go: Hashes, rust: Hashes, rounds: seq<int>, errors: seq<Report>) {
    && (Where(rounds, Absent(go)) != [] ==> exists e | e in errors :: e.MissingGo?)
    && (Where(rounds, Absent(rust)) != [] ==> exists e | e in errors :: e.MissingRust?)
    && (Where(rounds, Differs(go, rust)) != [] ==> exists e | e in errors :: e.Mismatch?)
    && (Where(rounds, Answered(go, rust)) == [] ==> NothingCompared in errors)
  }

  method CompareRounds(go: Hashes, rust: Hashes, rounds: seq<int>) returns (mismatched: seq<int>, compared: nat)
    ensures mismatched == Where(rounds, Differs(go, rust)) && compared == |Where(rounds, Answered(go, rust))|
  {
    mismatched, compared := [], 0;
    for i := 0 to |rounds|
      invariant mismatched == Where(rounds[..i], Differs(go, rust))
      invariant compared == |Where(rounds[..i], Answered(go, rust))|
    {
      WhereNext(rounds, Differs(go, rust), i);
      WhereNext(rounds, Answered(go, rust), i);
      var r := rounds[i];
      if r in go && r in rust {
        compared := compared + 1;
        if go[r] != rust[r] {
          mismatched := mismatched + [r];
        }
      }
    }
    assert rounds[..|rounds|] == rounds;
  }

  lemma AllAgree(go: Hashes, rust: Hashes, rounds: seq<int>)
    ensures (forall r | r in rounds :: Agree(go, rust, r)) <==>
              && Where(rounds, Absent(go)) == [] && Where(rounds, Absent(rust)) == []
              && Where(rounds, Differs(go, rust)) == []
    ensures (forall r | r in rounds :: Agree(go, rust, r)) ==> Where(rounds, Answered(go, rust)) == rounds
  {
    if forall r | r in rounds :: Agree(go, rust, r) {
      NoneWith(rounds, Absent(go));
      NoneWith(rounds, Absent(rust));
      NoneWith(rounds, Differs(go, rust));
      WhereAll(rounds, Answered(go, rust));
    } else {
      var r :| r in rounds && !Agree(go, rust, r);
      assert Absent(go)(r) || Absent(rust)(r) || Differs(go, rust)(r);
    }
  }

  lemma NoneWith(rounds: seq<int>, p: int -> bool)
    requires forall r | r in rounds :: !p(r)
    ensures Where(rounds, p) == []
  {
    SameEmpty(Where(rounds, p), []);
  }

  /** `hash_gate`: nothing is reported exactly when there is something to compare and both sides gave
      the same hash for every sampled round. */
  method HashGate(go: Hashes, rust: Hashes, rounds: seq<int>) returns (errors: seq<Report>, compared: nat)
    ensures errors == [] <==> rounds != [] && forall r | r in rounds :: Agree(go, rust, r)
    ensures (forall e | e in errors :: Truthful(go, rust, rounds, e)) && Complete(go, rust, rounds, errors)
    ensures compared == |Where(rounds, Answered(go, rust))| && (errors == [] ==> compared == |rounds|)
  {
    hide Where, FirstWith;
    errors := [];
    var missingGo, missingRust := Where(rounds, Absent(go)), Where(rounds, Absent(rust));
    if missingGo != [] {
      WhereFirst(rounds, Absent(go));
      errors := errors + [MissingGo(missingGo[0], |missingGo|)];
    }
    if missingRust != [] {
      WhereFirst(rounds, Absent(rust));
      errors := errors + [MissingRust(missingRust[0], |missingRust|)];
    }
    var mismatched: seq<int>;
    mismatched, compared := CompareRounds(go, rust, rounds);
    if mismatched != [] {
      WhereFirst(rounds, Differs(go, rust));
      errors := errors + [Mismatch(mismatched[0], |mismatched|, compared)];
    }
    if rounds == [] || compared == 0 {
      NothingAnswered(go, rust, rounds);
      errors := errors + [NothingCompared];
    }
    AllAgree(go, rust, rounds);
    assert missingGo != [] ==> MissingGo(missingGo[0], |missingGo|) in errors;
    assert missingRust != [] ==> MissingRust(missingRust[0], |missingRust|) in errors;
    assert mismatched != [] ==> Mismatch(mismatched[0], |mismatched|, compared) in errors;
  }

  lemma NothingAnswered(go: Hashes, rust: Hashes, rounds: seq<int>)
    requires rounds == [] || Where(rounds, Answered(go, rust)) == []
    ensures forall r | r in rounds :: r !in go || r !in rust
  {
    assert forall r | r in rounds :: !Answered(go, rust)(r);
  }

  // ---- collect_hashes -----------------------------------------------------------------------------

  /** What a side answers for a round in a given attempt: both keep pruning while the fetch runs. */
  type Fetch = (nat, bool, int) -> Option<Hash>

  function Fetched(get: Fetch, attempt: nat, rustSide: bool, rounds: seq<int>): Hashes {
    map r | r in rounds && get(attempt, rustSide, r).Some? :: get(attempt, rustSide, r).value
  }

  /** Some side could not answer. */
  function Gone(get: Fetch, attempt: nat): int -> bool {
    r => get(attempt, false, r).None? || get(attempt, true, r).None?
  }

  /** The sampled rounds with a hole, ascending like the samples. */
  function Holes(get: Fetch, attempt: nat, rounds: seq<int>): seq<int> {
    Where(rounds, Gone(get, attempt))
  }

  datatype Collected = RangeMoved | Collected(go: Hashes, rust: Hashes, rounds: seq<int>, first: int, trims: nat)

  /** The holes of an attempt are exactly its oldest samples, and there are some. */
  predicate Trims(get: Fetch, attempt: nat, rounds: seq<int>) {
    Holes(get, attempt, rounds) != [] && Holes(get, attempt, rounds) <= rounds
  }

  /** The next attempt starts right after the last hole. */
  predicate Moved(get: Fetch, attempt: nat, a: int, b: int, last: int, cap: nat)
    requires cap >= 1
  {
    var rounds := SampleRounds(a, last, cap);
    var holes := Holes(get, attempt, rounds);
    Trims(get, attempt, rounds) && b == holes[|holes| - 1] + 1
  }

  /** The starts of the attempts, in order. */
  ghost predicate Moves(get: Fetch, starts: seq<int>, last: int, cap: nat)
    requires cap >= 1
  {
    forall k: nat | k + 1 < |starts| :: Moved(get, k, starts[k], starts[k + 1], last, cap)
  }

  /** `collect_hashes`. `starts` lists where the attempts began: the start moves exactly when the holes
      are the oldest samples, and the range is given up when nothing is left of it or it has moved
      once too often. */
  method CollectHashes(get: Fetch, first: int, last: int, cap: nat, maxTrims: nat)
    returns (r: Collected, starts: seq<int>)
    requires cap >= 1
    ensures Moves(get, starts, last, cap) && 1 <= |starts| <= maxTrims + 2 && starts[0] == first
    ensures r.RangeMoved? <==> SampleRounds(starts[|starts| - 1], last, cap) == [] || |starts| == maxTrims + 2
    ensures r.Collected? ==>
              && |starts| == r.trims + 1 && r.first == starts[r.trims] && r.rounds == SampleRounds(r.first, last, cap)
              && r.go == Fetched(get, r.trims, false, r.rounds) && r.rust == Fetched(get, r.trims, true, r.rounds)
              && !Trims(get, r.trims, r.rounds)
  {
    hide SampleRounds, Where;
    var from := first;
    starts := [first];
    for trims := 0 to maxTrims + 1
      invariant |starts| == trims + 1 && starts[0] == first && starts[trims] == from && Moves(get, starts, last, cap)
    {
      var rounds := SampleRounds(from, last, cap);
      if rounds == [] {
        return RangeMoved, starts;
      }
      var go, rust := Fetched(get, trims, false, rounds), Fetched(get, trims, true, rounds);
      var missing := Holes(get, trims, rounds);
      if missing == [] {
        return Collected(go, rust, rounds, from, trims), starts;
      }
      if !(missing <= rounds) {
        return Collected(go, rust, rounds, from, trims), starts;
      }
      var next := missing[|missing| - 1] + 1;
      assert Moved(get, trims, from, next, last, cap);
      starts := starts + [next];
      from := next;
    }
    return RangeMoved, starts;
  }

  /** A move passes exactly the holes: below the new start every sample was a hole, from it on none. */
  lemma MovedPast(get: Fetch, attempt: nat, a: int, b: int, last: int, cap: nat)
    requires cap >= 1 && Moved(get, attempt, a, b, last, cap)
    ensures a < b <= last + 1
    ensures forall r | r in SampleRounds(a, last, cap) :: Gone(get, attempt)(r) <==> r < b
  {
    hide SampleRounds, Where;
    SampleShape(a, last, cap);
    var rounds := SampleRounds(a, last, cap);
    var holes := Holes(get, attempt, rounds);
    var m := |holes| - 1;
    assert rounds[m] == holes[m];
    var top := holes[m];
    assert top in holes;
    forall r | r in rounds
      ensures Gone(get, attempt)(r) <==> r <= top
    {
      var i :| 0 <= i < |rounds| && rounds[i] == r;
      if i <= m { assert holes[i] == r && r in holes; }
    }
  }

  // ---- the gate over a range --------------------------------------------------------------------------

  /** Both sides answered the round in the given attempt, with the same hash. */
  ghost predicate SameAnswer(get: Fetch, attempt: nat, r: int) {
    get(attempt, false, r).Some? && get(attempt, false, r) == get(attempt, true, r)
  }

  /** The gate as the tier runs it. It passes exactly when both sides gave the same hash at every
      sampled round of the range finally used; at most `maxTrims` moves led there, each past rounds
      that were missing, and no differing round was ever left behind. */
  method GateRange(get: Fetch, first: int, last: int, cap: nat, maxTrims: nat)
    returns (r: Collected, errors: seq<Report>, compared: nat, starts: seq<int>)
    requires cap >= 1
    ensures Moves(get, starts, last, cap) && starts != [] && starts[0] == first
    ensures r.RangeMoved? <==> SampleRounds(starts[|starts| - 1], last, cap) == [] || |starts| == maxTrims + 2
    ensures r.Collected? ==>
              && |starts| <= maxTrims + 1 && r.first == starts[|starts| - 1] && r.trims == |starts| - 1
              && (errors == [] <==> forall x | x in SampleRounds(r.first, last, cap) :: SameAnswer(get, r.trims, x))
              && (errors == [] ==> compared == |SampleRounds(r.first, last, cap)| > 0)
    ensures forall k: nat, x | k + 1 < |starts| && x in SampleRounds(starts[k], last, cap) && x < starts[k + 1] ::
              Gone(get, k)(x)
  {
    hide SampleRounds, Where;
    r, starts := CollectHashes(get, first, last, cap, maxTrims);
    forall k: nat, x | k + 1 < |starts| && x in SampleRounds(starts[k], last, cap) && x < starts[k + 1]
      ensures Gone(get, k)(x)
    {
      MovedPast(get, k, starts[k], starts[k + 1], last, cap);
    }
    errors, compared := [], 0;
    if r.Collected? {
      errors, compared := HashGate(r.go, r.rust, r.rounds);
      AnswersAgree(get, r.trims, r.rounds);
    }
  }

  lemma AnswersAgree(get: Fetch, attempt: nat, rounds: seq<int>)
    ensures forall x | x in rounds ::
              Agree(Fetched(get, attempt, false, rounds), Fetched(get, attempt, true, rounds), x) <==>
              SameAnswer(get, attempt, x)
  {
  }
}

/** The six setup rounds: from the genesis ledger to a state in which the invariant holds. */
module PlannerSetup {
  import opened Optional
  import opened Ledger
  import opened Planner
  import opened PlannerInv
  import opened PlannerRun

  const SETUP_ROUNDS: nat := 6
  const VALIDATORS: nat := 4

  /** The genesis allocations, which are also the first addresses the generator knows. */
  function Allocated(n: nat): seq<Addr> {
    [RewardsPool, FeeSink] + seq(VALIDATORS, (i: nat) => Validator(i)) + seq(n, (i: nat) => Account(i))
  }

  function FreshAcct(): Acct {
    Acct(None, false, 0, false, false, 0)
  }

  /** The admin's record after k setup rounds. */
  function AdminAcct(k: nat): Acct {
    FreshAcct().(optA := k >= 1,
                 balA := if k == 0 then 0 else if k < 6 then ASSET_A_TOTAL else ASSET_A_TOTAL - APP_ASSET_FUND)
  }

  function SetupAccts(n: nat, k: nat): seq<Acct>
    requires n > 0
  {
    [AdminAcct(k)] + seq(n - 1, _ => FreshAcct())
  }

  /** The generator after k setup rounds, when ids up to `base` existed before it started. */
  function SetupGen(n: nat, rounds: nat, base: nat, k: nat): Gen
    requires n > 0
  {
    Gen(rounds, SetupAccts(n, k), k, {}, map[], [], [], 0, k, [], [],
        if k >= 1 then base + 1 else 0, if k >= 2 then base + 2 else 0, if k >= 3 then base + 3 else 0,
        Allocated(n) + (if k >= 2 then [AppAddr(base + 2)] else []) + (if k >= 3 then [AppAddr(base + 3)] else []),
        {}, {}, 0, base + if k < 3 then k else 3)
  }

  function SetupHold(base: nat, k: nat): map<(Addr, nat), Holding> {
    if k == 0 then map[]
    else if k < 5 then map[(ADMIN, base + 1) := Holding(ASSET_A_TOTAL, false)]
    else if k == 5 then map[(ADMIN, base + 1) := Holding(ASSET_A_TOTAL, false),
                            (AppAddr(base + 2), base + 1) := Holding(0, false)]
    else map[(ADMIN, base + 1) := Holding(ASSET_A_TOTAL - APP_ASSET_FUND, false),
             (AppAddr(base + 2), base + 1) := Holding(APP_ASSET_FUND, false)]
  }

  function NotesTo(k: nat): (ns: set<nat>)
    ensures forall x :: x in ns <==> 1 <= x <= k
  {
    if k == 0 then {} else NotesTo(k - 1) + {k}
  }

  /** The ledger after k setup rounds. */
  function SetupState(n: nat, base: nat, k: nat): State {
    State(
      Elems(Allocated(n)) + (if k >= 4 then {AppAddr(base + 2)} else {}),
      map[], SetupHold(base, k),
      if k >= 1 then map[base + 1 := Asset(ADMIN, ASSET_A_TOTAL, ADMIN, ADMIN, ADMIN)] else map[],
      if k >= 3 then map[base + 2 := App(ADMIN, MainProgram), base + 3 := App(ADMIN, CalleeProgram)]
      else if k == 2 then map[base + 2 := App(ADMIN, MainProgram)] else map[],
      {}, {}, {}, base + (if k < 3 then k else 3), NotesTo(k))
  }

  /** The closures of setupSteps. */
  function DoSetup(g: Gen, k: nat): (Gen, Planned)
    requires k < SETUP_ROUNDS && 0 < |g.accts|
  {
    match k
    case 0 =>
      var g1 := g.(accts := g.accts[0 := g.accts[0].(optA := true, balA := ASSET_A_TOTAL)], nextId := g.nextId + 1);
      var (g2, p) := Emit(g1, AssetCreate(ADMIN, ASSET_A_TOTAL), ADMIN);
      (g2, p.(onCommit := SetAssetA))
    case 1 =>
      var (g2, p) := Emit(g.(nextId := g.nextId + 1), AppCreate(ADMIN, MainProgram), ADMIN);
      (g2, p.(onCommit := SetMainApp))
    case 2 =>
      var (g2, p) := Emit(g.(nextId := g.nextId + 1), AppCreate(ADMIN, CalleeProgram), ADMIN);
      (g2, p.(onCommit := SetCalleeApp))
    case 3 => Emit(g, Plain(ADMIN, AppAddr(g.mainApp)), ADMIN)
    case 4 => Emit(g, AppCall(ADMIN, g.mainApp, NoOp, OptAsset(g.assetA)), ADMIN)
    case 5 =>
      Emit(g.(accts := SetBal(g.accts, 0, Sub64(g.accts[0].balA, APP_ASSET_FUND))),
           Transfer(ADMIN, g.assetA, APP_ASSET_FUND, AppAddr(g.mainApp)), ADMIN)
  }

  /** Each setup transaction is accepted and, once committed, leaves generator and ledger one round
      further. */
  lemma SetupRound(n: nat, rounds: nat, base: nat, k: nat)
    requires n > 0 && k < SETUP_ROUNDS
    ensures var (g, p) := DoSetup(BeginRound(SetupGen(n, rounds, base, k)), k);
      && |p.txns| == 1 && p.txns[0].signer == ADMIN
      && Exec(SetupState(n, base, k), p.txns) == Some(SetupState(n, base, k + 1))
      && OnCommit(g, p.onCommit, ApplyData(SetupState(n, base, k), p.txns)[0]) == SetupGen(n, rounds, base, k + 1)
  {
    hide Exec, ApplyData;
    var g0 := BeginRound(SetupGen(n, rounds, base, k));
    var (g, p) := DoSetup(g0, k);
    var s := SetupState(n, base, k);
    SetupApplies(n, rounds, base, k);
    ExecOne(s, p.txns[0]);
    assert p.txns == [p.txns[0]];
    OneApplyData(s, p.txns[0]);
    SetupCommits(n, rounds, base, k);
  }

  lemma OneApplyData(s: State, t: Signed)
    ensures ApplyData(s, [t]) == [Created(s, t)]
  {
    hide Apply, Created;
    assert [t][1..] == [];
  }

  lemma AdminAllocated(n: nat)
    requires n > 0
    ensures ADMIN in Elems(Allocated(n))
  {
    assert Allocated(n)[2 + VALIDATORS] == ADMIN;
  }

  /** The ledger after setup transaction k. */
  ghost predicate SetupAccepts(n: nat, rounds: nat, base: nat, k: nat)
    requires n > 0 && k < SETUP_ROUNDS
  {
    var p := DoSetup(BeginRound(SetupGen(n, rounds, base, k)), k).1;
    Apply(SetupState(n, base, k), p.txns[0]) == Some(SetupState(n, base, k + 1))
  }

  lemma CreatesAsset(n: nat, rounds: nat, base: nat)
    requires n > 0
    ensures SetupAccepts(n, rounds, base, 0)
  {
    hide Elems, Allocated, SetupAccts, Sub64, NotesTo;
    AdminAllocated(n);
    NextNote(0);
    var s, s' := SetupState(n, base, 0), SetupState(n, base, 1);
    assert s'.hold == s.hold[(ADMIN, base + 1) := Holding(ASSET_A_TOTAL, false)];
  }

  lemma CreatesMain(n: nat, rounds: nat, base: nat)
    requires n > 0
    ensures SetupAccepts(n, rounds, base, 1)
  {
    hide Elems, Allocated, SetupAccts, Sub64, NotesTo;
    AdminAllocated(n);
    NextNote(1);
    var s, s' := SetupState(n, base, 1), SetupState(n, base, 2);
    assert s'.apps == s.apps[base + 2 := App(ADMIN, MainProgram)];
  }

  lemma CreatesCallee(n: nat, rounds: nat, base: nat)
    requires n > 0
    ensures SetupAccepts(n, rounds, base, 2)
  {
    hide Elems, Allocated, SetupAccts, Sub64, NotesTo;
    AdminAllocated(n);
    NextNote(2);
    var s, s' := SetupState(n, base, 2), SetupState(n, base, 3);
    assert s'.apps == s.apps[base + 3 := App(ADMIN, CalleeProgram)];
  }

  lemma FundsMain(n: nat, rounds: nat, base: nat)
    requires n > 0
    ensures SetupAccepts(n, rounds, base, 3)
  {
    hide Elems, Allocated, SetupAccts, Sub64, NotesTo;
    AdminAllocated(n);
    NextNote(3);
    var s, s' := SetupState(n, base, 3), SetupState(n, base, 4);
    assert s'.live == s.live + {AppAddr(base + 2)};
  }

  lemma OptsMainIn(n: nat, rounds: nat, base: nat)
    requires n > 0
    ensures SetupAccepts(n, rounds, base, 4)
  {
    hide Elems, Allocated, SetupAccts, Sub64, NotesTo;
    AdminAllocated(n);
    NextNote(4);
    var s, s' := SetupState(n, base, 4), SetupState(n, base, 5);
    assert s'.hold == s.hold[(AppAddr(base + 2), base + 1) := Holding(0, false)];
  }

  lemma SendsUnits(n: nat, rounds: nat, base: nat)
    requires n > 0
    ensures SetupAccepts(n, rounds, base, 5)
  {
    hide Elems, Allocated, SetupAccts, Sub64, NotesTo;
    AdminAllocated(n);
    NextNote(5);
    var s, s' := SetupState(n, base, 5), SetupState(n, base, 6);
    assert s'.hold == s.hold[(ADMIN, base + 1) := Holding(ASSET_A_TOTAL - APP_ASSET_FUND, false)]
                         [(AppAddr(base + 2), base + 1) := Holding(APP_ASSET_FUND, false)];
  }

  lemma NextNote(k: nat)
    ensures NotesTo(k) + {k + 1} == NotesTo(k + 1) && k + 1 !in NotesTo(k)
  {
  }

  lemma SetupApplies(n: nat, rounds: nat, base: nat, k: nat)
    requires n > 0 && k < SETUP_ROUNDS
    ensures SetupAccepts(n, rounds, base, k)
  {
    hide SetupAccepts;
    match k
    case 0 => CreatesAsset(n, rounds, base);
    case 1 => CreatesMain(n, rounds, base);
    case 2 => CreatesCallee(n, rounds, base);
    case 3 => FundsMain(n, rounds, base);
    case 4 => OptsMainIn(n, rounds, base);
    case 5 => SendsUnits(n, rounds, base);
  }

  lemma SetupCommits(n: nat, rounds: nat, base: nat, k: nat)
    requires n > 0 && k < SETUP_ROUNDS
    ensures var (g, p) := DoSetup(BeginRound(SetupGen(n, rounds, base, k)), k);
      OnCommit(g, p.onCommit, Created(SetupState(n, base, k), p.txns[0])) == SetupGen(n, rounds, base, k + 1)
  {
    hide Elems, Allocated;
    var g0 := BeginRound(SetupGen(n, rounds, base, k));
    assert g0.sched == map[];
    var a, a' := SetupAccts(n, k), SetupAccts(n, k + 1);
    assert a[0 := AdminAcct(k + 1)] == a';
    assert g0.known + [] == g0.known;
  }

  /** After setup the invariant holds. */
  lemma SetupDone(n: nat, rounds: nat, base: nat)
    requires n > 0 && SETUP_ROUNDS <= rounds
    ensures Inv(SetupGen(n, rounds, base, 6), SetupState(n, base, 6))
    ensures AllKnown(SetupGen(n, rounds, base, 6))
  {
    hide Schedule, Matches, Counts, AllKnown, SetupGen, SetupState;
    SetupSchedule(n, rounds, base);
    SetupMatches(n, rounds, base);
    SetupCounts(n, rounds, base);
    SetupKnown(n, rounds, base);
  }

  lemma SetupSchedule(n: nat, rounds: nat, base: nat)
    requires n > 0
    ensures Schedule(SetupGen(n, rounds, base, 6))
  {
    hide Allocated;
    var g := SetupGen(n, rounds, base, 6);
    assert forall r: nat :: At(g, r) == [];
  }

  lemma SetupMatches(n: nat, rounds: nat, base: nat)
    requires n > 0
    ensures Matches(SetupGen(n, rounds, base, 6), SetupState(n, base, 6))
  {
    hide Allocated;
    var g, s := SetupGen(n, rounds, base, 6), SetupState(n, base, 6);
    forall i | 0 <= i < |g.accts|
      ensures AcctMatch(g, s, i)
    {
      AccountAllocated(n, i);
    }
  }

  lemma AccountAllocated(n: nat, i: nat)
    requires i < n
    ensures Account(i) in Elems(Allocated(n))
  {
    assert Allocated(n)[2 + VALIDATORS + i] == Account(i);
  }

  lemma SetupKnown(n: nat, rounds: nat, base: nat)
    requires n > 0
    ensures AllKnown(SetupGen(n, rounds, base, 6))
  {
    hide Allocated;
    var g := SetupGen(n, rounds, base, 6);
    forall i | 0 <= i < |g.accts|
      ensures Account(i) in g.known
    {
      AccountAllocated(n, i);
    }
  }

  lemma {:induction false} SumFresh(m: nat)
    ensures SumBal(seq(m, _ => FreshAcct())) == 0
  {
    if m > 0 {
      var s := seq(m, _ => FreshAcct());
      assert s[1..] == seq(m - 1, _ => FreshAcct());
      SumFresh(m - 1);
    }
  }

  lemma SetupCounts(n: nat, rounds: nat, base: nat)
    requires n > 0 && SETUP_ROUNDS <= rounds
    ensures Counts(SetupGen(n, rounds, base, 6))
  {
    hide Allocated;
    var g := SetupGen(n, rounds, base, 6);
    SumFresh(n - 1);
    assert g.accts[1..] == seq(n - 1, _ => FreshAcct());
  }
}

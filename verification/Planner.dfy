/** The workload generator of benchmarks/go-corpus/workload.go as a state and the functions that
    change it: what each planned action and each deferred step emits and records. */
module Planner {
  import opened Optional
  import opened Ledger

  const APP_ASSET_FUND: nat := 1_000_000_000_000
  const ASSET_A_TOTAL: nat := 10_000_000_000_000
  const OPT_IN_GRANT: nat := 1_000_000
  const EPHEMERAL_UNITS: nat := 3
  const U64: nat := 0x1_0000_0000_0000_0000

  /** uint64 arithmetic. */
  function Sub64(a: nat, b: nat): nat { (a - b) % U64 }
  function Add64(a: nat, b: nat): nat { (a + b) % U64 }

  /** The generator's record of one workload account. `auth` is None while the account signs with
      its own key; `reserved` is the last round in which a lifecycle owns it. */
  datatype Acct = Acct(auth: Option<Addr>, optA: bool, balA: nat, optApp: bool, online: bool, reserved: nat)

  /** The closures that the source schedules for a later round, by what they do. */
  datatype Step =
    | Grant(x: nat)
    | Unfreeze(x: nat)
    | RekeyedPay(x: nat)
    | RekeyBack(x: nat)
    | GoOffline(x: nat)
    | EphOptIn(e: nat)
    | EphGrant(e: nat)
    | EphCloseAsset(e: nat)
    | EphClosePay(e: nat, f: nat)
    | AppStep(t: nat, oc: Completion)
    | AssetReconfig(t: nat)
    | AssetDestroyStep(t: nat)

  /** How far an ephemeral account has come. */
  datatype Phase = Opened | OptedIn | Granted | AssetClosed | Gone

  datatype Eph = Eph(start: nat, funder: nat, phase: Phase)

  /** A throwaway app or asset: `id` is what the generator knows (0 until the creating block is
      committed), `actual` the id the ledger gave it. */
  datatype Throw = Throw(creator: nat, isApp: bool, start: nat, id: nat, actual: nat, dead: bool)

  /** What a group's onCommit callback stores. */
  datatype Commit = NoCommit | SetAssetA | SetMainApp | SetCalleeApp | SetThrow(t: nat)

  datatype Planned = Planned(txns: seq<Signed>, onCommit: Commit)

  /** The generator's state. `todo` holds the steps of the current round that have not run yet;
      `eph`, `frozen`, `granted`, `inners` and `nextId` record history that the source leaves
      implicit. */
  datatype Gen = Gen(
    rounds: nat,
    accts: seq<Acct>,
    round: nat,
    busy: set<nat>,
    sched: map<nat, seq<Step>>,
    todo: seq<Step>,
    boxes: seq<nat>,
    boxCtr: nat,
    noteCtr: nat,
    eph: seq<Eph>,
    throws: seq<Throw>,
    assetA: nat,
    mainApp: nat,
    calleeApp: nat,
    known: seq<Addr>,
    frozen: set<nat>,
    granted: set<nat>,
    inners: nat,
    nextId: nat)

  /** The steps still to run in round r. */
  function At(g: Gen, r: nat): seq<Step> {
    if r == g.round then g.todo else if r in g.sched then g.sched[r] else []
  }

  /** `at`: schedule a step for a later round. */
  function Later(g: Gen, delay: nat, d: Step): Gen
    requires delay > 0
  {
    g.(sched := g.sched[g.round + delay := At(g, g.round + delay) + [d]])
  }

  function AuthAddr(g: Gen, i: nat): Addr
    requires i < |g.accts|
  {
    match g.accts[i].auth
    case None => Account(i)
    case Some(a) => a
  }

  /** A single transaction becomes a group of one; every transaction carries a fresh note. */
  function Emit(g: Gen, tx: Txn, signer: Addr): (Gen, Planned) {
    (g.(noteCtr := g.noteCtr + 1), Planned([Signed(tx, signer, g.noteCtr + 1)], NoCommit))
  }

  function EmitBy(g: Gen, i: nat, tx: Txn): (Gen, Planned)
    requires i < |g.accts|
  {
    Emit(g, tx, AuthAddr(g, i))
  }

  function SetBal(accts: seq<Acct>, i: nat, bal: nat): seq<Acct>
    requires i < |accts|
  {
    accts[i := accts[i].(balA := bal)]
  }

  function Plain(from: Addr, to: Addr): Txn {
    Pay(from, to, None, None)
  }

  function Transfer(from: Addr, id: nat, amt: nat, to: Addr): Txn {
    Axfer(from, id, amt, to, None, None)
  }

  // ---- actions -----------------------------------------------------------------------

  /** An account the random picker may return: not the admin, not used this round, not reserved. */
  predicate Free(g: Gen, i: nat) {
    0 < i < |g.accts| && i !in g.busy && g.accts[i].reserved < g.round
  }

  predicate FreePair(g: Gen, a: nat, b: nat) {
    Free(g, a) && Free(g, b) && a != b
  }

  function Use(g: Gen, xs: set<nat>): Gen {
    g.(busy := g.busy + xs)
  }

  function DoPay(g: Gen, a: nat, b: nat): (Gen, Planned)
    requires FreePair(g, a, b)
  {
    EmitBy(Use(g, {a, b}), a, Plain(Account(a), Account(b)))
  }

  function DoAxfer(g: Gen, a: nat, b: nat, amt: nat): (Gen, Planned)
    requires FreePair(g, a, b)
  {
    var g1 := Use(g, {a, b});
    var accts := SetBal(g1.accts, a, Sub64(g1.accts[a].balA, amt));
    var g2 := g1.(accts := SetBal(accts, b, Add64(accts[b].balA, amt)));
    EmitBy(g2, a, Transfer(Account(a), g.assetA, amt, Account(b)))
  }

  function DoClawback(g: Gen, a: nat, b: nat): (Gen, Planned)
    requires FreePair(g, a, b)
  {
    var g1 := Use(g, {a, b});
    var accts := SetBal(g1.accts, a, Sub64(g1.accts[a].balA, 1));
    var g2 := g1.(accts := SetBal(accts, b, Add64(accts[b].balA, 1)));
    Emit(g2, Axfer(Account(0), g.assetA, 1, Account(b), Some(Account(a)), None), Account(0))
  }

  function DoAssetOptIn(g: Gen, x: nat): (Gen, Planned)
    requires Free(g, x)
  {
    var g1 := Use(g, {x});
    var g2 := g1.(accts := g1.accts[x := g1.accts[x].(optA := true, reserved := g.round + 1)]);
    EmitBy(Later(g2, 1, Grant(x)), x, Transfer(Account(x), g.assetA, 0, Account(x)))
  }

  function DoInc(g: Gen, a: nat): (Gen, Planned)
    requires Free(g, a)
  {
    EmitBy(Use(g, {a}), a, AppCall(Account(a), g.mainApp, NoOp, Inc))
  }

  function DoAppOpt(g: Gen, a: nat, oc: Completion): (Gen, Planned)
    requires Free(g, a)
  {
    var g1 := Use(g, {a});
    EmitBy(g1.(accts := g1.accts[a := g1.accts[a].(optApp := oc == OptIn)]), a,
           AppCall(Account(a), g.mainApp, oc, Bare))
  }

  function DoBoxPut(g: Gen, a: nat): (Gen, Planned)
    requires Free(g, a)
  {
    var n := g.boxCtr + 1;
    EmitBy(Use(g, {a}).(boxCtr := n, boxes := g.boxes + [n]), a, AppCall(Account(a), g.mainApp, NoOp, BoxPut(n)))
  }

  /** Swap-remove: the last name takes the place of the removed one. */
  function DoBoxDel(g: Gen, a: nat, i: nat): (Gen, Planned)
    requires Free(g, a) && i < |g.boxes|
  {
    var last := |g.boxes| - 1;
    EmitBy(Use(g, {a}).(boxes := g.boxes[i := g.boxes[last]][..last]), a,
           AppCall(Account(a), g.mainApp, NoOp, BoxDel(g.boxes[i])))
  }

  function DoInner(g: Gen, a: nat): (Gen, Planned)
    requires Free(g, a)
  {
    var g1 := Use(g, {a});
    EmitBy(g1.(accts := SetBal(g1.accts, a, Add64(g1.accts[a].balA, 1)), inners := g.inners + 1), a,
           AppCall(Account(a), g.mainApp, NoOp, Inner(g.assetA, g.calleeApp)))
  }

  function DoFreeze(g: Gen, x: nat): (Gen, Planned)
    requires Free(g, x)
  {
    var g1 := Use(g, {x});
    var g2 := g1.(accts := g1.accts[x := g1.accts[x].(reserved := g.round + 2)], frozen := g.frozen + {x});
    Emit(Later(g2, 2, Unfreeze(x)), Freeze(Account(0), Account(x), g.assetA, true), Account(0))
  }

  function DoRekey(g: Gen, x: nat, y: nat): (Gen, Planned)
    requires FreePair(g, x, y)
  {
    var g1 := Use(g, {x, y});
    var signer := AuthAddr(g1, x);
    var g2 := g1.(accts := g1.accts[x := g1.accts[x].(reserved := g.round + 3, auth := Some(Account(y)))]);
    Emit(Later(Later(g2, 1, RekeyedPay(x)), 3, RekeyBack(x)),
         Pay(Account(x), Account(x), Some(Account(y)), None), signer)
  }

  function DoCloseOut(g: Gen, f: nat): (Gen, Planned)
    requires Free(g, f)
  {
    var e := |g.eph|;
    var g1 := Use(g, {f}).(eph := g.eph + [Eph(g.round, f, Opened)], known := g.known + [Ephemeral(e)]);
    var g2 := Later(Later(Later(Later(g1, 1, EphOptIn(e)), 2, EphGrant(e)), 3, EphCloseAsset(e)), 3, EphClosePay(e, f));
    EmitBy(g2, f, Plain(Account(f), Ephemeral(e)))
  }

  function DoKeyreg(g: Gen, x: nat): (Gen, Planned)
    requires Free(g, x)
  {
    var g1 := Use(g, {x});
    var g2 := g1.(accts := g1.accts[x := g1.accts[x].(reserved := g.round + 20, online := true)]);
    EmitBy(Later(g2, 20, GoOffline(x)), x, Keyreg(Account(x), true))
  }

  function NewThrow(g: Gen, x: nat, isApp: bool): Gen {
    g.(throws := g.throws + [Throw(x, isApp, g.round, 0, g.nextId + 1, false)], nextId := g.nextId + 1)
  }

  function DoAppLifecycle(g: Gen, x: nat): (Gen, Planned)
    requires Free(g, x)
  {
    var t := |g.throws|;
    var g1 := NewThrow(Use(g, {x}), x, true);
    var g2 := Later(Later(Later(g1, 2, AppStep(t, NoOp)), 4, AppStep(t, Update)), 6, AppStep(t, Delete));
    var (g3, p) := EmitBy(g2, x, AppCreate(Account(x), CalleeProgram));
    (g3, p.(onCommit := SetThrow(t)))
  }

  function DoAssetLifecycle(g: Gen, x: nat): (Gen, Planned)
    requires Free(g, x)
  {
    var t := |g.throws|;
    var g1 := NewThrow(Use(g, {x}), x, false);
    var g2 := Later(Later(g1, 3, AssetReconfig(t)), 6, AssetDestroyStep(t));
    var (g3, p) := EmitBy(g2, x, AssetCreate(Account(x), 1000));
    (g3, p.(onCommit := SetThrow(t)))
  }

  /** The payment that keeps a round from being empty. */
  function DoFiller(g: Gen): (Gen, Planned) {
    Emit(g, Plain(Account(0), Account(0)), Account(0))
  }

  // ---- deferred steps --------------------------------------------------------------------

  predicate StepInRange(g: Gen, d: Step) {
    0 < |g.accts| &&
    match d
    case Grant(x) => x < |g.accts|
    case Unfreeze(x) => x < |g.accts|
    case RekeyedPay(x) => x < |g.accts|
    case RekeyBack(x) => x < |g.accts|
    case GoOffline(x) => x < |g.accts|
    case EphOptIn(e) => e < |g.eph|
    case EphGrant(e) => e < |g.eph|
    case EphCloseAsset(e) => e < |g.eph|
    case EphClosePay(e, f) => e < |g.eph| && f < |g.accts|
    case AppStep(t, _) => t < |g.throws| && g.throws[t].creator < |g.accts|
    case AssetReconfig(t) => t < |g.throws| && g.throws[t].creator < |g.accts|
    case AssetDestroyStep(t) => t < |g.throws| && g.throws[t].creator < |g.accts|
  }

  function SetPhase(g: Gen, e: nat, p: Phase): Gen
    requires e < |g.eph|
  {
    g.(eph := g.eph[e := g.eph[e].(phase := p)])
  }

  function Kill(g: Gen, t: nat): Gen
    requires t < |g.throws|
  {
    g.(throws := g.throws[t := g.throws[t].(dead := true)])
  }

  /** What the closure of a deferred step does. */
  function DoStep(g: Gen, d: Step): (Gen, Planned)
    requires StepInRange(g, d)
  {
    match d
    case Grant(x) =>
      var accts := SetBal(g.accts, 0, Sub64(g.accts[0].balA, OPT_IN_GRANT));
      var accts' := SetBal(accts, x, Add64(accts[x].balA, OPT_IN_GRANT));
      Emit(g.(accts := accts', granted := g.granted + {x}),
           Transfer(Account(0), g.assetA, OPT_IN_GRANT, Account(x)), Account(0))
    case Unfreeze(x) =>
      Emit(Use(g, {x}).(frozen := g.frozen - {x}), Freeze(Account(0), Account(x), g.assetA, false), Account(0))
    case RekeyedPay(x) => EmitBy(Use(g, {x}), x, Plain(Account(x), Account(0)))
    case RekeyBack(x) =>
      var signer := AuthAddr(g, x);
      Emit(Use(g, {x}).(accts := g.accts[x := g.accts[x].(auth := None)]),
           Pay(Account(x), Account(x), Some(Account(x)), None), signer)
    case GoOffline(x) =>
      EmitBy(Use(g, {x}).(accts := g.accts[x := g.accts[x].(online := false)]), x, Keyreg(Account(x), false))
    case EphOptIn(e) =>
      Emit(SetPhase(g, e, OptedIn), Transfer(Ephemeral(e), g.assetA, 0, Ephemeral(e)), Ephemeral(e))
    case EphGrant(e) =>
      var g1 := g.(accts := SetBal(g.accts, 0, Sub64(g.accts[0].balA, EPHEMERAL_UNITS)));
      Emit(SetPhase(g1, e, Granted), Transfer(Account(0), g.assetA, EPHEMERAL_UNITS, Ephemeral(e)), Account(0))
    case EphCloseAsset(e) =>
      var g1 := g.(accts := SetBal(g.accts, 0, Add64(g.accts[0].balA, EPHEMERAL_UNITS)));
      Emit(SetPhase(g1, e, AssetClosed),
           Axfer(Ephemeral(e), g.assetA, 0, Account(0), None, Some(Account(0))), Ephemeral(e))
    case EphClosePay(e, f) =>
      Emit(SetPhase(g, e, Gone), Pay(Ephemeral(e), Account(f), None, Some(Account(f))), Ephemeral(e))
    case AppStep(t, oc) =>
      var th := g.throws[t];
      var g1 := Use(g, {th.creator});
      EmitBy(if oc == Delete then Kill(g1, t) else g1, th.creator, AppCall(Account(th.creator), th.id, oc, Bare))
    case AssetReconfig(t) =>
      var th := g.throws[t];
      var a := Account(th.creator);
      EmitBy(Use(g, {th.creator}), th.creator, AssetConfig(a, th.id, a, a, a))
    case AssetDestroyStep(t) =>
      var th := g.throws[t];
      EmitBy(Kill(Use(g, {th.creator}), t), th.creator, AssetDestroy(Account(th.creator), th.id))
  }

  /** Run the next deferred step of the round. */
  function RunStep(g: Gen): (Gen, Planned)
    requires g.todo != [] && StepInRange(g, g.todo[0])
  {
    DoStep(g.(todo := g.todo[1..]), g.todo[0])
  }

  // ---- rounds ----------------------------------------------------------------------------

  /** The start of planRound: nothing is busy and the round's scheduled steps come up. */
  function BeginRound(g: Gen): Gen {
    var r := g.round + 1;
    g.(round := r, busy := {}, todo := if r in g.sched then g.sched[r] else [], sched := g.sched - {r})
  }

  /** onCommit of one group, given the id its first transaction created. */
  function OnCommit(g: Gen, c: Commit, id: nat): Gen {
    match c
    case NoCommit => g
    case SetAssetA => g.(assetA := id)
    case SetMainApp => g.(mainApp := id, known := g.known + [AppAddr(id)])
    case SetCalleeApp => g.(calleeApp := id, known := g.known + [AppAddr(id)])
    case SetThrow(t) => if t < |g.throws| then g.(throws := g.throws[t := g.throws[t].(id := id)]) else g
  }
}

/** Asset A as the ledger sees it: however a run has gone, its units are all accounted for. */
module Conservation {
  import opened Ledger
  import opened Planner
  import opened PlannerInv
  import opened PlannerSteps
  import opened PlannerCounts
  import opened PlannerActions
  import opened PlannerResources
  import opened PlannerDeferred
  import opened PlannerRun

  function Units(s: State, a: Addr, id: nat): nat {
    if (a, id) in s.hold then s.hold[(a, id)].amt else 0
  }

  /** What the workload accounts from i on hold. */
  function AccountUnits(s: State, id: nat, i: nat, n: nat): nat
    requires i <= n
    decreases n - i
  {
    if i == n then 0 else Units(s, Account(i), id) + AccountUnits(s, id, i + 1, n)
  }

  function EphemeralUnits(s: State, id: nat, e: nat, m: nat): nat
    requires e <= m
    decreases m - e
  {
    if e == m then 0 else Units(s, Ephemeral(e), id) + EphemeralUnits(s, id, e + 1, m)
  }

  lemma {:induction false} AccountsHold(g: Gen, s: State, i: nat)
    requires Accounts(g, s) && i <= |g.accts|
    ensures AccountUnits(s, g.assetA, i, |g.accts|) == SumBal(g.accts[i..])
    decreases |g.accts| - i
  {
    if i < |g.accts| {
      assert AcctMatch(g, s, i);
      assert g.accts[i..][1..] == g.accts[i + 1..];
      AccountsHold(g, s, i + 1);
    }
  }

  lemma {:induction false} EphemeralsHold(g: Gen, s: State, e: nat)
    requires Ephs(g, s) && e <= |g.eph|
    ensures EphemeralUnits(s, g.assetA, e, |g.eph|) == EPHEMERAL_UNITS * InFlight(g.eph[e..])
    decreases |g.eph| - e
  {
    if e < |g.eph| {
      assert EphMatch(g, s, e);
      assert g.eph[e..][1..] == g.eph[e + 1..];
      EphemeralsHold(g, s, e + 1);
    }
  }

  /** In every state a run can reach, the holdings of the accounts, of the ephemeral accounts and of
      the main application add up to the whole supply. */
  lemma Conserved(g: Gen, s: State)
    requires Inv(g, s)
    ensures AccountUnits(s, g.assetA, 0, |g.accts|) + EphemeralUnits(s, g.assetA, 0, |g.eph|)
            + Units(s, AppAddr(g.mainApp), g.assetA) == ASSET_A_TOTAL
  {
    hide Schedule, Accounts, Ephs, Boxes, Throws, AccountUnits, EphemeralUnits;
    AccountsHold(g, s, 0);
    EphemeralsHold(g, s, 0);
    assert g.accts[0..] == g.accts && g.eph[0..] == g.eph;
  }

  // ---- uint64 balances never wrap ---------------------------------------------------------------------

  /** What a regular action moves to or from the record of account i. */
  function ActionDelta(act: Action, i: nat): int {
    match act
    case ActAxfer(a, b, amt) => if i == a then 0 - amt else if i == b then amt else 0
    case ActClawback(a, b) => if i == a then -1 else if i == b then 1 else 0
    case ActInner(a) => if i == a then 1 else 0
    case _ => 0
  }

  /** The generator's uint64 updates are the true sums and differences: nothing underflows. */
  lemma ActionExact(g: Gen, s: State, act: Action, i: nat)
    requires Inv(g, s) && Enabled(g, act) && i < |g.accts|
    ensures |Do(g, act).0.accts| == |g.accts|
    ensures Do(g, act).0.accts[i].balA == g.accts[i].balA + ActionDelta(act, i)
  {
    hide Schedule, Matches, Counts, Sub64, Add64, At;
    match act
    case ActAxfer(a, b, amt) => TransferRecords(g, a, b, amt);
    case ActClawback(a, b) => TransferRecords(g, a, b, 1);
    case ActInner(a) => InnerBalance(g, a);
    case _ =>
  }

  /** What a deferred step moves. */
  function StepDelta(d: Step, i: nat): int {
    match d
    case Grant(x) => if i == 0 then 0 - OPT_IN_GRANT else if i == x then OPT_IN_GRANT else 0
    case EphGrant(_) => if i == 0 then 0 - EPHEMERAL_UNITS else 0
    case EphCloseAsset(_) => if i == 0 then EPHEMERAL_UNITS else 0
    case _ => 0
  }

  /** The same for a deferred step, exactly when the admin is not short of the units it moves. */
  lemma StepExact(g: Gen, s: State, i: nat)
    requires Inv(g, s) && g.todo != [] && i < |g.accts|
    ensures StepInRange(g, g.todo[0]) && |RunStep(g).0.accts| == |g.accts|
    ensures RunStep(g).0.accts[i].balA == g.accts[i].balA + StepDelta(g.todo[0], i) <==> i != 0 || !ShortStep(g)
  {
    hide Orderly, Lifecycles, Closings, Boxes, Accounts, Ephs, Throws, Counts, At;
    HeadInRange(g, s);
    match g.todo[0]
    case Grant(x) => GrantExact(g, x);
    case EphGrant(e) => AdminExact(g, EPHEMERAL_UNITS);
    case EphCloseAsset(e) =>
      PhaseReached(g);
      EphCloseSupply(g, e);
      AdminExact(g, EPHEMERAL_UNITS);
    case _ =>
  }

  lemma GrantExact(g: Gen, x: nat)
    requires Counts(g) && 0 < x < |g.accts|
    ensures Sub64(g.accts[0].balA, OPT_IN_GRANT) == g.accts[0].balA - OPT_IN_GRANT <==> OPT_IN_GRANT <= g.accts[0].balA
    ensures Add64(g.accts[x].balA, OPT_IN_GRANT) == g.accts[x].balA + OPT_IN_GRANT
  {
    SumBalUpdate(g.accts, x, g.accts[x]);
  }
}

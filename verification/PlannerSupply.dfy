/** The units that the plan counts on: which steps draw on a fixed supply, exactly when the ledger
    refuses them, and why they are never short within the bounds. */
module PlannerSupply {
  import opened Ledger
  import opened Planner
  import opened PlannerInv
  import opened PlannerSched
  import opened PlannerSteps
  import opened PlannerCounts
  import opened PlannerActions
  import opened PlannerDeferred
  import opened PlannerRun

  /** For any number of accounts: a grant is accepted exactly when the admin's recorded balance covers
      it. When it does not, the unsigned record wraps around. */
  lemma GrantNeedsUnits(g: Gen, s: State)
    requires Schedule(g) && Matches(g, s) && g.todo != [] && g.todo[0].Grant? && StepInRange(g, g.todo[0])
    ensures Exec(s, RunStep(g).1.txns).Some? <==> OPT_IN_GRANT <= g.accts[0].balA
    ensures g.accts[0].balA < OPT_IN_GRANT ==> RunStep(g).0.accts[0].balA == U64 - (OPT_IN_GRANT - g.accts[0].balA)
  {
    hide Orderly, Lifecycles, Closings, Boxes, Ephs, Throws, Accounts, Exec;
    HeadAllowed(g);
    var x := g.todo[0].x;
    AdminAuth(g, s);
    HoldsOf(g, s, 0);
    HoldsOf(g, s, x);
    Accepted(g, s, Transfer(ADMIN, g.assetA, OPT_IN_GRANT, Account(x)), ADMIN);
  }

  /** The same for the units lent to an ephemeral account. */
  lemma EphGrantNeedsUnits(g: Gen, s: State)
    requires Schedule(g) && Matches(g, s) && g.todo != [] && g.todo[0].EphGrant? && StepInRange(g, g.todo[0])
    ensures Exec(s, RunStep(g).1.txns).Some? <==> EPHEMERAL_UNITS <= g.accts[0].balA
    ensures g.accts[0].balA < EPHEMERAL_UNITS ==>
              RunStep(g).0.accts[0].balA == U64 - (EPHEMERAL_UNITS - g.accts[0].balA)
  {
    hide Orderly, Lifecycles, Closings, Boxes, Throws, Accounts, Ephs, Exec;
    PhaseReached(g);
    var e := g.todo[0].e;
    EphAuth(g, s, e);
    AdminAuth(g, s);
    HoldsOf(g, s, 0);
    Accepted(g, s, Transfer(ADMIN, g.assetA, EPHEMERAL_UNITS, Ephemeral(e)), ADMIN);
  }

  /** For any number of rounds: an inner transfer is accepted exactly when the main application still
      has a unit. */
  lemma InnerNeedsUnits(g: Gen, s: State, a: nat)
    requires Schedule(g) && Matches(g, s) && Free(g, a) && g.accts[a].optA
    ensures Exec(s, DoInner(g, a).1.txns).Some? <==> g.inners < APP_ASSET_FUND
  {
    hide Boxes, Ephs, Throws, Accounts, Exec, Add64;
    AcctAuth(g, s, a);
    HoldsOf(g, s, a);
    IdleFlags(g, a);
    Accepted(g, s, AppCall(Account(a), g.mainApp, NoOp, Inner(g.assetA, g.calleeApp)), AuthAddr(g, a));
  }

  // ---- the same for every step and action ---------------------------------------------------------

  /** A deferred step that is short of units is refused. */
  lemma ShortStepFails(g: Gen, s: State)
    requires Inv(g, s) && g.todo != [] && ShortStep(g)
    ensures StepInRange(g, g.todo[0]) && Exec(s, RunStep(g).1.txns).None?
  {
    hide Schedule, Matches, Counts, Exec, RunStep;
    HeadInRange(g, s);
    match g.todo[0]
    case Grant(_) => GrantNeedsUnits(g, s);
    case EphGrant(_) => EphGrantNeedsUnits(g, s);
  }

  lemma ShortActionFails(g: Gen, s: State, act: Action)
    requires Inv(g, s) && Enabled(g, act) && ShortAction(g, act)
    ensures Exec(s, Do(g, act).1.txns).None?
  {
    hide Schedule, Matches, Counts, Exec, DoInner;
    InnerNeedsUnits(g, s, act.a);
  }

  /** Within the bounds, no action is short of units. */
  lemma ActionSupplied(g: Gen, s: State, act: Action)
    requires Inv(g, s) && Enabled(g, act) && Fits(|g.accts|, g.rounds)
    ensures !ShortAction(g, act)
  {
    hide Schedule, Matches, Counts, Fits;
    if act.ActInner? { InnerSupply(g, act.a); }
  }
}

/** Every deferred step is accepted by the ledger when its round comes, and keeps the invariant. */
module PlannerDeferred {
  import opened Optional
  import opened Ledger
  import opened Planner
  import opened PlannerInv
  import opened PlannerSteps
  import opened PlannerMatch
  import opened PlannerCounts
  import opened PlannerActions

  lemma ClosingSoonHolds(g: Gen)
    requires Schedule(g)
    ensures ClosingSoon(g)
  {
    hide Allowed, Undone, HoldingFirst;
    forall e | 0 <= e < |g.eph| && g.eph[e].phase.Granted?
      ensures g.round <= g.eph[e].start + 3
    {
      assert Onward(g, e);
    }
  }

  /** The step at the head of the round's list finds the state it expects. */
  lemma HeadAllowed(g: Gen)
    requires Orderly(g) && g.todo != []
    ensures Allowed(g, g.round, g.todo[0])
  {
    assert g.todo[0] in At(g, g.round);
  }

  lemma HeadInRange(g: Gen, s: State)
    requires Inv(g, s) && g.todo != []
    ensures StepInRange(g, g.todo[0]) && Allowed(g, g.round, g.todo[0])
  {
    hide Lifecycles, Closings, Accounts, Boxes, Ephs, InFlight, OpenedIn, SumBal;
    HeadAllowed(g);
    match g.todo[0]
    case EphClosePay(e, f) => assert g.eph[e].funder < |g.accts|;
    case AppStep(t, _) => assert ThrowMatch(g, s, t);
    case AssetReconfig(t) => assert ThrowMatch(g, s, t);
    case AssetDestroyStep(t) => assert ThrowMatch(g, s, t);
    case _ =>
  }

  lemma GrantSim(g: Gen, s: State)
    requires Inv(g, s) && g.todo != [] && g.todo[0].Grant? && StepInRange(g, g.todo[0]) && !ShortStep(g)
    ensures Simulates(s, RunStep(g))
  {
    hide Orderly, Lifecycles, Closings, Counts, Boxes, Ephs, Throws, Exec, Sub64, Add64;
    HeadAllowed(g);
    var x := g.todo[0].x;
    AdminAuth(g, s);
    HoldsOf(g, s, 0);
    HoldsOf(g, s, x);
    TransferRecords(g, 0, x, OPT_IN_GRANT);
    var (g', p) := RunStep(g);
    Accepted(g, s, Transfer(ADMIN, g.assetA, OPT_IN_GRANT, Account(x)), ADMIN);
    TransferMatches(g, s, g', 0, x, OPT_IN_GRANT);
    MovedSum(g.accts, 0, x, OPT_IN_GRANT);
    GrantCounts(g, g', x);
    GrantSchedule(g);
  }

  lemma UnfreezeSim(g: Gen, s: State)
    requires Inv(g, s) && g.todo != [] && g.todo[0].Unfreeze? && StepInRange(g, g.todo[0])
    ensures Simulates(s, RunStep(g))
  {
    hide Orderly, Lifecycles, Closings, Counts, Boxes, Ephs, Throws, Exec;
    HeadAllowed(g);
    var x := g.todo[0].x;
    AdminAuth(g, s);
    HoldsOf(g, s, x);
    var (g', p) := RunStep(g);
    Accepted(g, s, Freeze(ADMIN, Account(x), g.assetA, false), ADMIN);
    var s1 := Noted(s, g.noteCtr + 1);
    var k := (Account(x), g.assetA);
    var s' := s1.(hold := s1.hold[k := s1.hold[k].(frozen := false)]);
    assert Exec(s, p.txns) == Some(s');
    OneAcctMatches(g, s, g', s', x);
    BusyCounts(g, g', {x});
    UnfreezeSchedule(g);
  }

  lemma RekeyedPaySim(g: Gen, s: State)
    requires Inv(g, s) && g.todo != [] && g.todo[0].RekeyedPay? && StepInRange(g, g.todo[0])
    ensures Simulates(s, RunStep(g))
  {
    hide Orderly, Lifecycles, Closings, Counts, Boxes, Ephs, Throws, Exec;
    HeadAllowed(g);
    var x := g.todo[0].x;
    AcctAuth(g, s, x);
    AdminAuth(g, s);
    var (g', p) := RunStep(g);
    Accepted(g, s, Plain(Account(x), ADMIN), AuthAddr(g, x));
    var s' := Noted(s, g.noteCtr + 1);
    assert s'.live + {ADMIN} == s'.live;
    assert Exec(s, p.txns) == Some(s');
    QuietMatches(g, s, g', s');
    BusyCounts(g, g', {x});
    RekeyedPaySchedule(g);
  }

  lemma RekeyBackSim(g: Gen, s: State)
    requires Inv(g, s) && g.todo != [] && g.todo[0].RekeyBack? && StepInRange(g, g.todo[0])
    ensures Simulates(s, RunStep(g))
  {
    hide Orderly, Lifecycles, Closings, Counts, Boxes, Ephs, Throws, Exec;
    HeadAllowed(g);
    var x := g.todo[0].x;
    AcctAuth(g, s, x);
    HoldsOf(g, s, x);
    var (g', p) := RunStep(g);
    Accepted(g, s, Pay(Account(x), Account(x), Some(Account(x)), None), AuthAddr(g, x));
    var s1 := Noted(s, g.noteCtr + 1);
    assert s1.live + {Account(x)} == s1.live;
    var s' := s1.(auth := s1.auth - {Account(x)});
    assert Exec(s, p.txns) == Some(s');
    OneAcctMatches(g, s, g', s', x);
    OneAcctCounts(g, g', x);
    RekeyBackSchedule(g);
  }

  lemma GoOfflineSim(g: Gen, s: State)
    requires Inv(g, s) && g.todo != [] && g.todo[0].GoOffline? && StepInRange(g, g.todo[0])
    ensures Simulates(s, RunStep(g))
  {
    hide Orderly, Lifecycles, Closings, Counts, Boxes, Ephs, Throws, Exec;
    HeadAllowed(g);
    var x := g.todo[0].x;
    AcctAuth(g, s, x);
    HoldsOf(g, s, x);
    var (g', p) := RunStep(g);
    Accepted(g, s, Keyreg(Account(x), false), AuthAddr(g, x));
    var s1 := Noted(s, g.noteCtr + 1);
    var s' := s1.(online := s1.online - {Account(x)});
    assert Exec(s, p.txns) == Some(s');
    OneAcctMatches(g, s, g', s', x);
    OneAcctCounts(g, g', x);
    GoOfflineSchedule(g);
  }

  // ---- ephemeral accounts ------------------------------------------------------------------------

  lemma EphAuth(g: Gen, s: State, e: nat)
    requires Ephs(g, s) && e < |g.eph| && !g.eph[e].phase.Gone?
    ensures Ephemeral(e) in s.live && AuthOf(s, Ephemeral(e)) == Ephemeral(e) && EphMatch(g, s, e)
  {
    assert EphMatch(g, s, e);
  }

  /** A change of one ephemeral's phase and holding, and possibly of the admin's balance. */
  lemma OneEphMatches(g: Gen, s: State, g': Gen, s': State, e: nat)
    requires Matches(g, s) && e < |g.eph| == |g'.eph| && |g'.accts| == |g.accts|
    requires g' == g.(todo := g'.todo, noteCtr := g.noteCtr + 1, eph := g.eph[e := g'.eph[e]],
                      accts := g.accts[0 := g.accts[0].(balA := g'.accts[0].balA)])
    requires s' == s.(notes := s.notes + {g.noteCtr + 1}, hold := s'.hold, live := s'.live)
    requires forall k | k != (Ephemeral(e), g.assetA) && k != (ADMIN, g.assetA) :: HoldsSame(s, s', k)
    requires s.live - {Ephemeral(e)} <= s'.live && AcctMatch(g', s', 0) && EphMatch(g', s', e)
    ensures Matches(g', s')
  {
    hide Boxes, Accounts, Throws;
    NotesFit(g, s);
    AccountsFrame(g, s, g', s', {0});
    BoxesFrame(g, s, g', s');
    BooksFrame(g, s, g', s');
    ThrowsFrame(g, s, g', s');
    forall x: nat | |g.eph| <= x
      ensures (Ephemeral(x), g.assetA) !in s'.hold
    {
      assert HoldsSame(s, s', (Ephemeral(x), g.assetA));
    }
    forall k | k in s'.hold && k !in s.hold && k.0.Ephemeral?
      ensures k.1 == g.assetA
    {
      assert k == (Ephemeral(e), g.assetA) || k == (ADMIN, g.assetA) || HoldsSame(s, s', k);
    }
    EphsFrame(g, s, g', s', {e});
  }

  lemma EphOptInSim(g: Gen, s: State)
    requires Inv(g, s) && g.todo != [] && g.todo[0].EphOptIn? && StepInRange(g, g.todo[0])
    ensures Simulates(s, RunStep(g))
  {
    hide Schedule, Counts, Boxes, Throws, Exec;
    PhaseReached(g);
    var e := g.todo[0].e;
    EphAuth(g, s, e);
    HoldsOf(g, s, 0);
    var (g', p) := RunStep(g);
    Accepted(g, s, Transfer(Ephemeral(e), g.assetA, 0, Ephemeral(e)), Ephemeral(e));
    var s1 := Noted(s, g.noteCtr + 1);
    var s' := s1.(hold := s1.hold[(Ephemeral(e), g.assetA) := Holding(0, false)]);
    assert Exec(s, p.txns) == Some(s');
    OneEphMatches(g, s, g', s', e);
    EphUpdate(g.eph, e, OptedIn);
    EphCounts(g, g', e, OptedIn);
    EphStepSchedule(g);
  }

  /** A phase change that moves no units. */
  lemma EphCounts(g: Gen, g': Gen, e: nat, p: Phase)
    requires Counts(g) && e < |g.eph| && !g.eph[e].phase.Granted? && !p.Granted?
    requires g' == g.(todo := g'.todo, noteCtr := g'.noteCtr, eph := g.eph[e := g.eph[e].(phase := p)])
    ensures Counts(g')
  {
    EphUpdate(g.eph, e, p);
    PhaseCounts(g, g', e, p);
  }

  lemma EphGrantSim(g: Gen, s: State)
    requires Inv(g, s) && g.todo != [] && g.todo[0].EphGrant? && StepInRange(g, g.todo[0]) && !ShortStep(g)
    ensures Simulates(s, RunStep(g))
  {
    hide Orderly, Lifecycles, Closings, Counts, Boxes, Throws, Exec, Sub64;
    PhaseReached(g);
    HeadAllowed(g);
    var e := g.todo[0].e;
    EphAuth(g, s, e);
    AdminAuth(g, s);
    HoldsOf(g, s, 0);
    AdminExact(g, EPHEMERAL_UNITS);
    var (g', p) := RunStep(g);
    Accepted(g, s, Transfer(ADMIN, g.assetA, EPHEMERAL_UNITS, Ephemeral(e)), ADMIN);
    var s' := Moved(Noted(s, g.noteCtr + 1), g.assetA, ADMIN, Ephemeral(e), EPHEMERAL_UNITS);
    assert Exec(s, p.txns) == Some(s');
    OneEphMatches(g, s, g', s', e);
    EphGrantCounts(g, g', e);
    EphStepSchedule(g);
  }

  lemma AdminExact(g: Gen, b: nat)
    requires Counts(g)
    ensures b <= g.accts[0].balA ==> Sub64(g.accts[0].balA, b) == g.accts[0].balA - b
    ensures g.accts[0].balA + b <= ASSET_A_TOTAL ==> Add64(g.accts[0].balA, b) == g.accts[0].balA + b
  {
    NoWrap(g.accts[0].balA, b);
  }

  lemma EphGrantCounts(g: Gen, g': Gen, e: nat)
    requires Counts(g) && e < |g.eph| && g.eph[e].phase.OptedIn? && g.eph[e].start + 2 == g.round
    requires EPHEMERAL_UNITS <= g.accts[0].balA
    requires g' == g.(todo := g'.todo, noteCtr := g'.noteCtr, eph := g.eph[e := g.eph[e].(phase := Granted)],
                      accts := g.accts[0 := g.accts[0].(balA := g.accts[0].balA - EPHEMERAL_UNITS)])
    ensures Counts(g')
  {
    hide SumBal, InFlight, OpenedIn;
    EphUpdate(g.eph, e, Granted);
    SumBalUpdate(g.accts, 0, g'.accts[0]);
    PhaseCounts(g, g', e, Granted);
  }

  lemma EphCloseAssetSim(g: Gen, s: State)
    requires Inv(g, s) && g.todo != [] && g.todo[0].EphCloseAsset? && StepInRange(g, g.todo[0])
    ensures Simulates(s, RunStep(g))
  {
    hide Orderly, Lifecycles, Closings, Counts, Boxes, Throws, Exec, Add64;
    PhaseReached(g);
    var e := g.todo[0].e;
    EphAuth(g, s, e);
    HoldsOf(g, s, 0);
    EphCloseSupply(g, e);
    AdminExact(g, EPHEMERAL_UNITS);
    var (g', p) := RunStep(g);
    var tx := Axfer(Ephemeral(e), g.assetA, 0, ADMIN, None, Some(ADMIN));
    Accepted(g, s, tx, Ephemeral(e));
    var s1 := Noted(s, g.noteCtr + 1);
    var s2 := Moved(s1, g.assetA, Ephemeral(e), ADMIN, EPHEMERAL_UNITS);
    var s' := s2.(hold := s2.hold - {(Ephemeral(e), g.assetA)});
    CloseApplies(s1, g.assetA, Ephemeral(e));
    assert Exec(s, p.txns) == Some(s');
    OneEphMatches(g, s, g', s', e);
    EphCloseCounts(g, g', e);
    EphStepSchedule(g);
  }

  lemma CloseApplies(s: State, id: nat, e: Addr)
    requires id in s.assets && s.assets[id].creator == ADMIN && e.Ephemeral?
    requires (e, id) in s.hold && (ADMIN, id) in s.hold && s.hold[(e, id)] == Holding(EPHEMERAL_UNITS, false)
    ensures var s2 := Moved(s, id, e, ADMIN, EPHEMERAL_UNITS);
      ApplyBody(s, Axfer(e, id, 0, ADMIN, None, Some(ADMIN))) == Some(s2.(hold := s2.hold - {(e, id)}))
  {
  }

  /** Some units are out, so the admin's balance has room for them to come back. */
  lemma EphCloseSupply(g: Gen, e: nat)
    requires Counts(g) && e < |g.eph| && g.eph[e].phase.Granted?
    ensures g.accts[0].balA + EPHEMERAL_UNITS <= ASSET_A_TOTAL
    ensures 1 <= InFlight(g.eph)
  {
    hide SumBal, OpenedIn;
    EphUpdate(g.eph, e, Opened);
  }

  lemma EphCloseCounts(g: Gen, g': Gen, e: nat)
    requires Counts(g) && e < |g.eph| && g.eph[e].phase.Granted?
    requires g' == g.(todo := g'.todo, noteCtr := g'.noteCtr, eph := g.eph[e := g.eph[e].(phase := AssetClosed)],
                      accts := g.accts[0 := g.accts[0].(balA := g.accts[0].balA + EPHEMERAL_UNITS)])
    ensures Counts(g')
  {
    hide SumBal, InFlight, OpenedIn;
    EphCloseSupply(g, e);
    EphUpdate(g.eph, e, AssetClosed);
    SumBalUpdate(g.accts, 0, g'.accts[0]);
    PhaseCounts(g, g', e, AssetClosed);
  }

  lemma EphClosePaySim(g: Gen, s: State)
    requires Inv(g, s) && g.todo != [] && g.todo[0].EphClosePay? && StepInRange(g, g.todo[0])
    ensures Simulates(s, RunStep(g))
  {
    hide Schedule, Counts, Boxes, Throws, Exec;
    PhaseReached(g);
    var e, f := g.todo[0].e, g.todo[0].f;
    EphAuth(g, s, e);
    AcctAuth(g, s, f);
    HoldsOf(g, s, 0);
    var (g', p) := RunStep(g);
    var tx := Pay(Ephemeral(e), Account(f), None, Some(Account(f)));
    Accepted(g, s, tx, Ephemeral(e));
    var s1 := Noted(s, g.noteCtr + 1);
    var s' := s1.(live := s1.live - {Ephemeral(e)});
    ClosePayApplies(g, s1, e, f);
    assert Exec(s, p.txns) == Some(s');
    OneEphMatches(g, s, g', s', e);
    EphCounts(g, g', e, Gone);
    EphStepSchedule(g);
  }

  /** An ephemeral account whose holding has closed owns nothing, so it may close. */
  lemma ClosePayApplies(g: Gen, s: State, e: nat, f: nat)
    requires Ephemeral(e) in s.live && Account(f) in s.live && (Ephemeral(e), g.assetA) !in s.hold
    requires (forall a | a in s.auth :: a.Account?) && (forall k | k in s.local :: k.0.Account?)
    requires forall k | k in s.hold :: k.0.Ephemeral? ==> k.1 == g.assetA
    requires forall id | id in s.apps :: s.apps[id].creator.Account?
    requires forall id | id in s.assets :: s.assets[id].creator.Account?
    ensures ApplyBody(s, Pay(Ephemeral(e), Account(f), None, Some(Account(f)))) ==
        Some(s.(live := s.live - {Ephemeral(e)}))
  {
    assert OwnsNothing(s, Ephemeral(e));
    assert s.live + {Account(f)} == s.live;
    assert s.auth - {Ephemeral(e)} == s.auth;
    assert s.live - {Ephemeral(e)} + {Account(f)} == s.live - {Ephemeral(e)};
  }

  // ---- throwaways --------------------------------------------------------------------------------------

  /** A throwaway's step knows the id the ledger gave it: the creating block is committed. */
  lemma ThrowKnown(g: Gen, s: State, t: nat)
    requires Throws(g, s) && t < |g.throws| && g.throws[t].start < g.round && !g.throws[t].dead
    ensures ThrowMatch(g, s, t) && g.throws[t].id == g.throws[t].actual
  {
    assert ThrowMatch(g, s, t);
  }

  lemma ThrowCallSim(g: Gen, s: State)
    requires Inv(g, s) && g.todo != [] && StepInRange(g, g.todo[0])
    requires (g.todo[0].AppStep? && g.todo[0].oc != Delete) || g.todo[0].AssetReconfig?
    ensures Simulates(s, RunStep(g))
  {
    hide Orderly, Lifecycles, Closings, Counts, Boxes, Ephs, Throws, Exec;
    HeadAllowed(g);
    var t := g.todo[0].t;
    ThrowKnown(g, s, t);
    var th := g.throws[t];
    AcctAuth(g, s, th.creator);
    var (g', p) := RunStep(g);
    Accepted(g, s, p.txns[0].tx, AuthAddr(g, th.creator));
    var s' := Noted(s, g.noteCtr + 1);
    if g.todo[0].AssetReconfig? { assert s'.assets[th.actual := s'.assets[th.actual]] == s'.assets; }
    assert Exec(s, p.txns) == Some(s');
    QuietMatches(g, s, g', s');
    BusyCounts(g, g', {th.creator});
    ThrowStepSchedule(g);
  }

  lemma AppDeleteSim(g: Gen, s: State)
    requires Inv(g, s) && g.todo != [] && g.todo[0].AppStep? && g.todo[0].oc == Delete && StepInRange(g, g.todo[0])
    ensures Simulates(s, RunStep(g))
  {
    hide Orderly, Lifecycles, Closings, Counts, Boxes, Ephs, Throws, Exec;
    HeadAllowed(g);
    var t := g.todo[0].t;
    ThrowKnown(g, s, t);
    var th := g.throws[t];
    AcctAuth(g, s, th.creator);
    var (g', p) := RunStep(g);
    Accepted(g, s, AppCall(Account(th.creator), th.id, Delete, Bare), AuthAddr(g, th.creator));
    var s' := Noted(s, g.noteCtr + 1).(apps := s.apps - {th.actual});
    assert Exec(s, p.txns) == Some(s');
    KillMatches(g, s, g', s', t);
    BusyCounts(g, g', {th.creator});
    ThrowStepSchedule(g);
  }

  lemma AssetDestroySim(g: Gen, s: State)
    requires Inv(g, s) && g.todo != [] && g.todo[0].AssetDestroyStep? && StepInRange(g, g.todo[0])
    ensures Simulates(s, RunStep(g))
  {
    hide Orderly, Lifecycles, Closings, Counts, Boxes, Ephs, Throws, Exec;
    HeadAllowed(g);
    var t := g.todo[0].t;
    ThrowKnown(g, s, t);
    var th := g.throws[t];
    AcctAuth(g, s, th.creator);
    var (g', p) := RunStep(g);
    Accepted(g, s, AssetDestroy(Account(th.creator), th.id), AuthAddr(g, th.creator));
    var s1 := Noted(s, g.noteCtr + 1);
    var s' := s1.(assets := s1.assets - {th.actual}, hold := s1.hold - {(Account(th.creator), th.actual)});
    assert Exec(s, p.txns) == Some(s');
    KillMatches(g, s, g', s', t);
    BusyCounts(g, g', {th.creator});
    ThrowStepSchedule(g);
  }

  /** Removing one throwaway leaves the rest of the ledger's agreement alone. */
  lemma KillMatches(g: Gen, s: State, g': Gen, s': State, t: nat)
    requires Matches(g, s) && t < |g.throws| && !g.throws[t].dead && ThrowMatch(g, s, t)
    requires g' == g.(busy := g'.busy, todo := g'.todo, noteCtr := g.noteCtr + 1,
                      throws := g.throws[t := g.throws[t].(dead := true)])
    requires var id := g.throws[t].actual;
      && s' == s.(notes := s.notes + {g.noteCtr + 1}, apps := s'.apps, assets := s'.assets, hold := s'.hold)
      && (if g.throws[t].isApp then s'.apps == s.apps - {id} && s'.assets == s.assets && s'.hold == s.hold
          else
            && s'.apps == s.apps && s'.assets == s.assets - {id}
            && s'.hold == s.hold - {(Account(g.throws[t].creator), id)})
    ensures Matches(g', s')
  {
    hide Boxes, Accounts, Ephs;
    NotesFit(g, s);
    AccountsFrame(g, s, g', s', {});
    BoxesFrame(g, s, g', s');
    EphsOffAccounts(g, s, g', s');
    forall u | 0 <= u < |g'.throws|
      ensures ThrowMatch(g', s', u)
    {
      assert ThrowMatch(g, s, u);
      if u < t { assert g.throws[u].actual != g.throws[t].actual; }
      if t < u { assert g.throws[t].actual != g.throws[u].actual; }
    }
  }

  /** Within the bounds, no deferred step is short of units. */
  lemma StepSupplied(g: Gen, s: State)
    requires Inv(g, s) && g.todo != [] && Fits(|g.accts|, g.rounds)
    ensures !ShortStep(g)
  {
    hide Orderly, Lifecycles, Closings, Counts, Matches, Fits;
    HeadAllowed(g);
    match g.todo[0]
    case Grant(x) =>
      ClosingSoonHolds(g);
      GrantSupply(g, x);
    case EphGrant(e) =>
      PhaseReached(g);
      ClosingSoonHolds(g);
      EphSupply(g, e);
    case _ =>
  }

  /** A deferred step is valid when its round comes, unless the admin is short of the units it moves. */
  lemma StepSim(g: Gen, s: State)
    requires Inv(g, s) && g.todo != [] && !ShortStep(g)
    ensures StepInRange(g, g.todo[0]) && Simulates(s, RunStep(g))
  {
    hide Inv, Simulates, RunStep, ShortStep;
    HeadInRange(g, s);
    match g.todo[0]
    case Grant(_) => GrantSim(g, s);
    case Unfreeze(_) => UnfreezeSim(g, s);
    case RekeyedPay(_) => RekeyedPaySim(g, s);
    case RekeyBack(_) => RekeyBackSim(g, s);
    case GoOffline(_) => GoOfflineSim(g, s);
    case EphOptIn(_) => EphOptInSim(g, s);
    case EphGrant(_) => EphGrantSim(g, s);
    case EphCloseAsset(_) => EphCloseAssetSim(g, s);
    case EphClosePay(_, _) => EphClosePaySim(g, s);
    case AppStep(_, oc) => if oc == Delete { AppDeleteSim(g, s); } else { ThrowCallSim(g, s); }
    case AssetReconfig(_) => ThrowCallSim(g, s);
    case AssetDestroyStep(_) => AssetDestroySim(g, s);
  }
}

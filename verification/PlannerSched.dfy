/** The schedule part of the planner's invariant is kept by every action and every deferred step. */
module PlannerSched {
  import opened Optional
  import opened Ledger
  import opened Planner
  import opened PlannerInv

  // ---- adding a step ------------------------------------------------------------------------

  lemma LaterAt(g: Gen, delay: nat, d: Step, r: nat)
    requires delay > 0
    ensures At(Later(g, delay, d), r) == if r == g.round + delay then At(g, r) + [d] else At(g, r)
  {
  }

  lemma LaterKeeps(g: Gen, delay: nat, d: Step)
    requires delay > 0
    ensures Later(g, delay, d).round == g.round && Later(g, delay, d).accts == g.accts
    ensures Later(g, delay, d).eph == g.eph && Later(g, delay, d).throws == g.throws
  {
  }

  /** Pending steps stay pending. */
  ghost predicate Grows(g: Gen, g': Gen) {
    g'.round == g.round && forall r: nat, d | d in At(g, r) :: d in At(g', r)
  }

  lemma LaterGrows(g: Gen, delay: nat, d: Step)
    requires delay > 0
    ensures Grows(g, Later(g, delay, d)) && d in At(Later(g, delay, d), g.round + delay)
  {
    forall r: nat, x | x in At(g, r)
      ensures x in At(Later(g, delay, d), r)
    {
      LaterAt(g, delay, d, r);
    }
    LaterAt(g, delay, d, g.round + delay);
  }

  lemma GrowsTrans(g: Gen, g1: Gen, g2: Gen)
    requires Grows(g, g1) && Grows(g1, g2)
    ensures Grows(g, g2)
  {
    hide At;
  }

  /** A step may be added when its state is ready, it is not pending twice, and no account closing
      would come to stand before its holding's closing. */
  lemma LaterOrderly(g: Gen, delay: nat, d: Step)
    requires delay > 0 && Orderly(g) && Allowed(g, g.round + delay, d) && d !in At(g, g.round + delay)
    requires d.EphCloseAsset? ==> forall f :: EphClosePay(d.e, f) !in At(g, g.round + delay)
    ensures Orderly(Later(g, delay, d))
  {
    hide Allowed;
    var g' := Later(g, delay, d);
    forall r: nat
      ensures NoDup(At(g', r))
    {
      LaterAt(g, delay, d, r);
      assert NoDup(At(g, r));
    }
    forall r: nat, x | x in At(g', r)
      ensures Allowed(g', r, x)
    {
      LaterAt(g, delay, d, r);
      AllowedSame(g, g', r, x);
    }
    LaterHoldingFirst(g, delay, d);
  }

  lemma AllowedSame(g: Gen, g': Gen, r: nat, d: Step)
    requires g'.accts == g.accts && g'.granted == g.granted && g'.frozen == g.frozen
    requires g'.eph == g.eph && g'.throws == g.throws
    ensures Allowed(g', r, d) == Allowed(g, r, d)
  {
  }

  lemma LaterHoldingFirst(g: Gen, delay: nat, d: Step)
    requires delay > 0 && HoldingFirst(g)
    requires d.EphCloseAsset? ==> forall f :: EphClosePay(d.e, f) !in At(g, g.round + delay)
    ensures HoldingFirst(Later(g, delay, d))
  {
    var g' := Later(g, delay, d);
    forall r: nat, e: nat, f: nat, j, k | 0 <= j < |At(g', r)| && 0 <= k < |At(g', r)| &&
      At(g', r)[j] == EphClosePay(e, f) && At(g', r)[k] == EphCloseAsset(e)
      ensures k < j
    {
      LaterAt(g, delay, d, r);
      var s := At(g, r);
      assert j < |s| ==> s[j] in s;
      if r != g.round + delay || (k < |s| && j < |s|) {
        assert s[j] == EphClosePay(e, f) && s[k] == EphCloseAsset(e);
      }
    }
  }

  // ---- changing the record of one account ---------------------------------------------------

  /** The steps that act on account x. */
  predicate ActsOn(d: Step, x: nat) {
    d == Grant(x) || d == Unfreeze(x) || d == RekeyedPay(x) || d == RekeyBack(x) || d == GoOffline(x)
  }

  /** Nothing is pending for a free account: its reservation has ended. */
  lemma FreeIsIdle(g: Gen, x: nat)
    requires AllAllowed(g) && Ahead(g) && x < |g.accts| && g.accts[x].reserved < g.round
    ensures forall r: nat, d | d in At(g, r) :: !ActsOn(d, x)
  {
    forall r: nat, d | d in At(g, r)
      ensures !ActsOn(d, x)
    {
      assert Allowed(g, r, d);
    }
  }

  /** `g'` differs from `g` only in account x, as far as the schedule is concerned. */
  ghost predicate OnlyAcct(g: Gen, g': Gen, x: nat) {
    && g'.round == g.round && g'.eph == g.eph && g'.throws == g.throws
    && |g'.accts| == |g.accts|
    && forall i | 0 <= i < |g.accts| && i != x :: SameAcct(g, g', i)
  }

  ghost predicate SameAcct(g: Gen, g': Gen, i: nat)
    requires i < |g.accts| == |g'.accts|
  {
    && g'.accts[i].reserved == g.accts[i].reserved && g'.accts[i].auth == g.accts[i].auth
    && g'.accts[i].optA == g.accts[i].optA && g'.accts[i].online == g.accts[i].online
    && (i in g'.frozen <==> i in g.frozen) && (i in g'.granted <==> i in g.granted)
  }

  lemma AllowedOther(g: Gen, g': Gen, x: nat, r: nat, d: Step)
    requires OnlyAcct(g, g', x) && Allowed(g, r, d) && !ActsOn(d, x)
    ensures Allowed(g', r, d)
  {
    match d
    case Grant(y) => assert SameAcct(g, g', y);
    case Unfreeze(y) => assert SameAcct(g, g', y);
    case RekeyedPay(y) => assert SameAcct(g, g', y);
    case RekeyBack(y) => assert SameAcct(g, g', y);
    case GoOffline(y) => assert SameAcct(g, g', y);
    case _ =>
  }

  /** Changing an account on which nothing is pending disturbs no pending step. */
  lemma AcctOrderly(g: Gen, g': Gen, x: nat)
    requires Orderly(g) && OnlyAcct(g, g', x) && g'.sched == g.sched && g'.todo == g.todo
    requires forall r: nat, d | d in At(g, r) :: !ActsOn(d, x)
    ensures Orderly(g')
  {
    hide Allowed;
    SameAt(g, g');
    forall r: nat, d | d in At(g', r)
      ensures Allowed(g', r, d)
    {
      assert At(g', r) == At(g, r);
      AllowedOther(g, g', x, r, d);
    }
  }

  lemma SameAt(g: Gen, g': Gen)
    requires g'.round == g.round && g'.sched == g.sched && g'.todo == g.todo
    ensures forall r: nat :: At(g', r) == At(g, r)
    ensures Distinct(g) ==> Distinct(g')
    ensures HoldingFirst(g) ==> HoldingFirst(g')
    ensures Ahead(g) ==> Ahead(g')
    ensures Grows(g, g')
  {
  }

  /** The other accounts' lifecycles go on undisturbed. */
  lemma OthersUndone(g: Gen, g': Gen, x: nat)
    requires Lifecycles(g) && OnlyAcct(g, g', x) && Grows(g, g')
    ensures forall i | 0 <= i < |g'.accts| && i != x :: Undone(g', i)
  {
    hide At;
    forall i | 0 <= i < |g'.accts| && i != x
      ensures Undone(g', i)
    {
      assert Undone(g, i) && SameAcct(g, g', i);
    }
  }

  lemma ClosingsGrow(g: Gen, g': Gen)
    requires Closings(g) && g'.eph == g.eph && Grows(g, g')
    ensures Closings(g')
  {
    hide At;
    forall e | 0 <= e < |g'.eph|
      ensures Onward(g', e)
    {
      assert Onward(g, e);
    }
  }

  // ---- actions --------------------------------------------------------------------------------

  /** An action that leaves every reservation and every lifecycle as it is. */
  lemma QuietSchedule(g: Gen, g': Gen)
    requires Schedule(g) && g'.sched == g.sched && g'.todo == g.todo
    requires g'.round == g.round && g'.eph == g.eph && g'.throws == g.throws && |g'.accts| == |g.accts|
    requires forall i | 0 <= i < |g.accts| :: SameAcct(g, g', i)
    ensures Schedule(g')
  {
    hide Allowed, Undone, Onward, HoldingFirst;
    SameAt(g, g');
    var n := |g.accts|;
    forall r: nat, d | d in At(g', r)
      ensures Allowed(g', r, d)
    {
      assert At(g', r) == At(g, r);
      AllowedQuiet(g, g', r, d);
    }
    forall i | 0 <= i < n
      ensures Undone(g', i)
    {
      OthersUndone(g, g', if i == 0 then 1 else 0);
    }
    ClosingsGrow(g, g');
  }

  lemma AllowedQuiet(g: Gen, g': Gen, r: nat, d: Step)
    requires g'.eph == g.eph && g'.throws == g.throws && |g'.accts| == |g.accts|
    requires forall i | 0 <= i < |g.accts| :: SameAcct(g, g', i)
    requires Allowed(g, r, d)
    ensures Allowed(g', r, d)
  {
    match d
    case Grant(y) => assert SameAcct(g, g', y);
    case Unfreeze(y) => assert SameAcct(g, g', y);
    case RekeyedPay(y) => assert SameAcct(g, g', y);
    case RekeyBack(y) => assert SameAcct(g, g', y);
    case GoOffline(y) => assert SameAcct(g, g', y);
    case _ =>
  }

  /** The step `d` is the one that account x's state calls for. */
  ghost predicate Clears(g: Gen, x: nat, d: Step)
    requires x < |g.accts|
  {
    && (x in g.frozen ==> d == Unfreeze(x))
    && (g.accts[x].auth.Some? ==> d == RekeyBack(x))
    && (g.accts[x].online ==> d == GoOffline(x))
    && (0 < x && g.accts[x].optA && x !in g.granted ==> d == Grant(x))
    && (x in g.granted ==> g.accts[x].optA)
    && (g.accts[x].auth.Some? ==> g.accts[x].auth.value.Account? && g.accts[x].auth.value.i < |g.accts|)
  }

  /** A lifecycle that reserves a free account and schedules the step that ends it. */
  lemma ReserveSchedule(g: Gen, g1: Gen, x: nat, delay: nat, d: Step)
    requires Schedule(g) && x < |g.accts| && g.accts[x].reserved < g.round
    requires OnlyAcct(g, g1, x) && g1.sched == g.sched && g1.todo == g.todo
    requires delay > 0 && ActsOn(d, x) && Allowed(g1, g1.round + delay, d)
    requires g1.accts[x].reserved == g.round + delay && Clears(g1, x, d)
    ensures Schedule(Later(g1, delay, d))
  {
    hide Allowed, HoldingFirst, Onward;
    FreeIsIdle(g, x);
    SameAt(g, g1);
    AcctOrderly(g, g1, x);
    LaterOrderly(g1, delay, d);
    FinishLifecycle(g, g1, x, delay, d);
  }

  lemma FinishLifecycle(g: Gen, g1: Gen, x: nat, delay: nat, d: Step)
    requires Lifecycles(g) && Closings(g) && OnlyAcct(g, g1, x) && Grows(g, g1) && x < |g.accts|
    requires delay > 0 && g1.accts[x].reserved == g.round + delay && Clears(g1, x, d)
    ensures Lifecycles(Later(g1, delay, d)) && Closings(Later(g1, delay, d))
  {
    hide At, Onward, Closings;
    var g2 := Later(g1, delay, d);
    LaterGrows(g1, delay, d);
    GrowsTrans(g, g1, g2);
    OnlySame(g, g1, g2, x);
    OthersUndone(g, g2, x);
    ClosingsGrow(g, g2);
    assert Undone(g2, x);
  }

  lemma OnlySame(g: Gen, g1: Gen, g2: Gen, x: nat)
    requires OnlyAcct(g, g1, x)
    requires g2.round == g1.round && g2.eph == g1.eph && g2.throws == g1.throws && g2.accts == g1.accts
    requires g2.frozen == g1.frozen && g2.granted == g1.granted
    ensures OnlyAcct(g, g2, x)
  {
    forall i | 0 <= i < |g.accts| && i != x
      ensures SameAcct(g, g2, i)
    {
      assert SameAcct(g, g1, i);
    }
  }

  lemma OptInSchedule(g: Gen, x: nat)
    requires Schedule(g) && Free(g, x) && !g.accts[x].optA
    ensures Schedule(DoAssetOptIn(g, x).0)
  {
    hide At, Schedule;
    IdleFlags(g, x);
    var g1 := Use(g, {x});
    var g2 := g1.(accts := g1.accts[x := g1.accts[x].(optA := true, reserved := g.round + 1)]);
    ReserveSchedule(g, g2, x, 1, Grant(x));
    NoteOnly(Later(g2, 1, Grant(x)), DoAssetOptIn(g, x).0);
  }

  /** Emitting a transaction does not touch the schedule. */
  lemma NoteOnly(g: Gen, g': Gen)
    requires Schedule(g) && g' == g.(noteCtr := g'.noteCtr)
    ensures Schedule(g')
  {
    hide Allowed, HoldingFirst, Undone, Onward;
    QuietSchedule(g, g');
  }

  /** A free account is in no unusual state. */
  lemma IdleFlags(g: Gen, x: nat)
    requires Schedule(g) && x < |g.accts| && g.accts[x].reserved < g.round
    ensures x !in g.frozen && g.accts[x].auth.None? && !g.accts[x].online
    ensures 0 < x && g.accts[x].optA ==> x in g.granted
    ensures x in g.granted ==> g.accts[x].optA
  {
    hide Allowed, HoldingFirst, Onward;
    assert Undone(g, x);
    assert At(g, g.accts[x].reserved) == [];
  }

  lemma FreezeSchedule(g: Gen, x: nat)
    requires Schedule(g) && Free(g, x) && g.accts[x].optA
    ensures Schedule(DoFreeze(g, x).0)
  {
    hide At, Schedule;
    IdleFlags(g, x);
    var g1 := Use(g, {x});
    var g2 := g1.(accts := g1.accts[x := g1.accts[x].(reserved := g.round + 2)], frozen := g.frozen + {x});
    ReserveSchedule(g, g2, x, 2, Unfreeze(x));
    NoteOnly(Later(g2, 2, Unfreeze(x)), DoFreeze(g, x).0);
  }

  lemma KeyregSchedule(g: Gen, x: nat)
    requires Schedule(g) && Free(g, x)
    ensures Schedule(DoKeyreg(g, x).0)
  {
    hide At, Schedule;
    IdleFlags(g, x);
    var g1 := Use(g, {x});
    var g2 := g1.(accts := g1.accts[x := g1.accts[x].(reserved := g.round + 20, online := true)]);
    ReserveSchedule(g, g2, x, 20, GoOffline(x));
    NoteOnly(Later(g2, 20, GoOffline(x)), DoKeyreg(g, x).0);
  }

  lemma RekeySchedule(g: Gen, x: nat, y: nat)
    requires Schedule(g) && FreePair(g, x, y)
    ensures Schedule(DoRekey(g, x, y).0)
  {
    hide At, HoldingFirst, Allowed, Lifecycles, Closings, AllAllowed, Distinct, Ahead;
    IdleFlags(g, x);
    var g1 := Use(g, {x, y});
    var g2 := g1.(accts := g1.accts[x := g1.accts[x].(reserved := g.round + 3, auth := Some(Account(y)))]);
    FreeIsIdle(g, x);
    SameAt(g, g2);
    AcctOrderly(g, g2, x);
    RekeySteps(g2, x);
    var g3 := Later(g2, 1, RekeyedPay(x));
    LaterGrows(g2, 1, RekeyedPay(x));
    GrowsTrans(g, g2, g3);
    OnlySame(g, g2, g3, x);
    FinishLifecycle(g, g3, x, 3, RekeyBack(x));
    NoteOnly(Later(g3, 3, RekeyBack(x)), DoRekey(g, x, y).0);
  }

  lemma RekeySteps(g: Gen, x: nat)
    requires Orderly(g) && 0 < x < |g.accts| && g.accts[x].auth.Some? && g.accts[x].reserved == g.round + 3
    requires forall r: nat, d | d in At(g, r) :: !ActsOn(d, x)
    ensures Orderly(Later(Later(g, 1, RekeyedPay(x)), 3, RekeyBack(x)))
  {
    hide HoldingFirst, AllAllowed, Distinct, Ahead, At, Later;
    assert ActsOn(RekeyedPay(x), x) && ActsOn(RekeyBack(x), x);
    LaterOrderly(g, 1, RekeyedPay(x));
    LaterAt(g, 1, RekeyedPay(x), g.round + 3);
    LaterKeeps(g, 1, RekeyedPay(x));
    LaterOrderly(Later(g, 1, RekeyedPay(x)), 3, RekeyBack(x));
  }

  // ---- new ephemeral accounts and throwaways ---------------------------------------------------

  predicate OnEph(d: Step, e: nat) {
    d == EphOptIn(e) || d == EphGrant(e) || d == EphCloseAsset(e) || (d.EphClosePay? && d.e == e)
  }

  predicate OnThrow(d: Step, t: nat) {
    (d.AppStep? && d.t == t) || d == AssetReconfig(t) || d == AssetDestroyStep(t)
  }

  /** `g'` has the same accounts, and the records of ephemerals and throwaways only get longer. */
  ghost predicate Extends(g: Gen, g': Gen) {
    && g'.round == g.round && g'.accts == g.accts && g'.frozen == g.frozen && g'.granted == g.granted
    && g.eph <= g'.eph && g.throws <= g'.throws
  }

  lemma ExtendOrderly(g: Gen, g': Gen)
    requires Orderly(g) && Extends(g, g') && g'.sched == g.sched && g'.todo == g.todo
    ensures Orderly(g')
    ensures forall r: nat, d | d in At(g', r) :: !OnEph(d, |g.eph|) && !OnThrow(d, |g.throws|)
  {
    hide Allowed;
    SameAt(g, g');
    forall r: nat, d | d in At(g', r)
      ensures Allowed(g', r, d) && !OnEph(d, |g.eph|) && !OnThrow(d, |g.throws|)
    {
      assert At(g', r) == At(g, r);
      AllowedExtends(g, g', r, d);
    }
  }

  lemma AllowedExtends(g: Gen, g': Gen, r: nat, d: Step)
    requires Extends(g, g') && Allowed(g, r, d)
    ensures Allowed(g', r, d) && !OnEph(d, |g.eph|) && !OnThrow(d, |g.throws|)
  {
  }

  lemma ExtendLifecycles(g: Gen, g': Gen)
    requires Lifecycles(g) && Closings(g) && Extends(g, g') && Grows(g, g')
    ensures Lifecycles(g')
    ensures forall e | 0 <= e < |g.eph| :: Onward(g', e)
  {
    hide At;
    forall i | 0 <= i < |g'.accts|
      ensures Undone(g', i)
    {
      assert Undone(g, i);
    }
    forall e | 0 <= e < |g.eph|
      ensures Onward(g', e)
    {
      assert Onward(g, e);
    }
  }

  /** Adding one step that nothing like is pending. */
  lemma FreshLater(g: Gen, delay: nat, d: Step)
    requires delay > 0 && Orderly(g) && Allowed(g, g.round + delay, d)
    requires d !in At(g, g.round + delay)
    requires d.EphCloseAsset? ==> forall f :: EphClosePay(d.e, f) !in At(g, g.round + delay)
    ensures Orderly(Later(g, delay, d)) && Grows(g, Later(g, delay, d)) && Extends(g, Later(g, delay, d))
    ensures d in At(Later(g, delay, d), g.round + delay)
    ensures forall r: nat :: At(Later(g, delay, d), r) == if r == g.round + delay then At(g, r) + [d] else At(g, r)
  {
    hide Orderly, Allowed;
    LaterOrderly(g, delay, d);
    LaterGrows(g, delay, d);
    forall r: nat
      ensures At(Later(g, delay, d), r) == if r == g.round + delay then At(g, r) + [d] else At(g, r)
    {
      LaterAt(g, delay, d, r);
    }
  }

  lemma OpenSteps(g: Gen, e: nat, f: nat)
    requires Orderly(g) && e < |g.eph| && g.eph[e] == Eph(g.round, f, Opened)
    requires forall r: nat, d | d in At(g, r) :: !OnEph(d, e)
    ensures var g1 := Later(Later(g, 1, EphOptIn(e)), 2, EphGrant(e));
      var g' := Later(Later(g1, 3, EphCloseAsset(e)), 3, EphClosePay(e, f));
      Orderly(g') && Grows(g, g') && Extends(g, g') && Onward(g', e)
  {
    hide Orderly, At, Later;
    assert OnEph(EphOptIn(e), e) && OnEph(EphGrant(e), e) && OnEph(EphCloseAsset(e), e);
    assert forall x :: OnEph(EphClosePay(e, x), e);
    FreshLater(g, 1, EphOptIn(e));
    var g1 := Later(g, 1, EphOptIn(e));
    FreshLater(g1, 2, EphGrant(e));
    var g2 := Later(g1, 2, EphGrant(e));
    FreshLater(g2, 3, EphCloseAsset(e));
    var g3 := Later(g2, 3, EphCloseAsset(e));
    FreshLater(g3, 3, EphClosePay(e, f));
    var g4 := Later(g3, 3, EphClosePay(e, f));
    GrowsTrans(g, g1, g2);
    GrowsTrans(g, g2, g3);
    GrowsTrans(g, g3, g4);
    GrowsTrans(g1, g2, g4);
    GrowsTrans(g1, g3, g4);
    GrowsTrans(g2, g3, g4);
  }

  lemma CloseOutSchedule(g: Gen, f: nat)
    requires Schedule(g) && Free(g, f)
    ensures Schedule(DoCloseOut(g, f).0)
  {
    hide At, Orderly, Lifecycles, Onward, Later;
    var e := |g.eph|;
    var g1 := Use(g, {f}).(eph := g.eph + [Eph(g.round, f, Opened)], known := g.known + [Ephemeral(e)]);
    ExtendOrderly(g, g1);
    SameAt(g, g1);
    OpenSteps(g1, e, f);
    var g2 := Later(Later(Later(Later(g1, 1, EphOptIn(e)), 2, EphGrant(e)), 3, EphCloseAsset(e)), 3, EphClosePay(e, f));
    GrowsTrans(g, g1, g2);
    LaterKeeps(g1, 1, EphOptIn(e));
    ExtendsTrans(g, g1, g2);
    ExtendLifecycles(g, g2);
    assert |g2.eph| == e + 1 by { LaterEph(g1, e, f); }
    NoteOnly(g2, DoCloseOut(g, f).0);
  }

  lemma LaterEph(g: Gen, e: nat, f: nat)
    ensures var g1 := Later(Later(g, 1, EphOptIn(e)), 2, EphGrant(e));
      Later(Later(g1, 3, EphCloseAsset(e)), 3, EphClosePay(e, f)).eph == g.eph
  {
  }

  lemma ExtendsTrans(g: Gen, g1: Gen, g2: Gen)
    requires Extends(g, g1) && Extends(g1, g2)
    ensures Extends(g, g2)
  {
  }

  lemma AppSteps(g: Gen, t: nat)
    requires Orderly(g) && t < |g.throws| && g.throws[t].isApp && !g.throws[t].dead && g.throws[t].start == g.round
    requires forall r: nat, d | d in At(g, r) :: !OnThrow(d, t)
    ensures var g' := Later(Later(Later(g, 2, AppStep(t, NoOp)), 4, AppStep(t, Update)), 6, AppStep(t, Delete));
      Orderly(g') && Grows(g, g') && Extends(g, g')
  {
    hide Orderly, At, Later;
    assert OnThrow(AppStep(t, NoOp), t) && OnThrow(AppStep(t, Update), t) && OnThrow(AppStep(t, Delete), t);
    FreshLater(g, 2, AppStep(t, NoOp));
    var g1 := Later(g, 2, AppStep(t, NoOp));
    FreshLater(g1, 4, AppStep(t, Update));
    var g2 := Later(g1, 4, AppStep(t, Update));
    FreshLater(g2, 6, AppStep(t, Delete));
    GrowsTrans(g, g1, g2);
    GrowsTrans(g, g2, Later(g2, 6, AppStep(t, Delete)));
  }

  lemma AssetSteps(g: Gen, t: nat)
    requires Orderly(g) && t < |g.throws| && !g.throws[t].isApp && !g.throws[t].dead && g.throws[t].start == g.round
    requires forall r: nat, d | d in At(g, r) :: !OnThrow(d, t)
    ensures var g' := Later(Later(g, 3, AssetReconfig(t)), 6, AssetDestroyStep(t));
      Orderly(g') && Grows(g, g') && Extends(g, g')
  {
    hide Orderly, At, Later;
    assert OnThrow(AssetReconfig(t), t) && OnThrow(AssetDestroyStep(t), t);
    FreshLater(g, 3, AssetReconfig(t));
    var g1 := Later(g, 3, AssetReconfig(t));
    FreshLater(g1, 6, AssetDestroyStep(t));
    GrowsTrans(g, g1, Later(g1, 6, AssetDestroyStep(t)));
  }

  /** The common end of the two throwaway actions. */
  lemma ThrowSchedule(g: Gen, g1: Gen, g2: Gen, g3: Gen)
    requires Schedule(g) && Extends(g, g1) && g1.sched == g.sched && g1.todo == g.todo && g1.eph == g.eph
    requires Orderly(g2) && Grows(g1, g2) && Extends(g1, g2) && g2.eph == g1.eph
    requires g3 == g2.(noteCtr := g3.noteCtr)
    ensures Schedule(g3)
  {
    hide At, Orderly, Lifecycles, Onward;
    SameAt(g, g1);
    GrowsTrans(g, g1, g2);
    ExtendsTrans(g, g1, g2);
    ExtendLifecycles(g, g2);
    NoteOnly(g2, g3);
  }

  lemma AppLifecycleSchedule(g: Gen, x: nat)
    requires Schedule(g) && Free(g, x)
    ensures Schedule(DoAppLifecycle(g, x).0)
  {
    hide At, Orderly, Lifecycles, Onward, Closings;
    var g1 := NewThrow(Use(g, {x}), x, true);
    ExtendOrderly(g, g1);
    AppSteps(g1, |g.throws|);
    var t := |g.throws|;
    var g2 := Later(Later(Later(g1, 2, AppStep(t, NoOp)), 4, AppStep(t, Update)), 6, AppStep(t, Delete));
    ThrowSchedule(g, g1, g2, DoAppLifecycle(g, x).0);
  }

  lemma AssetLifecycleSchedule(g: Gen, x: nat)
    requires Schedule(g) && Free(g, x)
    ensures Schedule(DoAssetLifecycle(g, x).0)
  {
    hide At, Orderly, Lifecycles, Onward, Closings;
    var g1 := NewThrow(Use(g, {x}), x, false);
    ExtendOrderly(g, g1);
    AssetSteps(g1, |g.throws|);
    var t := |g.throws|;
    var g2 := Later(Later(g1, 3, AssetReconfig(t)), 6, AssetDestroyStep(t));
    ThrowSchedule(g, g1, g2, DoAssetLifecycle(g, x).0);
  }
}

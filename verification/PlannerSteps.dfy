/** The schedule part of the planner's invariant is kept by every deferred step and by the turn of
    the round. */
module PlannerSteps {
  import opened Optional
  import opened Ledger
  import opened Planner
  import opened PlannerInv
  import opened PlannerSched

  /** Taking the next step off the round's list. */
  function Pop(g: Gen): Gen
    requires g.todo != []
  {
    g.(todo := g.todo[1..])
  }

  lemma PopAt(g: Gen, r: nat)
    requires g.todo != []
    ensures At(Pop(g), r) == if r == g.round then g.todo[1..] else At(g, r)
  {
  }

  /** A pending step other than the one taken stays pending. */
  lemma PopStays(g: Gen, r: nat, d: Step)
    requires g.todo != [] && d in At(g, r) && (r != g.round || d != g.todo[0])
    ensures d in At(Pop(g), r)
  {
    PopAt(g, r);
    if r == g.round { assert g.todo == [g.todo[0]] + g.todo[1..]; }
  }

  lemma PopOrderly(g: Gen)
    requires Orderly(g) && g.todo != []
    ensures Orderly(Pop(g)) && g.todo[0] !in At(Pop(g), g.round)
    ensures forall r: nat, d | d in At(Pop(g), r) :: d in At(g, r)
    ensures Allowed(g, g.round, g.todo[0])
  {
    hide Allowed;
    var g' := Pop(g);
    assert NoDup(At(g, g.round)) && g.todo[0] in At(g, g.round);
    forall r: nat
      ensures NoDup(At(g', r))
    {
      PopAt(g, r);
      assert NoDup(At(g, r));
    }
    forall r: nat, d | d in At(g', r)
      ensures Allowed(g', r, d) && d in At(g, r)
    {
      PopAt(g, r);
      AllowedSame(g, g', r, d);
    }
    PopHoldingFirst(g);
  }

  lemma PopHoldingFirst(g: Gen)
    requires HoldingFirst(g) && g.todo != []
    ensures HoldingFirst(Pop(g))
  {
    var g' := Pop(g);
    forall r: nat, e: nat, f: nat, j, k | 0 <= j < |At(g', r)| && 0 <= k < |At(g', r)| &&
      At(g', r)[j] == EphClosePay(e, f) && At(g', r)[k] == EphCloseAsset(e)
      ensures k < j
    {
      PopAt(g, r);
      if r == g.round {
        assert At(g, r)[j + 1] == EphClosePay(e, f) && At(g, r)[k + 1] == EphCloseAsset(e);
      } else {
        assert At(g, r)[j] == EphClosePay(e, f) && At(g, r)[k] == EphCloseAsset(e);
      }
    }
  }

  // ---- steps that end an account's lifecycle ----------------------------------------------------

  /** After step `d` on account x, no pending step on x has lost its ground. */
  ghost predicate Leaves(g: Gen, g': Gen, x: nat, d: Step) {
    forall r: nat, d' | ActsOn(d', x) && d' != d && Allowed(g, r, d') :: Allowed(g', r, d')
  }

  lemma StepOrderly(g: Gen, g': Gen, x: nat, d: Step)
    requires Orderly(g) && OnlyAcct(g, g', x) && g'.sched == g.sched && g'.todo == g.todo
    requires Leaves(g, g', x, d) && forall r: nat :: d !in At(g, r)
    ensures Orderly(g')
  {
    hide Allowed;
    SameAt(g, g');
    forall r: nat, d' | d' in At(g', r)
      ensures Allowed(g', r, d')
    {
      assert At(g', r) == At(g, r);
      if !ActsOn(d', x) { AllowedOther(g, g', x, r, d'); }
    }
  }

  /** The step taken is pending nowhere else: its round is the end of the reservation. */
  lemma TakenOnce(g: Gen, x: nat)
    requires Orderly(g) && g.todo != [] && ActsOn(g.todo[0], x) && !g.todo[0].RekeyedPay?
    ensures forall r: nat :: g.todo[0] !in At(Pop(g), r)
  {
    PopOrderly(g);
    forall r: nat
      ensures g.todo[0] !in At(Pop(g), r)
    {
      var d := g.todo[0];
      assert Allowed(g, g.round, d);
      assert forall x | x in At(Pop(g), r) :: x in At(g, r);
      assert d in At(g, r) ==> Allowed(g, r, d);
    }
  }

  lemma StepOthers(g: Gen, g': Gen, x: nat)
    requires Lifecycles(g) && Closings(g) && g.todo != [] && ActsOn(g.todo[0], x)
    requires OnlyAcct(Pop(g), g', x) && g'.sched == g.sched && g'.todo == g.todo[1..]
    ensures forall i | 0 <= i < |g'.accts| && i != x :: Undone(g', i)
    ensures Closings(g')
  {
    hide At;
    forall i | 0 <= i < |g'.accts| && i != x
      ensures Undone(g', i)
    {
      assert Undone(g, i) && SameAcct(Pop(g), g', i);
      UndonePop(g, g', i, x);
    }
    forall e | 0 <= e < |g'.eph|
      ensures Onward(g', e)
    {
      assert Onward(g, e);
      OnwardPop(g, g', e);
    }
  }

  lemma UndonePop(g: Gen, g': Gen, i: nat, x: nat)
    requires g.todo != [] && i < |g.accts| && Undone(g, i) && ActsOn(g.todo[0], x) && i != x
    requires |g'.accts| == |g.accts| && g'.round == g.round && SameAcct(Pop(g), g', i)
    requires g'.sched == g.sched && g'.todo == g.todo[1..]
    ensures Undone(g', i)
  {
    hide At;
    var r := g.accts[i].reserved;
    SameAt(Pop(g), g');
    forall d | ActsOn(d, i) && d in At(g, r)
      ensures d in At(g', r)
    {
      PopStays(g, r, d);
    }
    assert ActsOn(Unfreeze(i), i) && ActsOn(RekeyBack(i), i) && ActsOn(GoOffline(i), i) && ActsOn(Grant(i), i);
  }

  lemma OnwardPop(g: Gen, g': Gen, e: nat)
    requires g.todo != [] && e < |g.eph| && Onward(g, e) && !OnEph(g.todo[0], e)
    requires g'.eph == g.eph && g'.round == g.round && g'.sched == g.sched && g'.todo == g.todo[1..]
    ensures Onward(g', e)
  {
    hide At;
    SameAt(Pop(g), g');
    forall d, r: nat | OnEph(d, e) && d in At(g, r)
      ensures d in At(g', r)
    {
      PopStays(g, r, d);
    }
    assert OnEph(EphOptIn(e), e) && OnEph(EphGrant(e), e) && OnEph(EphCloseAsset(e), e);
  }

  /** The account's own remaining obligations: those other than the step just run. */
  lemma UndoneSelf(g: Gen, g': Gen, x: nat)
    requires g.todo != [] && x < |g.accts| == |g'.accts| && Undone(g, x)
    requires g'.round == g.round && g'.sched == g.sched && g'.todo == g.todo[1..]
    requires g'.accts[x].reserved == g.accts[x].reserved
    requires x in g'.frozen ==> x in g.frozen && g.todo[0] != Unfreeze(x)
    requires g'.accts[x].auth.Some? ==> g'.accts[x].auth == g.accts[x].auth && g.todo[0] != RekeyBack(x)
    requires g'.accts[x].online ==> g.accts[x].online && g.todo[0] != GoOffline(x)
    requires 0 < x && g'.accts[x].optA && x !in g'.granted ==>
               g.accts[x].optA && x !in g.granted && g.todo[0] != Grant(x)
    requires x in g'.granted ==> g'.accts[x].optA
    ensures Undone(g', x)
  {
    hide At;
    var r := g.accts[x].reserved;
    SameAt(Pop(g), g');
    forall d | d in At(g, r) && d != g.todo[0]
      ensures d in At(g', r)
    {
      PopStays(g, r, d);
    }
  }

  /** One account's step, in general. */
  lemma AcctStepSchedule(g: Gen, g': Gen, x: nat)
    requires Schedule(g) && g.todo != [] && ActsOn(g.todo[0], x) && !g.todo[0].RekeyedPay? && x < |g.accts|
    requires OnlyAcct(Pop(g), g', x) && g'.sched == g.sched && g'.todo == g.todo[1..]
    requires Leaves(Pop(g), g', x, g.todo[0]) && Undone(g', x)
    ensures Schedule(g')
  {
    hide At, Orderly, Undone, Onward, Leaves;
    PopOrderly(g);
    TakenOnce(g, x);
    StepOrderly(Pop(g), g', x, g.todo[0]);
    StepOthers(g, g', x);
  }

  lemma UnfreezeSchedule(g: Gen)
    requires Schedule(g) && g.todo != [] && g.todo[0].Unfreeze? && StepInRange(g, g.todo[0])
    ensures Schedule(RunStep(g).0)
  {
    hide At, Orderly, Onward;
    var x := g.todo[0].x;
    PopOrderly(g);
    var g' := RunStep(g).0;
    assert Undone(g, x);
    UndoneSelf(g, g', x);
    AcctStepSchedule(g, g', x);
  }

  lemma RekeyBackSchedule(g: Gen)
    requires Schedule(g) && g.todo != [] && g.todo[0].RekeyBack? && StepInRange(g, g.todo[0])
    ensures Schedule(RunStep(g).0)
  {
    hide At, Orderly, Onward;
    var x := g.todo[0].x;
    PopOrderly(g);
    var g' := RunStep(g).0;
    assert Undone(g, x);
    UndoneSelf(g, g', x);
    AcctStepSchedule(g, g', x);
  }

  lemma GoOfflineSchedule(g: Gen)
    requires Schedule(g) && g.todo != [] && g.todo[0].GoOffline? && StepInRange(g, g.todo[0])
    ensures Schedule(RunStep(g).0)
  {
    hide At, Orderly, Onward;
    var x := g.todo[0].x;
    PopOrderly(g);
    var g' := RunStep(g).0;
    assert Undone(g, x);
    UndoneSelf(g, g', x);
    AcctStepSchedule(g, g', x);
  }

  lemma GrantSchedule(g: Gen)
    requires Schedule(g) && g.todo != [] && g.todo[0].Grant? && StepInRange(g, g.todo[0])
    ensures Schedule(RunStep(g).0)
  {
    hide At, Orderly, Onward, Sub64, Add64;
    var x := g.todo[0].x;
    PopOrderly(g);
    var g' := RunStep(g).0;
    assert Undone(g, x);
    UndoneSelf(g, g', x);
    AcctStepSchedule(g, g', x);
  }

  lemma RekeyedPaySchedule(g: Gen)
    requires Schedule(g) && g.todo != [] && g.todo[0].RekeyedPay? && StepInRange(g, g.todo[0])
    ensures Schedule(RunStep(g).0)
  {
    hide At, Orderly, Onward;
    var x := g.todo[0].x;
    PopOrderly(g);
    var g' := Pop(g);
    StepOthers(g, g', x);
    assert Undone(g, x);
    UndoneSelf(g, g', x);
    QuietSchedule(g', RunStep(g).0);
  }

  // ---- steps of an ephemeral account ----------------------------------------------------------

  /** `g'` differs from `g` only in the phase of ephemeral e. */
  ghost predicate OnlyEph(g: Gen, g': Gen, e: nat) {
    && g'.round == g.round && g'.throws == g.throws && g'.sched == g.sched && g'.todo == g.todo
    && |g'.accts| == |g.accts| && (forall i | 0 <= i < |g.accts| :: SameAcct(g, g', i))
    && e < |g.eph| == |g'.eph| && g'.eph == g.eph[e := g.eph[e].(phase := g'.eph[e].phase)]
  }

  /** The phase in which each step finds its account, and the phase it leaves. */
  function PhaseBefore(d: Step): Phase
    requires d.EphOptIn? || d.EphGrant? || d.EphCloseAsset? || d.EphClosePay?
  {
    match d
    case EphOptIn(_) => Opened
    case EphGrant(_) => OptedIn
    case EphCloseAsset(_) => Granted
    case EphClosePay(_, _) => AssetClosed
  }

  function PhaseAfter(d: Step): Phase
    requires d.EphOptIn? || d.EphGrant? || d.EphCloseAsset? || d.EphClosePay?
  {
    match d
    case EphOptIn(_) => OptedIn
    case EphGrant(_) => Granted
    case EphCloseAsset(_) => AssetClosed
    case EphClosePay(_, _) => Gone
  }

  /** A step of an ephemeral account runs when all the earlier ones have run. */
  lemma PhaseReached(g: Gen)
    requires Schedule(g) && g.todo != []
    requires g.todo[0].EphOptIn? || g.todo[0].EphGrant? || g.todo[0].EphCloseAsset? || g.todo[0].EphClosePay?
    ensures g.todo[0].e < |g.eph| && g.eph[g.todo[0].e].phase == PhaseBefore(g.todo[0])
  {
    hide Undone;
    var d := g.todo[0];
    assert d in At(g, g.round) && Allowed(g, g.round, d);
    var e := d.e;
    assert Onward(g, e);
    assert At(g, g.eph[e].start) == [];
    if !d.EphOptIn? { assert At(g, g.eph[e].start + 1) == []; }
    if d.EphCloseAsset? || d.EphClosePay? { assert At(g, g.eph[e].start + 2) == []; }
    if d.EphClosePay? {
      forall k | 0 <= k < |g.todo|
        ensures g.todo[k] != EphCloseAsset(e)
      {
        assert At(g, g.round)[0] == EphClosePay(e, d.f) && At(g, g.round)[k] == g.todo[k];
      }
    }
  }

  lemma AllowedEphStep(g: Gen, g': Gen, e: nat, r: nat, d: Step, d': Step)
    requires OnlyEph(g, g', e) && OnEph(d, e) && (d.EphOptIn? || d.EphGrant? || d.EphCloseAsset? || d.EphClosePay?)
    requires g.eph[e].phase == PhaseBefore(d) && g'.eph[e].phase == PhaseAfter(d)
    requires d.EphClosePay? ==> d.f == g.eph[e].funder
    requires Allowed(g, r, d') && d' != d
    ensures Allowed(g', r, d')
  {
    if OnEph(d', e) {
    } else {
      match d'
      case Grant(y) => assert SameAcct(g, g', y);
      case Unfreeze(y) => assert SameAcct(g, g', y);
      case RekeyedPay(y) => assert SameAcct(g, g', y);
      case RekeyBack(y) => assert SameAcct(g, g', y);
      case GoOffline(y) => assert SameAcct(g, g', y);
      case _ =>
    }
  }

  lemma EphTakenOnce(g: Gen)
    requires Orderly(g) && g.todo != [] && exists e :: OnEph(g.todo[0], e)
    ensures forall r: nat :: g.todo[0] !in At(Pop(g), r)
  {
    PopOrderly(g);
    forall r: nat
      ensures g.todo[0] !in At(Pop(g), r)
    {
      var d := g.todo[0];
      assert Allowed(g, g.round, d);
      assert forall x | x in At(Pop(g), r) :: x in At(g, r);
      assert d in At(g, r) ==> Allowed(g, r, d);
    }
  }

  lemma FunderOf(g: Gen)
    requires g.todo != [] && Allowed(g, g.round, g.todo[0])
    ensures g.todo[0].EphClosePay? ==> g.todo[0].e < |g.eph| && g.todo[0].f == g.eph[g.todo[0].e].funder
  {
  }

  lemma EphStepSchedule(g: Gen)
    requires Schedule(g) && g.todo != [] && StepInRange(g, g.todo[0])
    requires g.todo[0].EphOptIn? || g.todo[0].EphGrant? || g.todo[0].EphCloseAsset? || g.todo[0].EphClosePay?
    ensures Schedule(RunStep(g).0)
  {
    hide At, HoldingFirst, Distinct, Ahead, Allowed, Undone, Onward, Sub64, Add64;
    var d, e := g.todo[0], g.todo[0].e;
    PhaseReached(g);
    PopOrderly(g);
    assert OnEph(d, e);
    FunderOf(g);
    EphTakenOnce(g);
    var g0, g' := Pop(g), RunStep(g).0;
    EphStepShape(g);
    SameAt(g0, g');
    forall r: nat, d' | d' in At(g', r)
      ensures Allowed(g', r, d')
    {
      AllowedEphStep(g0, g', e, r, d, d');
    }
    EphStepLifecycles(g, g');
  }

  lemma EphStepShape(g: Gen)
    requires g.todo != [] && StepInRange(g, g.todo[0])
    requires g.todo[0].EphOptIn? || g.todo[0].EphGrant? || g.todo[0].EphCloseAsset? || g.todo[0].EphClosePay?
    ensures OnlyEph(Pop(g), RunStep(g).0, g.todo[0].e)
    ensures RunStep(g).0.eph[g.todo[0].e].phase == PhaseAfter(g.todo[0])
  {
    hide Sub64, Add64;
  }

  lemma EphStepLifecycles(g: Gen, g': Gen)
    requires Lifecycles(g) && Closings(g) && g.todo != []
    requires g.todo[0].EphOptIn? || g.todo[0].EphGrant? || g.todo[0].EphCloseAsset? || g.todo[0].EphClosePay?
    requires OnlyEph(Pop(g), g', g.todo[0].e) && g'.eph[g.todo[0].e].phase == PhaseAfter(g.todo[0])
    requires g.eph[g.todo[0].e].phase == PhaseBefore(g.todo[0])
    ensures Lifecycles(g') && Closings(g')
  {
    hide At;
    SameAt(Pop(g), g');
    forall i | 0 <= i < |g'.accts|
      ensures Undone(g', i)
    {
      assert Undone(g, i) && SameAcct(Pop(g), g', i);
      UndonePopQuiet(g, g', i);
    }
    forall x | 0 <= x < |g'.eph|
      ensures Onward(g', x)
    {
      assert Onward(g, x);
      OnwardPopEph(g, g', x);
    }
  }

  lemma UndonePopQuiet(g: Gen, g': Gen, i: nat)
    requires g.todo != [] && i < |g.accts| && Undone(g, i) && !ActsOn(g.todo[0], i)
    requires |g'.accts| == |g.accts| && g'.round == g.round && SameAcct(Pop(g), g', i)
    requires g'.sched == g.sched && g'.todo == g.todo[1..]
    ensures Undone(g', i)
  {
    hide At;
    var r := g.accts[i].reserved;
    SameAt(Pop(g), g');
    forall d | ActsOn(d, i) && d in At(g, r)
      ensures d in At(g', r)
    {
      PopStays(g, r, d);
    }
    assert ActsOn(Unfreeze(i), i) && ActsOn(RekeyBack(i), i) && ActsOn(GoOffline(i), i) && ActsOn(Grant(i), i);
  }

  lemma OnwardPopEph(g: Gen, g': Gen, x: nat)
    requires g.todo != [] && x < |g.eph| && Onward(g, x)
    requires g.todo[0].EphOptIn? || g.todo[0].EphGrant? || g.todo[0].EphCloseAsset? || g.todo[0].EphClosePay?
    requires OnlyEph(Pop(g), g', g.todo[0].e) && g'.eph[g.todo[0].e].phase == PhaseAfter(g.todo[0])
    requires g.eph[g.todo[0].e].phase == PhaseBefore(g.todo[0])
    ensures Onward(g', x)
  {
    hide At;
    SameAt(Pop(g), g');
    forall d, r: nat | OnEph(d, x) && d in At(g, r) && d != g.todo[0]
      ensures d in At(g', r)
    {
      PopStays(g, r, d);
    }
    assert OnEph(EphOptIn(x), x) && OnEph(EphGrant(x), x) && OnEph(EphCloseAsset(x), x);
  }

  // ---- steps of a throwaway ---------------------------------------------------------------------

  /** The last step of a throwaway leaves nothing of it pending. */
  lemma LastThrowStep(g: Gen, t: nat)
    requires Orderly(g) && g.todo != [] && (g.todo[0] == AppStep(t, Delete) || g.todo[0] == AssetDestroyStep(t))
    ensures forall r: nat, d | d in At(Pop(g), r) :: !OnThrow(d, t)
  {
    PopOrderly(g);
    forall r: nat, d | d in At(Pop(g), r)
      ensures !OnThrow(d, t)
    {
      var d0 := g.todo[0];
      assert Allowed(g, r, d) && Allowed(g, g.round, d0);
      assert OnThrow(d, t) ==> r == g.round;
      assert OnThrow(d, t) ==> d == d0;
    }
  }

  lemma AllowedThrowStep(g: Gen, g': Gen, t: nat, r: nat, d: Step)
    requires t < |g.throws| == |g'.throws| && (forall u | 0 <= u < |g.throws| && u != t :: g'.throws[u] == g.throws[u])
    requires g'.accts == g.accts && g'.frozen == g.frozen && g'.granted == g.granted && g'.eph == g.eph
    requires Allowed(g, r, d) && !OnThrow(d, t)
    ensures Allowed(g', r, d)
  {
  }

  lemma ThrowStepSchedule(g: Gen)
    requires Schedule(g) && g.todo != [] && StepInRange(g, g.todo[0])
    requires g.todo[0].AppStep? || g.todo[0].AssetReconfig? || g.todo[0].AssetDestroyStep?
    ensures Schedule(RunStep(g).0)
  {
    hide At, HoldingFirst, Distinct, Ahead, Allowed, Undone, Onward;
    var g0, g' := Pop(g), RunStep(g).0;
    var t := g.todo[0].t;
    PopOrderly(g);
    SameAt(g0, g');
    forall r: nat, d | d in At(g', r)
      ensures Allowed(g', r, d)
    {
      if g.todo[0] == AppStep(t, Delete) || g.todo[0] == AssetDestroyStep(t) {
        LastThrowStep(g, t);
        AllowedThrowStep(g0, g', t, r, d);
      } else {
        AllowedSame(g0, g', r, d);
      }
    }
    PopLifecycles(g, g');
  }

  lemma PopLifecycles(g: Gen, g': Gen)
    requires Lifecycles(g) && Closings(g) && g.todo != []
    requires forall i :: !ActsOn(g.todo[0], i)
    requires forall e :: !OnEph(g.todo[0], e)
    requires g'.accts == g.accts && g'.frozen == g.frozen && g'.granted == g.granted && g'.eph == g.eph
    requires g'.round == g.round && g'.sched == g.sched && g'.todo == g.todo[1..]
    ensures Lifecycles(g') && Closings(g')
  {
    hide At;
    forall i | 0 <= i < |g'.accts|
      ensures Undone(g', i)
    {
      assert Undone(g, i);
      UndonePopQuiet(g, g', i);
    }
    forall e | 0 <= e < |g'.eph|
      ensures Onward(g', e)
    {
      assert Onward(g, e);
      OnwardPop(g, g', e);
    }
  }

  // ---- the turn of the round ----------------------------------------------------------------------

  lemma BeginAt(g: Gen, r: nat)
    requires g.todo == [] && Ahead(g)
    ensures At(BeginRound(g), r) == At(g, r)
  {
  }

  lemma BeginSchedule(g: Gen)
    requires Schedule(g) && g.todo == []
    ensures Schedule(BeginRound(g))
  {
    hide Allowed, At;
    var g' := BeginRound(g);
    forall r: nat
      ensures At(g', r) == At(g, r)
    {
      BeginAt(g, r);
    }
    forall r: nat, d | d in At(g', r)
      ensures Allowed(g', r, d)
    {
      AllowedSame(g, g', r, d);
    }
    forall i | 0 <= i < |g'.accts|
      ensures Undone(g', i)
    {
      assert Undone(g, i);
    }
    forall e | 0 <= e < |g'.eph|
      ensures Onward(g', e)
    {
      assert Onward(g, e);
    }
  }
}

/** Every pending step refers to accounts, ephemeral accounts and throwaways that exist, whatever the
    ledger does. */
module PlannerRange {
  import opened Optional
  import opened Ledger
  import opened Planner
  import opened PlannerRun
  import opened PlannerRounds
  import opened PlannerOutcome
  import opened PlannerTape

  ghost predicate InRange(g: Gen) {
    && |g.accts| > 0
    && (forall d | d in g.todo :: StepInRange(g, d))
    && (forall r, d | r in g.sched && d in g.sched[r] :: StepInRange(g, d))
  }

  /** No record disappears, and throwaways keep their creators. */
  ghost predicate Wider(g: Gen, g': Gen) {
    && |g'.accts| == |g.accts| && |g.eph| <= |g'.eph| && |g.throws| <= |g'.throws|
    && forall t | 0 <= t < |g.throws| :: g'.throws[t].creator == g.throws[t].creator
  }

  lemma StaysInRange(g: Gen, g': Gen, d: Step)
    requires Wider(g, g') && StepInRange(g, d)
    ensures StepInRange(g', d)
  {
  }

  lemma WiderRange(g: Gen, g': Gen)
    requires InRange(g) && Wider(g, g') && g'.round == g.round && g'.sched == g.sched
    requires forall d | d in g'.todo :: d in g.todo
    ensures InRange(g')
  {
    hide StepInRange;
    forall d | StepInRange(g, d)
      ensures StepInRange(g', d)
    {
      StaysInRange(g, g', d);
    }
  }

  lemma LaterRange(g: Gen, delay: nat, d: Step)
    requires delay > 0 && InRange(g) && StepInRange(g, d)
    ensures InRange(Later(g, delay, d)) && Later(g, delay, d) == g.(sched := Later(g, delay, d).sched)
  {
    hide StepInRange;
    var g' := Later(g, delay, d);
    forall r, x | r in g'.sched && x in g'.sched[r]
      ensures StepInRange(g', x)
    {
      assert x == d || (r in g.sched && x in g.sched[r]);
      assert StepInRange(g, x);
      StaysInRange(g, g', x);
    }
    forall x | x in g'.todo
      ensures StepInRange(g', x)
    {
      StaysInRange(g, g', x);
    }
  }

  lemma NoteRange(g: Gen)
    requires InRange(g)
    ensures InRange(g.(noteCtr := g.noteCtr + 1))
  {
    WiderRange(g, g.(noteCtr := g.noteCtr + 1));
  }

  lemma StepRange(g: Gen)
    requires InRange(g) && g.todo != []
    ensures StepInRange(g, g.todo[0]) && InRange(RunStep(g).0) && RunStep(g).0.todo == g.todo[1..]
  {
    hide Sub64, Add64;
    assert g.todo[0] in g.todo;
    StepWider(g);
    WiderRange(g, RunStep(g).0);
  }

  lemma StepWider(g: Gen)
    requires g.todo != [] && StepInRange(g, g.todo[0])
    ensures var g' := RunStep(g).0;
      Wider(g, g') && g'.round == g.round && g'.sched == g.sched && g'.todo == g.todo[1..]
  {
    hide Sub64, Add64;
  }

  lemma BeginRange(g: Gen)
    requires InRange(g)
    ensures InRange(BeginRound(g))
  {
    hide StepInRange;
    var g' := BeginRound(g);
    forall d | d in g'.todo
      ensures StepInRange(g', d)
    {
      assert g.round + 1 in g.sched && d in g.sched[g.round + 1];
      StaysInRange(g, g', d);
    }
    forall r, d | r in g'.sched && d in g'.sched[r]
      ensures StepInRange(g', d)
    {
      assert r in g.sched && d in g.sched[r];
      StaysInRange(g, g', d);
    }
  }

  /** The actions that schedule nothing. */
  lemma QuietRange(g: Gen, act: Action)
    requires Enabled(g, act) && InRange(g)
    requires act.ActPay? || act.ActAxfer? || act.ActClawback? || act.ActInc? || act.ActAppOpt? || act.ActBoxPut?
             || act.ActBoxDel? || act.ActInner?
    ensures InRange(Do(g, act).0) && Do(g, act).0.todo == g.todo
  {
    hide Sub64, Add64, InRange;
    WiderRange(g, Do(g, act).0);
  }

  lemma AcctRange(g: Gen, g': Gen)
    requires InRange(g) && |g'.accts| == |g.accts| && g.eph <= g'.eph && g.throws <= g'.throws
    requires g'.round == g.round && g'.sched == g.sched && g'.todo == g.todo
    ensures InRange(g')
  {
    WiderRange(g, g');
  }

  /** The actions that leave steps for later. */
  lemma LifecycleRange(g: Gen, act: Action)
    requires Enabled(g, act) && InRange(g)
    requires act.ActAssetOptIn? || act.ActFreeze? || act.ActRekey? || act.ActKeyreg?
    ensures InRange(Do(g, act).0) && Do(g, act).0.todo == g.todo
  {
    hide InRange, Later;
    var g1 := Use(g, {act.a});
    match act
    case ActAssetOptIn(x) =>
      var g2 := g1.(accts := g1.accts[x := g1.accts[x].(optA := true, reserved := g.round + 1)]);
      AcctRange(g, g2);
      LaterRange(g2, 1, Grant(x));
      NoteRange(Later(g2, 1, Grant(x)));
    case ActFreeze(x) =>
      var g2 := g1.(accts := g1.accts[x := g1.accts[x].(reserved := g.round + 2)], frozen := g.frozen + {x});
      AcctRange(g, g2);
      LaterRange(g2, 2, Unfreeze(x));
      NoteRange(Later(g2, 2, Unfreeze(x)));
    case ActRekey(x, y) =>
      var h1 := Use(g, {x, y});
      var g2 := h1.(accts := h1.accts[x := h1.accts[x].(reserved := g.round + 3, auth := Some(Account(y)))]);
      AcctRange(g, g2);
      LaterRange(g2, 1, RekeyedPay(x));
      LaterRange(Later(g2, 1, RekeyedPay(x)), 3, RekeyBack(x));
      NoteRange(Later(Later(g2, 1, RekeyedPay(x)), 3, RekeyBack(x)));
    case ActKeyreg(x) =>
      var g2 := g1.(accts := g1.accts[x := g1.accts[x].(reserved := g.round + 20, online := true)]);
      AcctRange(g, g2);
      LaterRange(g2, 20, GoOffline(x));
      NoteRange(Later(g2, 20, GoOffline(x)));
  }

  lemma OpenedRange(g: Gen, f: nat)
    requires Free(g, f) && InRange(g)
    ensures InRange(DoCloseOut(g, f).0) && DoCloseOut(g, f).0.todo == g.todo
  {
    hide InRange, Later;
    var e := |g.eph|;
    var g1 := Use(g, {f}).(eph := g.eph + [Eph(g.round, f, Opened)], known := g.known + [Ephemeral(e)]);
    AcctRange(g, g1);
    LaterRange(g1, 1, EphOptIn(e));
    var g2 := Later(g1, 1, EphOptIn(e));
    LaterRange(g2, 2, EphGrant(e));
    var g3 := Later(g2, 2, EphGrant(e));
    LaterRange(g3, 3, EphCloseAsset(e));
    var g4 := Later(g3, 3, EphCloseAsset(e));
    LaterRange(g4, 3, EphClosePay(e, f));
    NoteRange(Later(g4, 3, EphClosePay(e, f)));
  }

  lemma AppRange(g: Gen, x: nat)
    requires Free(g, x) && InRange(g)
    ensures InRange(DoAppLifecycle(g, x).0) && DoAppLifecycle(g, x).0.todo == g.todo
  {
    hide InRange, Later;
    var t := |g.throws|;
    var g1 := NewThrow(Use(g, {x}), x, true);
    AcctRange(g, g1);
    LaterRange(g1, 2, AppStep(t, NoOp));
    var g2 := Later(g1, 2, AppStep(t, NoOp));
    LaterRange(g2, 4, AppStep(t, Update));
    var g3 := Later(g2, 4, AppStep(t, Update));
    LaterRange(g3, 6, AppStep(t, Delete));
    NoteRange(Later(g3, 6, AppStep(t, Delete)));
  }

  lemma AssetRange(g: Gen, x: nat)
    requires Free(g, x) && InRange(g)
    ensures InRange(DoAssetLifecycle(g, x).0) && DoAssetLifecycle(g, x).0.todo == g.todo
  {
    hide InRange, Later;
    var t := |g.throws|;
    var g1 := NewThrow(Use(g, {x}), x, false);
    AcctRange(g, g1);
    LaterRange(g1, 3, AssetReconfig(t));
    var g2 := Later(g1, 3, AssetReconfig(t));
    LaterRange(g2, 6, AssetDestroyStep(t));
    NoteRange(Later(g2, 6, AssetDestroyStep(t)));
  }

  lemma ActionRange(g: Gen, act: Action)
    requires Enabled(g, act) && InRange(g)
    ensures InRange(Do(g, act).0) && Do(g, act).0.todo == g.todo
  {
    hide InRange, DoCloseOut, DoAppLifecycle, DoAssetLifecycle;
    match act
    case ActCloseOut(a) => OpenedRange(g, a);
    case ActAppLifecycle(a) => AppRange(g, a);
    case ActAssetLifecycle(a) => AssetRange(g, a);
    case ActAssetOptIn(_) => LifecycleRange(g, act);
    case ActFreeze(_) => LifecycleRange(g, act);
    case ActRekey(_, _) => LifecycleRange(g, act);
    case ActKeyreg(_) => LifecycleRange(g, act);
    case _ => QuietRange(g, act);
  }

  lemma ActsRange(g: Gen, d: Drawn, act: Option<Action>)
    requires Acts(g, d, act) && InRange(g)
    ensures InRange(d.g) && d.g.todo == g.todo
  {
    hide Do, Enabled, InRange;
    if act.Some? { ActionRange(g, act.value); } else { AcctRange(g, d.g); }
  }

  lemma MemberRange(g: Gen, tape: nat -> nat, pos: nat)
    requires InRange(g) && |g.accts| >= 2
    ensures var d := DrawMember(g, tape, pos); InRange(d.g) && d.g.todo == g.todo
  {
    hide DrawPay, DrawAxfer, DrawInc, Acts, InRange;
    var k := tape(pos) % 3;
    var act;
    if k == 0 {
      act := PayActs(g, tape, pos + 1);
    } else if k == 1 {
      act := AxferActs(g, tape, pos + 1);
    } else {
      act := IncActs(g, tape, pos + 1);
    }
    ActsRange(g, DrawMember(g, tape, pos), act);
  }

  lemma {:induction false} MembersRange(g: Gen, tape: nat -> nat, pos: nat, size: nat, tries: nat, p: Option<Planned>)
    requires InRange(g) && |g.accts| >= 2
    ensures var d := DrawMembers(g, tape, pos, size, tries, p); InRange(d.g) && d.g.todo == g.todo
    decreases tries
  {
    hide InRange, DrawMember, Join;
    if tries > 0 {
      var d := DrawMember(g, tape, pos);
      MemberRange(g, tape, pos);
      MembersRange(d.g, tape, d.pos, size, tries - 1, Join(p, d.p));
    }
  }

  lemma DrawRange(k: nat, g: Gen, tape: nat -> nat, pos: nat)
    requires InRange(g) && |g.accts| >= 2 && k < 18
    ensures var d := DrawAction(k, g, tape, pos); InRange(d.g) && d.g.todo == g.todo
  {
    hide InRange, Acts, DrawMembers;
    if k == 11 {
      var size := 2 + tape(pos) % 4;
      MembersRange(g, tape, pos + 1, size, 2 * size, None);
      assert DrawAction(k, g, tape, pos) == DrawGroup(g, tape, pos);
    } else {
      hide DrawAction;
      var act := DrawActs(k, g, tape, pos);
      ActsRange(g, DrawAction(k, g, tape, pos), act);
    }
  }

  lemma CommitRange(g: Gen, c: Commit, id: nat)
    requires InRange(g)
    ensures InRange(OnCommit(g, c, id))
  {
    WiderRange(g, OnCommit(g, c, id));
  }

  lemma {:induction false} CommitAllRange(g: Gen, groups: seq<Planned>, ads: seq<nat>)
    requires InRange(g) && |ads| == |Flatten(groups)| && forall p | p in groups :: p.txns != []
    ensures InRange(CommitAll(g, groups, ads))
    decreases |groups|
  {
    hide InRange, OnCommit;
    if groups != [] {
      CommitRange(g, groups[0].onCommit, ads[0]);
      CommitAllRange(OnCommit(g, groups[0].onCommit, ads[0]), groups[1..], ads[|groups[0].txns|..]);
    }
  }
}

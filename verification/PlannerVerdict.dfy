/** When the ledger accepts what a round plans: exactly when no step of it is short of units. */
module PlannerVerdict {
  import opened Optional
  import opened Ledger
  import opened Planner
  import opened PlannerInv
  import opened PlannerDeferred
  import opened PlannerRun
  import opened PlannerRounds
  import opened PlannerOutcome
  import opened PlannerTape
  import opened PlannerSupply

  // ---- one random action --------------------------------------------------------------------------

  lemma ActsOutcome(g: Gen, s: State, d: Drawn, act: Option<Action>) returns (s': State)
    requires Inv(g, s) && Acts(g, d, act) && (act.Some? ==> !ShortAction(g, act.value))
    ensures Outcome(g, s, d.g, d.p, s')
  {
    hide Inv, Outcome, Do, Enabled, ShortAction;
    if act.Some? {
      s' := Done(g, s, act.value);
    } else {
      s' := s;
      GiveUp(g, s, d.g.busy - g.busy);
      assert Use(g, d.g.busy - g.busy) == d.g;
    }
  }

  lemma MemberOutcome(g: Gen, s: State, tape: nat -> nat, pos: nat) returns (s': State)
    requires Inv(g, s) && |g.accts| >= 2
    ensures var d := DrawMember(g, tape, pos); Outcome(g, s, d.g, d.p, s') && Plainly(d.p)
  {
    hide Inv, Outcome, DrawPay, DrawAxfer, DrawInc, Acts;
    MemberFacts(g, tape, pos);
    var k := tape(pos) % 3;
    var act;
    if k == 0 {
      act := PayActs(g, tape, pos + 1);
    } else if k == 1 {
      act := AxferActs(g, tape, pos + 1);
    } else {
      act := IncActs(g, tape, pos + 1);
    }
    s' := ActsOutcome(g, s, DrawMember(g, tape, pos), act);
  }

  lemma OutcomeInv(g: Gen, s: State, g': Gen, p: Option<Planned>, s': State)
    requires Outcome(g, s, g', p, s')
    ensures Inv(g', s')
  {
  }

  lemma {:induction false} MembersOutcome(g: Gen, s: State, g1: Gen, s1: State, tape: nat -> nat, pos: nat,
                                          size: nat, tries: nat, p: Option<Planned>) returns (s': State)
    requires |g1.accts| >= 2 && Outcome(g, s, g1, p, s1) && Plainly(p)
    ensures var d := DrawMembers(g1, tape, pos, size, tries, p); Outcome(g, s, d.g, d.p, s')
    decreases tries
  {
    hide Inv, Outcome, DrawMember, Join, Plainly;
    if tries == 0 || (p.Some? && |p.value.txns| >= size) {
      s' := s1;
    } else {
      OutcomeInv(g, s, g1, p, s1);
      var d := DrawMember(g1, tape, pos);
      var s2 := MemberOutcome(g1, s1, tape, pos);
      OutcomeThen(g, s, g1, p, s1, d.g, d.p, s2);
      s' := MembersOutcome(g, s, d.g, s2, tape, d.pos, size, tries - 1, Join(p, d.p));
    }
  }

  /** The draw asks the main application for a unit that it does not have. */
  predicate ShortDraw(k: nat, g: Gen, tape: nat -> nat, pos: nat)
    requires |g.accts| >= 2
  {
    k == 10 && DrawInner(g, tape, pos).p.Some? && g.inners >= APP_ASSET_FUND
  }

  lemma TableEntries(g: Gen, tape: nat -> nat, pos: nat)
    requires |g.accts| >= 2
    ensures DrawAction(10, g, tape, pos) == DrawInner(g, tape, pos)
    ensures DrawAction(11, g, tape, pos) == DrawGroup(g, tape, pos)
  {
    hide DrawInner, DrawGroup;
  }

  lemma GroupOutcome(g: Gen, s: State, tape: nat -> nat, pos: nat) returns (s': State)
    requires Inv(g, s) && |g.accts| >= 2
    ensures var d := DrawGroup(g, tape, pos); Outcome(g, s, d.g, d.p, s')
  {
    hide Inv, Outcome, DrawMembers;
    NoPick(g, s);
    var size := 2 + tape(pos) % 4;
    s' := MembersOutcome(g, s, g, s, tape, pos + 1, size, 2 * size, None);
  }

  /** Whatever the tape says, the drawn action is accepted, or finds no account, or is short. */
  lemma DrawOutcome(k: nat, g: Gen, s: State, tape: nat -> nat, pos: nat) returns (s': State)
    requires Inv(g, s) && |g.accts| >= 2 && k < 18 && !ShortDraw(k, g, tape, pos)
    ensures var d := DrawAction(k, g, tape, pos); Outcome(g, s, d.g, d.p, s')
  {
    hide Inv, Outcome, DrawAction, DrawInner, DrawGroup, Do, Enabled;
    TableEntries(g, tape, pos);
    if k == 11 {
      s' := GroupOutcome(g, s, tape, pos);
    } else {
      var act := DrawActs(k, g, tape, pos);
      s' := ActsOutcome(g, s, DrawAction(k, g, tape, pos), act);
    }
  }

  lemma ShortDrawFails(k: nat, g: Gen, s: State, tape: nat -> nat, pos: nat)
    requires Inv(g, s) && |g.accts| >= 2 && ShortDraw(k, g, tape, pos)
    ensures var d := DrawAction(k, g, tape, pos); d.p.Some? && Exec(s, d.p.value.txns).None?
    ensures !Fits(|g.accts|, g.rounds)
  {
    hide Inv, Exec, DrawAction, DrawInner, Do, Enabled, Fits;
    TableEntries(g, tape, pos);
    var act := DrawActs(k, g, tape, pos);
    ShortActionFails(g, s, act.value);
    if Fits(|g.accts|, g.rounds) { ActionSupplied(g, s, act.value); }
  }

  // ---- refusal is final -----------------------------------------------------------------------------

  lemma {:induction false} RefusedMore(s: State, xs: seq<Signed>, ys: seq<Signed>)
    requires Exec(s, xs).None?
    ensures Exec(s, xs + ys).None?
    decreases |xs|
  {
    hide Apply;
    assert xs != [] && (xs + ys)[0] == xs[0] && (xs + ys)[1..] == xs[1..] + ys;
    if Apply(s, xs[0]).Some? { RefusedMore(Apply(s, xs[0]).value, xs[1..], ys); }
  }

  lemma {:induction false} RefusedThen(s: State, xs: seq<Signed>, s1: State, ys: seq<Signed>)
    requires Exec(s, xs) == Some(s1) && Exec(s1, ys).None?
    ensures Exec(s, xs + ys).None?
    decreases |xs|
  {
    hide Apply;
    if xs == [] {
      assert xs + ys == ys;
    } else {
      assert (xs + ys)[0] == xs[0] && (xs + ys)[1..] == xs[1..] + ys;
      RefusedThen(Apply(s, xs[0]).value, xs[1..], s1, ys);
    }
  }

  /** One more group that the ledger refuses. */
  lemma GroupRefused(g0: Gen, s0: State, g: Gen, s: State, groups: seq<Planned>, p: Planned)
    requires SoFar(g0, s0, g, s, groups) && Exec(s, p.txns).None?
    ensures Exec(s0, Flatten(groups + [p])).None?
  {
    hide Inv, Exec, Flatten, ApplyData, Waits, Covers, Receivers, Elems;
    FlattenAppend(groups, p);
    RefusedThen(s0, Flatten(groups), s, p.txns);
  }

  lemma {:induction false} FlattenConcat(a: seq<Planned>, b: seq<Planned>)
    ensures Flatten(a + b) == Flatten(a) + Flatten(b)
  {
    if a == [] {
      assert a + b == b;
    } else {
      FlattenConcat(a[1..], b);
      assert (a + b)[0] == a[0] && (a + b)[1..] == a[1..] + b;
      ThreeParts(a[0].txns, Flatten(a[1..]), Flatten(b));
    }
  }

  lemma ThreeParts(x: seq<Signed>, y: seq<Signed>, z: seq<Signed>)
    ensures x + (y + z) == x + y + z
  {
  }

  lemma StaysRefused(s0: State, groups: seq<Planned>, more: seq<Planned>)
    requires Exec(s0, Flatten(groups)).None?
    ensures Exec(s0, Flatten(groups + more)).None?
  {
    hide Exec, Flatten;
    FlattenConcat(groups, more);
    RefusedMore(s0, Flatten(groups), Flatten(more));
  }

  // ---- the deferred steps of a round ----------------------------------------------------------------

  /** No deferred step on the way is short. */
  ghost predicate RunsFed(g: Gen, groups: seq<Planned>)
    decreases |groups|
  {
    groups != [] ==>
      g.todo != [] && StepInRange(g, g.todo[0]) && !ShortStep(g) && RunsFed(RunStep(g).0, groups[1..])
  }

  lemma SoFarStep(g0: Gen, s0: State, g: Gen, s: State, done: seq<Planned>) returns (s': State)
    requires SoFar(g0, s0, g, s, done) && g.todo != [] && !ShortStep(g)
    ensures StepInRange(g, g.todo[0]) && SoFar(g0, s0, RunStep(g).0, s', done + [RunStep(g).1])
  {
    hide SoFar, Inv, Planning, Exec, RunStep, StepInRange, ShortStep;
    SoFarInv(g0, s0, g, s, done);
    StepPlanning(g, s);
    s' := Exec(s, RunStep(g).1.txns).value;
    SoFarNext(g0, s0, g, s, done, RunStep(g).0, RunStep(g).1, s');
  }

  lemma SameSize(g0: Gen, s0: State, g: Gen, s: State, done: seq<Planned>)
    requires SoFar(g0, s0, g, s, done)
    ensures |g.accts| == |g0.accts| && g.rounds == g0.rounds
  {
    hide Inv, Exec, Flatten, ApplyData, Waits, Covers, Receivers, Elems;
  }

  lemma {:induction false} RunsVerdict(g0: Gen, s0: State, g: Gen, s: State, done: seq<Planned>, groups: seq<Planned>,
                                       g': Gen)
    returns (s': State)
    requires SoFar(g0, s0, g, s, done) && Runs(g, groups, g')
    ensures RunsFed(g, groups) ==> SoFar(g0, s0, g', s', done + groups)
    ensures !RunsFed(g, groups) ==> Exec(s0, Flatten(done + groups)).None?
    ensures Fits(|g0.accts|, g0.rounds) ==> RunsFed(g, groups)
    decreases |groups|
  {
    hide SoFar, Inv, Exec, RunStep, StepInRange, ShortStep, Flatten, Fits;
    SameSize(g0, s0, g, s, done);
    SoFarInv(g0, s0, g, s, done);
    s' := s;
    if groups == [] {
      assert done + groups == done;
    } else {
      var p := groups[0];
      assert done + groups == done + [p] + groups[1..];
      if ShortStep(g) {
        ShortStepFails(g, s);
        GroupRefused(g0, s0, g, s, done, p);
        StaysRefused(s0, done + [p], groups[1..]);
        if Fits(|g0.accts|, g0.rounds) { StepSupplied(g, s); }
      } else {
        var s1 := SoFarStep(g0, s0, g, s, done);
        s' := RunsVerdict(g0, s0, RunStep(g).0, s1, done + [p], groups[1..], g');
      }
    }
  }

  // ---- the random actions of a round ---------------------------------------------------------------

  /** The next random action is short. */
  predicate ShortNext(f: Fill, tape: nat -> nat)
    requires |f.g.accts| >= 2
  {
    ShortDraw(Chosen(WEIGHTS, tape(f.pos) % 95), f.g, tape, f.pos + 1)
  }

  /** None of the first n random actions is short. */
  ghost predicate FillFed(f: Fill, tape: nat -> nat, n: nat)
    requires |f.g.accts| >= 2
  {
    forall m: nat | m < n :: !ShortNext(FillN(f, tape, m), tape)
  }

  lemma EntryOf(r: nat)
    ensures Chosen(WEIGHTS, r % 95) < 18
  {
    hide SumTo, Chosen;
    TotalWeight();
    ChosenEntry(WEIGHTS, r % 95);
  }

  lemma SoFarFill(g0: Gen, s0: State, f: Fill, s: State, tape: nat -> nat) returns (s': State)
    requires SoFar(g0, s0, f.g, s, f.groups) && |f.g.accts| >= 2 && !ShortNext(f, tape)
    ensures var f' := FillStep(f, tape); SoFar(g0, s0, f'.g, s', f'.groups)
  {
    hide SoFar, Inv, Planning, DrawAction, ShortDraw, Chosen;
    SoFarInv(g0, s0, f.g, s, f.groups);
    EntryOf(tape(f.pos));
    var k := Chosen(WEIGHTS, tape(f.pos) % 95);
    var d := DrawAction(k, f.g, tape, f.pos + 1);
    s' := DrawOutcome(k, f.g, s, tape, f.pos + 1);
    if d.p.None? {
      SoFarBusy(g0, s0, f.g, s, f.groups, d.g);
    } else {
      SoFarNext(g0, s0, f.g, s, f.groups, d.g, d.p.value, s');
    }
  }

  lemma ShortFillFails(g0: Gen, s0: State, f: Fill, s: State, tape: nat -> nat)
    requires SoFar(g0, s0, f.g, s, f.groups) && |f.g.accts| >= 2 && ShortNext(f, tape)
    ensures Exec(s0, Flatten(FillStep(f, tape).groups)).None?
    ensures !Fits(|f.g.accts|, f.g.rounds)
  {
    hide SoFar, Inv, Exec, Flatten, DrawAction, ShortDraw, Chosen, Fits;
    SoFarInv(g0, s0, f.g, s, f.groups);
    var k := Chosen(WEIGHTS, tape(f.pos) % 95);
    ShortDrawFails(k, f.g, s, tape, f.pos + 1);
    GroupRefused(g0, s0, f.g, s, f.groups, DrawAction(k, f.g, tape, f.pos + 1).p.value);
  }

  /** Filling only adds groups. */
  lemma FillRefused(s0: State, f: Fill, tape: nat -> nat)
    requires |f.g.accts| >= 2 && Exec(s0, Flatten(f.groups)).None?
    ensures Exec(s0, Flatten(FillStep(f, tape).groups)).None?
  {
    hide Exec, Flatten, DrawAction, Chosen;
    var d := DrawAction(Chosen(WEIGHTS, tape(f.pos) % 95), f.g, tape, f.pos + 1);
    if d.p.Some? { StaysRefused(s0, f.groups, [d.p.value]); }
  }

  lemma {:induction false} FillVerdict(g0: Gen, s0: State, f: Fill, s: State, tape: nat -> nat, n: nat)
    returns (s': State)
    requires SoFar(g0, s0, f.g, s, f.groups) && |f.g.accts| >= 2
    ensures var f' := FillN(f, tape, n);
      && (FillFed(f, tape, n) ==> SoFar(g0, s0, f'.g, s', f'.groups))
      && (!FillFed(f, tape, n) ==> Exec(s0, Flatten(f'.groups)).None?)
    ensures Fits(|g0.accts|, g0.rounds) ==> FillFed(f, tape, n)
  {
    hide SoFar, Exec, Flatten, FillStep, ShortNext, Fits;
    s' := s;
    if n > 0 {
      var s1 := FillVerdict(g0, s0, f, s, tape, n - 1);
      var f1 := FillN(f, tape, n - 1);
      if !FillFed(f, tape, n - 1) {
        FillRefused(s0, f1, tape);
      } else if ShortNext(f1, tape) {
        SameSize(g0, s0, f1.g, s1, f1.groups);
        ShortFillFails(g0, s0, f1, s1, tape);
      } else {
        s' := SoFarFill(g0, s0, f1, s1, tape);
        assert FillFed(f, tape, n);
      }
    }
  }

  // ---- a whole round ----------------------------------------------------------------------------------

  /** Some random action that the round gets to is short. */
  ghost predicate FillStarves(f: Fill, tape: nat -> nat, limit: nat)
    requires |f.g.accts| >= 2
  {
    exists n: nat :: !Full(FillN(f, tape, n), limit) && ShortNext(FillN(f, tape, n), tape)
                     && forall m: nat | m < n :: !Full(FillN(f, tape, m), limit)
  }

  /** The round planned from g asks for units that are not there: in a deferred step, or in one of the
      random actions that fill it. */
  ghost predicate Starves(g: Gen, tape: nat -> nat, pos: nat, limit: nat) {
    exists steps: seq<Planned>, g1: Gen ::
      && Runs(BeginRound(g), steps, g1) && g1.todo == [] && |g1.accts| >= 2
      && (!RunsFed(BeginRound(g), steps) || FillStarves(Fill(g1, pos, steps, 0), tape, limit))
  }

  lemma FedUnlessStarved(f: Fill, tape: nat -> nat, limit: nat, n: nat)
    requires |f.g.accts| >= 2 && Full(FillN(f, tape, n), limit)
    requires forall m: nat | m < n :: !Full(FillN(f, tape, m), limit)
    ensures FillFed(f, tape, n) <==> !FillStarves(f, tape, limit)
  {
    hide FillN, Full, ShortNext;
    if FillStarves(f, tape, limit) {
      var k: nat :| !Full(FillN(f, tape, k), limit) && ShortNext(FillN(f, tape, k), tape)
                    && forall m: nat | m < k :: !Full(FillN(f, tape, m), limit);
      assert k < n;
    }
    if !FillFed(f, tape, n) {
      var k: nat :| k < n && ShortNext(FillN(f, tape, k), tape);
      assert !Full(FillN(f, tape, k), limit);
    }
  }

  lemma EndedSoFar(g0: Gen, s0: State, f: Fill, s: State) returns (s': State)
    requires SoFar(g0, s0, f.g, s, f.groups)
    ensures SoFar(g0, s0, Ended(f).g, s', Ended(f).groups)
  {
    hide SoFar, Inv, Planning, Exec, DoFiller;
    s' := s;
    if f.groups == [] {
      SoFarInv(g0, s0, f.g, s, f.groups);
      FillerPlanning(f.g, s);
      s' := Exec(s, DoFiller(f.g).1.txns).value;
      SoFarNext(g0, s0, f.g, s, f.groups, DoFiller(f.g).0, DoFiller(f.g).1, s');
      assert f.groups + [DoFiller(f.g).1] == [DoFiller(f.g).1];
    }
  }

  lemma EndedRefused(s0: State, f: Fill)
    requires Exec(s0, Flatten(f.groups)).None?
    ensures Ended(f) == f
  {
  }

  /** The random part of the round, after its deferred steps were all accepted. */
  lemma FillsVerdict(g0: Gen, s0: State, f: Fill, s: State, tape: nat -> nat, limit: nat, f': Fill) returns (s': State)
    requires SoFar(g0, s0, f.g, s, f.groups) && |f.g.accts| >= 2 && Fills(f, tape, limit, f')
    ensures !FillStarves(f, tape, limit) ==> SoFar(g0, s0, Ended(f').g, s', Ended(f').groups)
    ensures FillStarves(f, tape, limit) ==> Exec(s0, Flatten(Ended(f').groups)).None?
    ensures Fits(|g0.accts|, g0.rounds) ==> !FillStarves(f, tape, limit)
  {
    hide SoFar, Exec, Flatten, FillN, Full, FillFed, FillStarves, Fits, Ended;
    var n: nat :| f' == FillN(f, tape, n) && Full(f', limit)
                  && forall m: nat | m < n :: !Full(FillN(f, tape, m), limit);
    var s1 := FillVerdict(g0, s0, f, s, tape, n);
    FedUnlessStarved(f, tape, limit, n);
    s' := s1;
    if FillFed(f, tape, n) {
      s' := EndedSoFar(g0, s0, f', s1);
    } else {
      EndedRefused(s0, f');
    }
  }

  /** Deferred steps that were refused stay refused, whatever else the round plans. */
  lemma {:induction false} FillStaysRefused(s0: State, f: Fill, tape: nat -> nat, n: nat)
    requires |f.g.accts| >= 2 && Exec(s0, Flatten(f.groups)).None?
    ensures Exec(s0, Flatten(FillN(f, tape, n).groups)).None?
  {
    hide Exec, Flatten, FillStep;
    if n > 0 {
      FillStaysRefused(s0, f, tape, n - 1);
      FillRefused(s0, FillN(f, tape, n - 1), tape);
    }
  }

  lemma FillsRefused(s0: State, f: Fill, tape: nat -> nat, limit: nat, f': Fill)
    requires |f.g.accts| >= 2 && Exec(s0, Flatten(f.groups)).None? && Fills(f, tape, limit, f')
    ensures Exec(s0, Flatten(Ended(f').groups)).None?
  {
    hide Exec, Flatten, FillN, Full, Ended;
    var n: nat :| f' == FillN(f, tape, n) && Full(f', limit)
                  && forall m: nat | m < n :: !Full(FillN(f, tape, m), limit);
    FillStaysRefused(s0, f, tape, n);
    EndedRefused(s0, f');
  }

  /** The ledger accepts the plan of a round exactly when no step of it is short of units; then the
      generator's model is the ledger again. Within the bounds that is every round. */
  lemma RoundVerdict(g: Gen, s: State, tape: nat -> nat, pos: nat, limit: nat, g': Gen, pos': nat, groups: seq<Planned>)
    returns (s': State)
    requires Inv(g, s) && Committed(g) && g.todo == [] && g.round < g.rounds
    requires PlansRound(g, tape, pos, limit, g', pos', groups)
    ensures !Starves(g, tape, pos, limit) ==> SoFar(BeginRound(g), s, g', s', groups)
    ensures Starves(g, tape, pos, limit) ==> Exec(s, Flatten(groups)).None?
    ensures Fits(|g.accts|, g.rounds) ==> !Starves(g, tape, pos, limit)
  {
    hide SoFar, Inv, Exec, Flatten, Fits, Runs, RunsFed, Fills, FillStarves, Ended, BeginRound, Committed;
    var g0 := BeginRound(g);
    assert |g0.accts| == |g.accts| && g0.rounds == g.rounds by { BeginSize(g); }
    var steps: seq<Planned>, g1: Gen, f: Fill :|
      && Runs(g0, steps, g1) && g1.todo == [] && |g1.accts| >= 2
      && Fills(Fill(g1, pos, steps, 0), tape, limit, f) && Ended(f) == Fill(g', pos', groups, f.misses);
    var f0 := Fill(g1, pos, steps, 0);
    assert Starves(g, tape, pos, limit) <==> !RunsFed(g0, steps) || FillStarves(f0, tape, limit) by {
      StarvesHere(g, tape, pos, limit, steps, g1);
    }
    BeginInv(g, s);
    BeginCommitted(g);
    SoFarStart(g0, s);
    assert [] + steps == steps;
    var s1 := RunsVerdict(g0, s, g0, s, [], steps, g1);
    s' := s1;
    if RunsFed(g0, steps) {
      s' := FillsVerdict(g0, s, f0, s1, tape, limit, f);
    } else {
      FillsRefused(s, f0, tape, limit, f);
    }
  }

  lemma BeginSize(g: Gen)
    ensures |BeginRound(g).accts| == |g.accts| && BeginRound(g).rounds == g.rounds
  {
  }

  lemma StarvesHere(g: Gen, tape: nat -> nat, pos: nat, limit: nat, steps: seq<Planned>, g1: Gen)
    requires Runs(BeginRound(g), steps, g1) && g1.todo == [] && |g1.accts| >= 2
    ensures Starves(g, tape, pos, limit) <==>
              !RunsFed(BeginRound(g), steps) || FillStarves(Fill(g1, pos, steps, 0), tape, limit)
  {
    hide Runs, RunsFed, FillStarves, BeginRound;
    if Starves(g, tape, pos, limit) {
      var xs: seq<Planned>, x: Gen :|
        && Runs(BeginRound(g), xs, x) && x.todo == [] && |x.accts| >= 2
        && (!RunsFed(BeginRound(g), xs) || FillStarves(Fill(x, pos, xs, 0), tape, limit));
      RunsOnce(BeginRound(g), steps, g1, xs, x);
    }
  }
}

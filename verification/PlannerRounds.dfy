/** Whole rounds: planning group after group, committing the block, and the turn of the round. */
module PlannerRounds {
  import opened Optional
  import opened Ledger
  import opened Planner
  import opened PlannerInv
  import opened PlannerSched
  import opened PlannerSteps
  import opened PlannerMatch
  import opened PlannerCounts
  import opened PlannerRun

  /** The payset of a round: its groups' transactions in submission order. */
  function Flatten(groups: seq<Planned>): seq<Signed> {
    if groups == [] then [] else groups[0].txns + Flatten(groups[1..])
  }

  lemma {:induction false} FlattenAppend(groups: seq<Planned>, p: Planned)
    ensures Flatten(groups + [p]) == Flatten(groups) + p.txns
  {
    if groups == [] {
      assert groups + [p] == [p] && [p][1..] == [];
    } else {
      FlattenAppend(groups[1..], p);
      assert (groups + [p])[1..] == groups[1..] + [p];
    }
  }

  lemma {:induction false} ApplyDataConcat(s: State, xs: seq<Signed>, ys: seq<Signed>)
    requires Exec(s, xs).Some?
    ensures ApplyData(s, xs + ys) == ApplyData(s, xs) + ApplyData(Exec(s, xs).value, ys)
    decreases |xs|
  {
    hide Apply, Created;
    if xs == [] {
      assert xs + ys == ys;
    } else {
      assert (xs + ys)[0] == xs[0] && (xs + ys)[1..] == xs[1..] + ys;
      ApplyDataConcat(Apply(s, xs[0]).value, xs[1..], ys);
    }
  }

  // ---- handing out the created ids ------------------------------------------------------------

  /** The loop of cmdDrive that gives each group the ApplyData at its offset in the payset. */
  function CommitAll(g: Gen, groups: seq<Planned>, ads: seq<nat>): Gen
    requires |ads| == |Flatten(groups)| && forall p | p in groups :: p.txns != []
    decreases |groups|
  {
    if groups == [] then g
    else CommitAll(OnCommit(g, groups[0].onCommit, ads[0]), groups[1..], ads[|groups[0].txns|..])
  }

  /** Every group that waits for an id finds it at its own offset. */
  ghost predicate Waits(throws: seq<Throw>, groups: seq<Planned>, ads: seq<nat>)
    requires |ads| == |Flatten(groups)|
    decreases |groups|
  {
    groups == [] ||
    (&& groups[0].txns != []
     && (|| groups[0].onCommit == NoCommit
         || (&& groups[0].onCommit.SetThrow? && groups[0].onCommit.t < |throws|
             && throws[groups[0].onCommit.t].actual == ads[0]))
     && Waits(throws, groups[1..], ads[|groups[0].txns|..]))
  }

  ghost predicate KeepIds(throws: seq<Throw>, throws': seq<Throw>) {
    && |throws| <= |throws'|
    && forall t | 0 <= t < |throws| :: throws'[t].actual == throws[t].actual && throws'[t].id == throws[t].id
  }

  lemma {:induction false} WaitsAppend(throws: seq<Throw>, throws': seq<Throw>, groups: seq<Planned>, ads: seq<nat>,
                                       p: Planned, more: seq<nat>)
    requires |ads| == |Flatten(groups)| && Waits(throws, groups, ads) && KeepIds(throws, throws')
    requires p.txns != [] && |more| == |p.txns|
    requires p.onCommit == NoCommit ||
        (p.onCommit.SetThrow? && p.onCommit.t < |throws'| && throws'[p.onCommit.t].actual == more[0])
    ensures |ads + more| == |Flatten(groups + [p])| && Waits(throws', groups + [p], ads + more)
    decreases |groups|
  {
    FlattenAppend(groups, p);
    if groups == [] {
      assert groups + [p] == [p] && [p][1..] == [] && ads + more == more;
    } else {
      var n := |groups[0].txns|;
      WaitsAppend(throws, throws', groups[1..], ads[n..], p, more);
      assert (groups + [p])[0] == groups[0] && (groups + [p])[1..] == groups[1..] + [p];
      assert (ads + more)[n..] == ads[n..] + more;
    }
  }

  /** Which throwaways the groups of this round create. */
  ghost predicate Covers(throws: seq<Throw>, groups: seq<Planned>) {
    forall t | 0 <= t < |throws| && throws[t].id != throws[t].actual ::
      exists p | p in groups :: p.onCommit == SetThrow(t)
  }

  ghost predicate Committed(g: Gen) {
    forall t | 0 <= t < |g.throws| :: g.throws[t].id == g.throws[t].actual
  }

  /** `throws'` is `throws` with ids filled in. */
  ghost predicate Filled(throws: seq<Throw>, throws': seq<Throw>) {
    |throws'| == |throws| && forall t | 0 <= t < |throws| :: throws'[t].(id := 0) == throws[t].(id := 0)
  }

  /** After the hand-out every throwaway knows the id that the ledger gave it. */
  lemma {:induction false} CommitAllDone(g: Gen, groups: seq<Planned>, ads: seq<nat>)
    requires |ads| == |Flatten(groups)| && (forall p | p in groups :: p.txns != [])
    requires Waits(g.throws, groups, ads) && Covers(g.throws, groups)
    ensures Committed(CommitAll(g, groups, ads))
    ensures CommitAll(g, groups, ads) == g.(throws := CommitAll(g, groups, ads).throws)
    ensures Filled(g.throws, CommitAll(g, groups, ads).throws)
    decreases |groups|
  {
    if groups != [] {
      var g1 := OnCommit(g, groups[0].onCommit, ads[0]);
      var n := |groups[0].txns|;
      WaitsFilled(g.throws, g1.throws, groups[1..], ads[n..]);
      forall t | 0 <= t < |g1.throws| && g1.throws[t].id != g1.throws[t].actual
        ensures exists p | p in groups[1..] :: p.onCommit == SetThrow(t)
      {
        var p :| p in groups && p.onCommit == SetThrow(t);
        assert p != groups[0];
      }
      CommitAllDone(g1, groups[1..], ads[n..]);
    }
  }

  lemma {:induction false} WaitsFilled(throws: seq<Throw>, throws': seq<Throw>, groups: seq<Planned>, ads: seq<nat>)
    requires |ads| == |Flatten(groups)| && Waits(throws, groups, ads) && Filled(throws, throws')
    ensures Waits(throws', groups, ads)
    decreases |groups|
  {
    if groups != [] { WaitsFilled(throws, throws', groups[1..], ads[|groups[0].txns|..]); }
  }

  lemma CommitInv(g: Gen, s: State, g': Gen)
    requires Inv(g, s) && g' == g.(throws := g'.throws) && Filled(g.throws, g'.throws) && Committed(g')
    ensures Inv(g', s)
  {
    hide Orderly, Lifecycles, Closings, Boxes, Accounts, Ephs;
    CommitSchedule(g, g');
    AccountsFrame(g, s, g', s, {});
    BoxesFrame(g, s, g', s);
    EphsQuiet(g, s, g', s);
    forall t | 0 <= t < |g'.throws|
      ensures ThrowMatch(g', s, t) && g'.throws[t].actual == g.throws[t].actual
    {
      assert ThrowMatch(g, s, t) && g'.throws[t].(id := 0) == g.throws[t].(id := 0);
    }
  }

  lemma CommitSchedule(g: Gen, g': Gen)
    requires Schedule(g) && g' == g.(throws := g'.throws) && Filled(g.throws, g'.throws)
    ensures Schedule(g')
  {
    hide Allowed, HoldingFirst, Undone, Onward;
    SameAt(g, g');
    forall r: nat, d | d in At(g', r)
      ensures Allowed(g', r, d)
    {
      assert At(g', r) == At(g, r);
      AllowedFilled(g, g', r, d);
    }
    forall i | 0 <= i < |g'.accts|
      ensures Undone(g', i)
    {
      UndoneFilled(g, g', i);
    }
    ClosingsGrow(g, g');
  }

  lemma AllowedFilled(g: Gen, g': Gen, r: nat, d: Step)
    requires g' == g.(throws := g'.throws) && Filled(g.throws, g'.throws) && Allowed(g, r, d)
    ensures Allowed(g', r, d)
  {
    if d.AppStep? || d.AssetReconfig? || d.AssetDestroyStep? {
      assert g'.throws[d.t].(id := 0) == g.throws[d.t].(id := 0);
    }
  }

  lemma UndoneFilled(g: Gen, g': Gen, i: nat)
    requires g' == g.(throws := g'.throws) && i < |g.accts| && Undone(g, i)
    ensures Undone(g', i)
  {
    SameAt(g, g');
  }

  // ---- the turn of the round -------------------------------------------------------------------

  lemma {:induction false} NoneOpened(eph: seq<Eph>, r: nat)
    requires forall e | 0 <= e < |eph| :: eph[e].start < r
    ensures OpenedIn(eph, r) == 0
  {
    if eph != [] {
      forall e | 0 <= e < |eph[1..]|
        ensures eph[1..][e].start < r
      {
        assert eph[1..][e] == eph[e + 1];
      }
      NoneOpened(eph[1..], r);
    }
  }

  lemma BeginCounts(g: Gen)
    requires Counts(g) && g.round < g.rounds
    ensures Counts(BeginRound(g))
  {
    var n := |g.accts| - 1;
    NoneOpened(g.eph, g.round + 1);
    RangeCard(g.busy, n);
    assert g.inners <= (g.round - 1) * n + n == g.round * n;
  }

  lemma BeginMatches(g: Gen, s: State)
    requires Matches(g, s) && Committed(g)
    ensures Matches(BeginRound(g), s)
  {
    hide Boxes, Accounts, Ephs;
    var g' := BeginRound(g);
    AccountsFrame(g, s, g', s, {});
    BoxesFrame(g, s, g', s);
    BooksFrame(g, s, g', s);
    EphsQuiet(g, s, g', s);
    forall t | 0 <= t < |g'.throws|
      ensures ThrowMatch(g', s, t)
    {
      assert ThrowMatch(g, s, t);
    }
  }

  /** A new round starts from the invariant once the last block's ids have been handed out. */
  lemma BeginInv(g: Gen, s: State)
    requires Inv(g, s) && g.todo == [] && Committed(g) && g.round < g.rounds
    ensures Inv(BeginRound(g), s)
  {
    hide Schedule, Matches, Counts, BeginRound, Committed;
    BeginSchedule(g);
    BeginMatches(g, s);
    BeginCounts(g);
  }

  // ---- planning a round, group by group ------------------------------------------------------------

  /** The groups planned so far, from generator g0 and ledger s0 at the start of the round. */
  ghost predicate SoFar(g0: Gen, s0: State, g: Gen, s: State, groups: seq<Planned>) {
    && Inv(g, s) && SameRun(g0, g) && Exec(s0, Flatten(groups)) == Some(s)
    && (forall p | p in groups :: p.txns != [])
    && Waits(g.throws, groups, ApplyData(s0, Flatten(groups))) && Covers(g.throws, groups)
    && (forall t | t in Flatten(groups) :: HasKey(g, t.signer))
    && (AllKnown(g0) ==> AllKnown(g) && Elems(g.known) == Elems(g0.known) + Receivers(Flatten(groups)))
  }

  lemma SoFarStart(g: Gen, s: State)
    requires Inv(g, s) && Committed(g)
    ensures SoFar(g, s, g, s, [])
  {
    hide Inv;
    assert Receivers([]) == {};
  }

  /** One more group. */
  lemma SoFarNext(g0: Gen, s0: State, g: Gen, s: State, groups: seq<Planned>, g': Gen, p: Planned, s': State)
    requires SoFar(g0, s0, g, s, groups) && Planning(g, s, g', p, s')
    ensures SoFar(g0, s0, g', s', groups + [p])
  {
    hide Inv, Exec, ApplyData, Waits, Covers, AllKnown, Receivers, Elems, Handed, Flatten, HasKey;
    FlattenAppend(groups, p);
    ExecConcat(s0, Flatten(groups), p.txns);
    ApplyDataConcat(s0, Flatten(groups), p.txns);
    HandedWaits(g, s, g', p, groups, ApplyData(s0, Flatten(groups)));
    KeysKept(g, g', Flatten(groups));
    ReceiversConcat(Flatten(groups), p.txns);
  }

  lemma HandedWaits(g: Gen, s: State, g': Gen, p: Planned, groups: seq<Planned>, ads: seq<nat>)
    requires |ads| == |Flatten(groups)| && Waits(g.throws, groups, ads) && Covers(g.throws, groups)
    requires Handed(g, s, g', p) && p.txns != []
    ensures |ads + ApplyData(s, p.txns)| == |Flatten(groups + [p])|
    ensures Waits(g'.throws, groups + [p], ads + ApplyData(s, p.txns)) && Covers(g'.throws, groups + [p])
  {
    hide Waits, Flatten, Created;
    assert ApplyData(s, p.txns)[0] == Created(s, p.txns[0]);
    WaitsAppend(g.throws, g'.throws, groups, ads, p, ApplyData(s, p.txns));
    forall t | 0 <= t < |g'.throws| && g'.throws[t].id != g'.throws[t].actual
      ensures exists q | q in groups + [p] :: q.onCommit == SetThrow(t)
    {
      if t < |g.throws| {
        assert g'.throws[t].id == g.throws[t].id && g'.throws[t].actual == g.throws[t].actual;
        var q :| q in groups && q.onCommit == SetThrow(t);
        assert q in groups + [p];
      } else {
        assert p in groups + [p];
      }
    }
  }

  lemma KeysKept(g: Gen, g': Gen, ts: seq<Signed>)
    requires |g'.accts| == |g.accts| && |g.eph| <= |g'.eph| && forall t | t in ts :: HasKey(g, t.signer)
    ensures forall t | t in ts :: HasKey(g', t.signer)
  {
  }

  lemma ReceiversConcat(xs: seq<Signed>, ys: seq<Signed>)
    ensures Receivers(xs + ys) == Receivers(xs) + Receivers(ys)
  {
    forall a | a in Receivers(xs) + Receivers(ys)
      ensures a in Receivers(xs + ys)
    {
      if a in Receivers(xs) {
        var t :| t in xs && t.tx.Pay? && t.tx.receiver == a;
        assert t in xs + ys;
      } else {
        var t :| t in ys && t.tx.Pay? && t.tx.receiver == a;
        assert t in xs + ys;
      }
    }
  }

  lemma FlattenNone()
    ensures Flatten([]) == []
  {
  }

  lemma SoFarInv(g0: Gen, s0: State, g: Gen, s: State, groups: seq<Planned>)
    requires SoFar(g0, s0, g, s, groups)
    ensures Inv(g, s)
  {
    hide Inv;
  }

  lemma BeginCommitted(g: Gen)
    requires Committed(g)
    ensures Committed(BeginRound(g))
  {
  }
}

/** Simulation, continued: boxes, inner transfers, ephemeral accounts and throwaways. */
module PlannerResources {
  import opened Optional
  import opened Ledger
  import opened Planner
  import opened PlannerInv
  import opened PlannerSched
  import opened PlannerMatch
  import opened PlannerCounts
  import opened PlannerActions

  // ---- boxes ---------------------------------------------------------------------------------

  lemma BoxMatches(g: Gen, s: State, g': Gen, s': State)
    requires Matches(g, s) && Boxes(g', s')
    requires g' == g.(busy := g'.busy, noteCtr := g.noteCtr + 1, boxes := g'.boxes, boxCtr := g'.boxCtr)
    requires s' == s.(notes := s.notes + {g.noteCtr + 1}, boxes := s'.boxes)
    ensures Matches(g', s')
  {
    hide Boxes, Accounts, Throws, Ephs;
    NotesFit(g, s);
    AccountsFrame(g, s, g', s', {});
    BooksFrame(g, s, g', s');
    EphsQuiet(g, s, g', s');
    ThrowsFrame(g, s, g', s');
  }

  lemma BoxPutSim(g: Gen, s: State, a: nat)
    requires Inv(g, s) && Free(g, a)
    ensures Simulates(s, DoBoxPut(g, a))
  {
    hide Schedule, Counts, Ephs, Throws, Exec;
    AcctAuth(g, s, a);
    var (g', p) := DoBoxPut(g, a);
    var n := g.boxCtr + 1;
    Accepted(g, s, AppCall(Account(a), g.mainApp, NoOp, BoxPut(n)), AuthAddr(g, a));
    var s' := Noted(s, g.noteCtr + 1).(boxes := s.boxes + {n});
    assert Exec(s, p.txns) == Some(s');
    BoxAdded(g, s, g', s');
    BoxMatches(g, s, g', s');
    BusyCounts(g, g', {a});
    QuietSchedule(g, g');
  }

  lemma BoxAdded(g: Gen, s: State, g': Gen, s': State)
    requires Boxes(g, s) && g'.boxCtr == g.boxCtr + 1 && g'.boxes == g.boxes + [g.boxCtr + 1]
    requires s'.boxes == s.boxes + {g.boxCtr + 1}
    ensures Boxes(g', s')
  {
  }

  /** Swap-remove drops exactly the chosen name. */
  lemma SwapRemove(b: seq<nat>, i: nat)
    requires i < |b| && NoDup(b)
    ensures var r := b[i := b[|b| - 1]][..|b| - 1];
      NoDup(r) && forall n :: n in r <==> n in b && n != b[i]
  {
    var last := |b| - 1;
    var r := b[i := b[last]][..last];
    forall n
      ensures n in r <==> n in b && n != b[i]
    {
      if n in b && n != b[i] {
        var k :| 0 <= k < |b| && b[k] == n;
        assert r[if k == last then i else k] == n;
      }
      if n in r {
        var k :| 0 <= k < |r| && r[k] == n;
        assert b[if k == i then last else k] == n;
      }
    }
  }

  lemma BoxDelSim(g: Gen, s: State, a: nat, i: nat)
    requires Inv(g, s) && Free(g, a) && i < |g.boxes|
    ensures Simulates(s, DoBoxDel(g, a, i))
  {
    hide Schedule, Counts, Ephs, Throws, Exec;
    AcctAuth(g, s, a);
    var (g', p) := DoBoxDel(g, a, i);
    Accepted(g, s, AppCall(Account(a), g.mainApp, NoOp, BoxDel(g.boxes[i])), AuthAddr(g, a));
    var s' := Noted(s, g.noteCtr + 1).(boxes := s.boxes - {g.boxes[i]});
    assert g.boxes[i] in s.boxes;
    assert Exec(s, p.txns) == Some(s');
    SwapRemove(g.boxes, i);
    BoxMatches(g, s, g', s');
    BusyCounts(g, g', {a});
    QuietSchedule(g, g');
  }

  // ---- the main application's inner transfer -----------------------------------------------------

  lemma InnerSim(g: Gen, s: State, a: nat)
    requires Inv(g, s) && Free(g, a) && g.accts[a].optA && g.inners < APP_ASSET_FUND
    ensures Simulates(s, DoInner(g, a))
  {
    hide Schedule, Counts, Boxes, Ephs, Throws, Exec, Add64;
    AcctAuth(g, s, a);
    HoldsOf(g, s, a);
    IdleFlags(g, a);
    var (g', p) := DoInner(g, a);
    InnerBalance(g, a);
    SumBalUpdate(g.accts, a, g'.accts[a]);
    InnerCounts(g, g', a);
    Accepted(g, s, AppCall(Account(a), g.mainApp, NoOp, Inner(g.assetA, g.calleeApp)), AuthAddr(g, a));
    var s' := Moved(Noted(s, g.noteCtr + 1), g.assetA, AppAddr(g.mainApp), Account(a), 1);
    assert Exec(s, p.txns) == Some(s');
    InnerMatches(g, s, g', s', a);
    QuietSchedule(g, g');
  }

  lemma InnerBalance(g: Gen, a: nat)
    requires Counts(g) && a < |g.accts| && 0 < a
    ensures Add64(g.accts[a].balA, 1) == g.accts[a].balA + 1
  {
    SumBalUpdate(g.accts, a, g.accts[a]);
    NoWrap(g.accts[a].balA, 1);
  }

  lemma InnerMatches(g: Gen, s: State, g': Gen, s': State, a: nat)
    requires Matches(g, s) && 0 < a < |g.accts| && g.accts[a].optA && g.inners < APP_ASSET_FUND
    requires AcctMatch(g, s, a)
    requires g' == g.(busy := g'.busy, noteCtr := g.noteCtr + 1, inners := g.inners + 1,
                      accts := g.accts[a := g.accts[a].(balA := g.accts[a].balA + 1)])
    requires s' == Moved(Noted(s, g.noteCtr + 1), g.assetA, AppAddr(g.mainApp), Account(a), 1)
    ensures Matches(g', s')
  {
    hide Boxes, Accounts, Throws, Ephs;
    NotesFit(g, s);
    AccountsFrame(g, s, g', s', {a});
    BoxesFrame(g, s, g', s');
    EphsOffAccounts(g, s, g', s');
    ThrowsFrame(g, s, g', s');
  }

  // ---- ephemeral accounts -------------------------------------------------------------------------

  lemma CloseOutSim(g: Gen, s: State, f: nat)
    requires Inv(g, s) && Free(g, f)
    ensures Simulates(s, DoCloseOut(g, f))
  {
    hide Schedule, Counts, Boxes, Throws, Exec;
    AcctAuth(g, s, f);
    var (g', p) := DoCloseOut(g, f);
    Accepted(g, s, Plain(Account(f), Ephemeral(|g.eph|)), AuthAddr(g, f));
    var s1 := Noted(s, g.noteCtr + 1);
    var s' := s1.(live := s1.live + {Ephemeral(|g.eph|)});
    assert Exec(s, p.txns) == Some(s');
    OpenMatches(g, s, g', s', f);
    OpenCounts(g, g', f);
    CloseOutSchedule(g, f);
  }

  lemma OpenMatches(g: Gen, s: State, g': Gen, s': State, f: nat)
    requires Matches(g, s)
    requires g' == g.(busy := g'.busy, noteCtr := g.noteCtr + 1, sched := g'.sched, known := g'.known,
                      eph := g.eph + [Eph(g.round, f, Opened)])
    requires s' == s.(notes := s.notes + {g.noteCtr + 1}, live := s.live + {Ephemeral(|g.eph|)})
    ensures Matches(g', s')
  {
    hide Boxes, Accounts, Throws;
    NotesFit(g, s);
    AccountsFrame(g, s, g', s', {});
    BoxesFrame(g, s, g', s');
    BooksFrame(g, s, g', s');
    ThrowsFrame(g, s, g', s');
    forall e | 0 <= e < |g'.eph|
      ensures EphMatch(g', s', e)
    {
      if e < |g.eph| { assert EphMatch(g, s, e); }
    }
  }

  // ---- throwaways ------------------------------------------------------------------------------------

  lemma AppLifecycleSim(g: Gen, s: State, x: nat)
    requires Inv(g, s) && Free(g, x)
    ensures Simulates(s, DoAppLifecycle(g, x))
  {
    hide Schedule, Counts, Boxes, Ephs, Throws, Exec;
    AcctAuth(g, s, x);
    var (g', p) := DoAppLifecycle(g, x);
    Accepted(g, s, AppCreate(Account(x), CalleeProgram), AuthAddr(g, x));
    var s1 := Noted(s, g.noteCtr + 1);
    var id := s1.nextId + 1;
    var s' := s1.(nextId := id, apps := s1.apps[id := App(Account(x), CalleeProgram)]);
    assert Exec(s, p.txns) == Some(s');
    NewAppMatches(g, s, g', s', x);
    BusyCounts(g, g', {x});
    AppLifecycleSchedule(g, x);
  }

  lemma NewAppMatches(g: Gen, s: State, g': Gen, s': State, x: nat)
    requires Matches(g, s) && 0 < x < |g.accts|
    requires g' == g.(busy := g'.busy, noteCtr := g.noteCtr + 1, sched := g'.sched, nextId := g.nextId + 1,
                      throws := g.throws + [Throw(x, true, g.round, 0, g.nextId + 1, false)])
    requires s' == s.(notes := s.notes + {g.noteCtr + 1}, nextId := s.nextId + 1,
                      apps := s.apps[s.nextId + 1 := App(Account(x), CalleeProgram)])
    ensures Matches(g', s')
  {
    hide Boxes, Accounts, Ephs;
    NotesFit(g, s);
    AccountsFrame(g, s, g', s', {});
    BoxesFrame(g, s, g', s');
    EphsQuiet(g, s, g', s');
    NewThrowMatches(g, s, g', s');
  }

  /** Earlier throwaways keep their ids, and the new one's id is new. */
  lemma NewThrowMatches(g: Gen, s: State, g': Gen, s': State)
    requires Throws(g, s) && g'.accts == g.accts && g'.round == g.round && s.nextId == g.nextId
    requires g'.assetA == g.assetA && g'.calleeApp == g.calleeApp && s'.nextId == s.nextId + 1
    requires |g'.throws| == |g.throws| + 1 && g'.throws[..|g.throws|] == g.throws
    requires g'.throws[|g.throws|].actual == g.nextId + 1 && ThrowMatch(g', s', |g.throws|)
    requires forall id | id in s.apps :: id in s'.apps && s'.apps[id] == s.apps[id]
    requires forall id | id in s.assets :: id in s'.assets && s'.assets[id] == s.assets[id]
    requires forall k | k in s.hold && k.1 <= s.nextId :: k in s'.hold && s'.hold[k] == s.hold[k]
    ensures Throws(g', s')
  {
    forall t | 0 <= t < |g.throws|
      ensures ThrowMatch(g', s', t) && g'.throws[t] == g.throws[t] && g.throws[t].actual <= g.nextId
    {
      assert g'.throws[..|g.throws|][t] == g.throws[t];
      assert ThrowMatch(g, s, t);
    }
    forall t, u | 0 <= t < u < |g'.throws|
      ensures g'.throws[t].actual != g'.throws[u].actual
    {
      assert g'.throws[t] == g.throws[t];
      if u < |g.throws| { assert g'.throws[u] == g.throws[u]; }
    }
  }

  lemma AssetLifecycleSim(g: Gen, s: State, x: nat)
    requires Inv(g, s) && Free(g, x)
    ensures Simulates(s, DoAssetLifecycle(g, x))
  {
    hide Schedule, Counts, Boxes, Ephs, Throws, Exec;
    AcctAuth(g, s, x);
    var (g', p) := DoAssetLifecycle(g, x);
    Accepted(g, s, AssetCreate(Account(x), 1000), AuthAddr(g, x));
    var s1 := Noted(s, g.noteCtr + 1);
    var id, me := s1.nextId + 1, Account(x);
    var s' := s1.(nextId := id, assets := s1.assets[id := Asset(me, 1000, me, me, me)],
                  hold := s1.hold[(me, id) := Holding(1000, false)]);
    assert Exec(s, p.txns) == Some(s');
    NewAssetMatches(g, s, g', s', x);
    BusyCounts(g, g', {x});
    AssetLifecycleSchedule(g, x);
  }

  lemma NewAssetMatches(g: Gen, s: State, g': Gen, s': State, x: nat)
    requires Matches(g, s) && 0 < x < |g.accts|
    requires g' == g.(busy := g'.busy, noteCtr := g.noteCtr + 1, sched := g'.sched, nextId := g.nextId + 1,
                      throws := g.throws + [Throw(x, false, g.round, 0, g.nextId + 1, false)])
    requires var me := Account(x);
      s' == s.(notes := s.notes + {g.noteCtr + 1}, nextId := s.nextId + 1,
               assets := s.assets[s.nextId + 1 := Asset(me, 1000, me, me, me)],
               hold := s.hold[(me, s.nextId + 1) := Holding(1000, false)])
    ensures Matches(g', s')
  {
    hide Boxes, Accounts, Ephs;
    NotesFit(g, s);
    AccountsFrame(g, s, g', s', {});
    BoxesFrame(g, s, g', s');
    EphsOffAccounts(g, s, g', s');
    NewThrowMatches(g, s, g', s');
  }
}

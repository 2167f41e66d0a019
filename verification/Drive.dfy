/** `cmdDrive` of benchmarks/go-corpus/main.go: plan a round, sign it, let the node commit it, hand
    the created ids back; while the replay tool follows the blocks. The node is the ledger model. */
module Driver {
  import opened Optional
  import opened Ledger
  import opened Planner
  import opened PlannerInv
  import opened PlannerRun
  import opened PlannerRounds
  import opened PlannerSetup
  import opened Workloads
  import opened KnownSets
  import opened PlannerTape
  import opened PlannerRange
  import opened PlannerVerdict
  import opened Corpora

  /** What holds between rounds, after round r. */
  ghost predicate Between(g: Gen, accounts: nat, base: nat, r: nat, ledger: State)
    requires accounts > 0
  {
    && g.round == r && g.todo == [] && InRange(g) && |g.accts| == accounts
    && (if r < SETUP_ROUNDS then g == SetupGen(accounts, g.rounds, base, r) && ledger == SetupState(accounts, base, r)
        else Inv(g, ledger) && Committed(g) && AllKnown(g))
  }

  function AppsBy(r: nat): nat {
    if r < 2 then 0 else if r == 2 then 1 else KNOWN_APPS
  }

  ghost predicate Ready(w: Workload, kn: KnownSet, accounts: nat, base: nat, r: nat, ledger: State)
    requires accounts > 0
    reads w, kn
  {
    && w.Valid() && kn.Valid() && Between(w.View(), accounts, base, r, ledger)
    && kn.seen == Elems(w.known) && kn.apps == AppsBy(r)
  }

  // ---- setup rounds ------------------------------------------------------------------------------

  lemma SetupBetween(g: Gen, accounts: nat, base: nat, r: nat)
    requires r < SETUP_ROUNDS || r == SETUP_ROUNDS <= g.rounds
    requires accounts > 0 && g == SetupGen(accounts, g.rounds, base, r)
    ensures Between(g, accounts, base, r, SetupState(accounts, base, r))
  {
    hide Inv, SetupState, AllKnown;
    if r == SETUP_ROUNDS {
      SetupDone(accounts, g.rounds, base);
    }
  }

  /** What the replay tool learns from a setup block. */
  lemma SetupKnown(accounts: nat, rounds: nat, base: nat, k: nat)
    requires accounts > 0 && k < SETUP_ROUNDS
    ensures var p := DoSetup(BeginRound(SetupGen(accounts, rounds, base, k)), k).1;
      var ads := ApplyData(SetupState(accounts, base, k), p.txns);
      && Elems(SetupGen(accounts, rounds, base, k + 1).known)
         == Elems(SetupGen(accounts, rounds, base, k).known) + Receivers(p.txns)
            + FirstApps(p.txns, ads, KNOWN_APPS - AppsBy(k))
      && AppsBy(k + 1) ==
         if AppsBy(k) + Creations(p.txns) < KNOWN_APPS then AppsBy(k) + Creations(p.txns) else KNOWN_APPS
  {
    hide Allocated, Elems, SetupState, Created;
    var p := DoSetup(BeginRound(SetupGen(accounts, rounds, base, k)), k).1;
    var s := SetupState(accounts, base, k);
    var t := p.txns[0];
    assert p.txns == [t] && [t][1..] == [];
    OneReceiver(t);
    OneApplyData(s, t);
    assert [Created(s, t)][1..] == [];
    FirstAppsOne(t, Created(s, t), KNOWN_APPS - AppsBy(k));
    SetupLearns(accounts, rounds, base, k);
  }

  lemma FirstAppsOne(t: Signed, ad: nat, room: nat)
    ensures FirstApps([t], [ad], room) == if t.tx.AppCreate? && room > 0 then {AppAddr(ad)} else {}
    ensures Creations([t]) == if t.tx.AppCreate? then 1 else 0
  {
    assert [t][1..] == [] && [ad][1..] == [];
  }

  lemma SetupLearns(accounts: nat, rounds: nat, base: nat, k: nat)
    requires accounts > 0 && k < SETUP_ROUNDS
    ensures var t := DoSetup(BeginRound(SetupGen(accounts, rounds, base, k)), k).1.txns[0];
      var id := Created(SetupState(accounts, base, k), t);
      Elems(SetupGen(accounts, rounds, base, k + 1).known) == Elems(SetupGen(accounts, rounds, base, k).known)
        + (if t.tx.Pay? then {t.tx.receiver} else {}) + (if t.tx.AppCreate? && k < 3 then {AppAddr(id)} else {})
  {
    hide Allocated, Elems, SetupHold, NotesTo, SetupAccts, Sub64;
    var a := Allocated(accounts);
    assert a + [] + [] == a;
    KnownPlus(a, AppAddr(base + 2));
    KnownPlus(a + [AppAddr(base + 2)], AppAddr(base + 3));
    assert a + [AppAddr(base + 2)] + [] == a + [AppAddr(base + 2)];
    InKnown(a, AppAddr(base + 2));
  }

  lemma InKnown(a: seq<Addr>, x: Addr)
    ensures x in Elems(a + [x])
  {
    assert (a + [x])[|a|] == x;
  }

  ghost function Now(w: Workload, ledger: State): Snapshot
    reads w
  {
    Snapshot(w.View(), w.pos, ledger)
  }

  method SetupBlock(w: Workload, kn: KnownSet, ghost accounts: nat, ghost base: nat, k: nat, ledger: State)
    returns (ok: bool, groups: seq<Planned>, ledger': State)
    requires accounts > 0 && k < SETUP_ROUNDS && k < w.rounds
    requires Ready(w, kn, accounts, base, k, ledger)
    modifies w, kn
    ensures ok && Ready(w, kn, accounts, base, k + 1, ledger')
    ensures RoundMade(w.tape, w.txnsPerRound, old(Now(w, ledger)), groups, Now(w, ledger'))
  {
    hide Inv, SetupGen, SetupState, DoSetup, Elems, Exec, ApplyData, Receivers, FirstApps, Creations;
    hide BeginRound, InRange;
    ghost var g := w.View();
    SetupRound(accounts, w.rounds, base, k);
    SetupKnown(accounts, w.rounds, base, k);
    var p := w.PlanSetup(k);
    assert p.txns == [p.txns[0]] && p.txns[0].signer == ADMIN;
    var wire := w.Sign(p);
    if wire.None? { return false, [], ledger; }
    var next := Exec(ledger, p.txns);
    if next.None? { return false, [], ledger; }
    var ads := ApplyData(ledger, p.txns);
    CommitOne(w.View(), p, ads);
    w.HandOut([p], ads);
    kn.AddBlock(p.txns, ads);
    SetupBetween(w.View(), accounts, base, k + 1);
    SetupMade(w.tape, w.txnsPerRound, old(Now(w, ledger)), k, Now(w, next.value));
    return true, [p], next.value;
  }

  lemma SetupMade(tape: nat -> nat, limit: nat, x: Snapshot, k: nat, y: Snapshot)
    requires x.g.round == k < SETUP_ROUNDS && |x.g.accts| > 0 && y.pos == x.pos
    requires var (g, p) := DoSetup(BeginRound(x.g), k);
      && |p.txns| == 1 && Exec(x.ledger, p.txns) == Some(y.ledger)
      && y.g == OnCommit(g, p.onCommit, ApplyData(x.ledger, p.txns)[0])
    ensures RoundMade(tape, limit, x, [DoSetup(BeginRound(x.g), k).1], y)
  {
    hide Exec, DoSetup, ApplyData, OnCommit;
    var (g, p) := DoSetup(BeginRound(x.g), k);
    CommitOne(g, p, ApplyData(x.ledger, p.txns));
    assert PlannedFrom(tape, limit, x, [p], g, y.pos);
  }

  lemma CommitOne(g: Gen, p: Planned, ads: seq<nat>)
    requires |p.txns| == 1 == |ads|
    ensures Flatten([p]) == p.txns
    ensures CommitAll(g, [p], ads) == OnCommit(g, p.onCommit, ads[0])
  {
    assert [p][1..] == [] && ads[1..] == [];
    assert p.txns + [] == p.txns;
  }

  // ---- regular rounds -----------------------------------------------------------------------------

  lemma {:induction false} FlattenHas(groups: seq<Planned>, p: Planned, t: Signed)
    requires p in groups && t in p.txns
    ensures t in Flatten(groups)
  {
    if p != groups[0] {
      FlattenHas(groups[1..], p, t);
    }
  }

  /** Sign every group and line up the payset; an error when a key is missing. */
  method SignAll(w: Workload, groups: seq<Planned>) returns (ok: bool, payset: seq<Signed>)
    requires w.Valid()
    ensures ok <==> forall t | t in Flatten(groups) :: HasKey(w.View(), t.signer)
    ensures ok ==> payset == Flatten(groups)
  {
    hide Flatten, HasKey;
    payset := [];
    FlattenNone();
    for i := 0 to |groups|
      invariant payset == Flatten(groups[..i]) && forall t | t in payset :: HasKey(w.View(), t.signer)
    {
      var wire := w.Sign(groups[i]);
      if wire.None? {
        ghost var t :| t in groups[i].txns && !HasKey(w.View(), t.signer);
        FlattenHas(groups, groups[i], t);
        return false, payset;
      }
      assert groups[..i + 1] == groups[..i] + [groups[i]];
      FlattenAppend(groups[..i], groups[i]);
      payset := payset + groups[i].txns;
    }
    assert groups[..|groups|] == groups;
    return true, payset;
  }

  /** The round is over: every created id has reached its place, and the model is still exact. */
  lemma RoundDone(g0: Gen, s0: State, g: Gen, s: State, groups: seq<Planned>, ads: seq<nat>)
    requires SoFar(g0, s0, g, s, groups) && AllKnown(g0) && g.todo == []
    requires ads == ApplyData(s0, Flatten(groups))
    ensures |ads| == |Flatten(groups)| && (forall p | p in groups :: p.txns != []) && g.round == g0.round
    ensures var g' := CommitAll(g, groups, ads);
      && Inv(g', s) && Committed(g') && AllKnown(g')
      && g'.todo == [] && g'.round == g0.round && |g'.accts| == |g0.accts|
      && Elems(g'.known) == Elems(g0.known) + Receivers(Flatten(groups))
  {
    hide Inv, Exec, ApplyData, Receivers, Elems, Waits, Covers, Flatten, CommitAll;
    CommitAllDone(g, groups, ads);
    CommitInv(g, s, CommitAll(g, groups, ads));
  }

  lemma BeginKnown(g: Gen)
    ensures AllKnown(g) ==> AllKnown(BeginRound(g))
    ensures BeginRound(g).known == g.known && BeginRound(g).round == g.round + 1 && BeginRound(g).rounds == g.rounds
    ensures BeginRound(g).accts == g.accts
  {
  }

  lemma SoFarFacts(g0: Gen, s0: State, g: Gen, s: State, groups: seq<Planned>)
    requires SoFar(g0, s0, g, s, groups)
    ensures Exec(s0, Flatten(groups)) == Some(s) && forall t | t in Flatten(groups) :: HasKey(g, t.signer)
  {
    hide Inv, Exec, Flatten, HasKey;
  }

  /** A round after setup. It goes through exactly when no step of it is short of units; otherwise the
      ledger refuses the planned payset. */
  method RegularBlock(w: Workload, kn: KnownSet, ghost accounts: nat, ghost base: nat, r: nat, ledger: State)
    returns (ok: bool, groups: seq<Planned>, ledger': State)
    requires accounts > 0 && SETUP_ROUNDS <= r < w.rounds
    requires Ready(w, kn, accounts, base, r, ledger)
    modifies w, kn
    ensures ok <==> !Starves(old(w.View()), w.tape, old(w.pos), w.txnsPerRound)
    ensures Fits(accounts, w.rounds) ==> ok
    ensures ok ==> Ready(w, kn, accounts, base, r + 1, ledger')
    ensures ok ==> RoundMade(w.tape, w.txnsPerRound, old(Now(w, ledger)), groups, Now(w, ledger'))
    ensures !ok ==> ledger' == ledger && Exec(ledger, Flatten(groups)).None?
  {
    hide Inv, SoFar, Elems, Exec, ApplyData, Receivers, FirstApps, Creations, Flatten, BeginRound, CommitAll;
    hide Committed, AllKnown, HasKey, PlansRound, Starves, InRange, Fits;
    ghost var g, pos := w.View(), w.pos;
    BeginKnown(g);
    var misses;
    groups, misses := w.PlanRound(r + 1);
    ghost var s' := RoundVerdict(g, ledger, w.tape, pos, w.txnsPerRound, w.View(), w.pos, groups);
    if !Starves(g, w.tape, pos, w.txnsPerRound) {
      SoFarFacts(BeginRound(g), ledger, w.View(), s', groups);
    }
    var signed, payset := SignAll(w, groups);
    if !signed { return false, groups, ledger; }
    var next := Exec(ledger, payset);
    if next.None? { return false, groups, ledger; }
    var ads := ApplyData(ledger, payset);
    RoundDone(BeginRound(g), ledger, w.View(), s', groups, ads);
    assert PlannedFrom(w.tape, w.txnsPerRound, old(Now(w, ledger)), groups, w.View(), w.pos);
    CommitAllRange(w.View(), groups, ads);
    w.HandOut(groups, ads);
    kn.AddBlock(payset, ads);
    NoRoom(payset, ads);
    return true, groups, next.value;
  }

  lemma NoRoom(ts: seq<Signed>, ads: seq<nat>)
    requires |ads| == |ts|
    ensures FirstApps(ts, ads, 0) == {}
  {
  }

  /** The round after the snapshot asks for units that are not there. */
  ghost predicate Starved(tape: nat -> nat, limit: nat, x: Snapshot) {
    x.g.round >= SETUP_ROUNDS && Starves(x.g, tape, x.pos, limit)
  }

  /** The whole run, for any number of accounts and rounds and whatever the random source yields. As
      long as no round asks for units that are not there, no key is missing, no block is refused, and
      after every round the generator's records are the ledger and the replayed set is the generator's
      own list; the run stops at the first round that does. Within the bounds it never stops. */
  method Drive(tape: nat -> nat, accounts: nat, rounds: nat, txnsPerRound: nat, base: nat)
    returns (ok: bool, w: Workload, ledger: State, kn: KnownSet, plans: seq<seq<Planned>>, ghost trace: seq<Snapshot>)
    requires 8 <= accounts
    ensures Corpus(tape, txnsPerRound, trace, plans)
    ensures trace[0] == Snapshot(SetupGen(accounts, rounds, base, 0), 0, SetupState(accounts, base, 0))
    ensures forall r | 0 <= r < |plans| :: !Starved(tape, txnsPerRound, trace[r])
    ensures ok ==> |plans| == rounds && trace[rounds] == Now(w, ledger) && Ready(w, kn, accounts, base, rounds, ledger)
    ensures !ok ==> |plans| < rounds && Starved(tape, txnsPerRound, trace[|plans|])
    ensures Fits(accounts, rounds) ==> ok
  {
    hide RoundMade, Inv, Fits, SetupGen, SetupState, Elems, Committed, AllKnown, Starves, InRange;
    w := new Workload(tape, accounts, rounds, txnsPerRound, base);
    kn := new KnownSet(Allocated(accounts));
    ledger := SetupState(accounts, base, 0);
    SetupStart(accounts, rounds, base);
    SetupBetween(w.View(), accounts, base, 0);
    ok, plans, trace := true, [], [Now(w, ledger)];
    ghost var start := Now(w, ledger);
    for r := 0 to rounds
      invariant ok && Ready(w, kn, accounts, base, r, ledger) && fresh(w) && fresh(kn)
      invariant w.rounds == rounds && w.txnsPerRound == txnsPerRound && w.tape == tape
      invariant Corpus(tape, txnsPerRound, trace, plans) && |plans| == r
      invariant trace[r] == Now(w, ledger) && trace[0] == start
      invariant forall k | 0 <= k < r :: !Starved(tape, txnsPerRound, trace[k])
    {
      var groups;
      if r < SETUP_ROUNDS {
        ok, groups, ledger := SetupBlock(w, kn, accounts, base, r, ledger);
      } else {
        ok, groups, ledger := RegularBlock(w, kn, accounts, base, r, ledger);
      }
      if !ok { return; }
      plans, trace := plans + [groups], trace + [Now(w, ledger)];
    }
  }

  lemma SetupStart(accounts: nat, rounds: nat, base: nat)
    requires accounts > 0
    ensures SetupGen(accounts, rounds, base, 0).known == Allocated(accounts)
    ensures SetupGen(accounts, rounds, base, 0).rounds == rounds
  {
    assert Allocated(accounts) + [] + [] == Allocated(accounts);
  }
}

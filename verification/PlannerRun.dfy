/** One planned action or step at a time: everything a round relies on, for every choice the random
    generator can make. */
module PlannerRun {
  import opened Optional
  import opened Ledger
  import opened Planner
  import opened PlannerInv
  import opened PlannerActions
  import opened PlannerResources
  import opened PlannerDeferred

  /** The regular actions with the choices made for them. */
  datatype Action =
    | ActPay(a: nat, b: nat)
    | ActAxfer(a: nat, b: nat, amt: nat)
    | ActClawback(a: nat, b: nat)
    | ActAssetOptIn(a: nat)
    | ActInc(a: nat)
    | ActAppOpt(a: nat, oc: Completion)
    | ActBoxPut(a: nat)
    | ActBoxDel(a: nat, i: nat)
    | ActInner(a: nat)
    | ActFreeze(a: nat)
    | ActRekey(a: nat, b: nat)
    | ActCloseOut(a: nat)
    | ActKeyreg(a: nat)
    | ActAppLifecycle(a: nat)
    | ActAssetLifecycle(a: nat)

  /** What the picker guarantees before the action is planned. */
  predicate Enabled(g: Gen, act: Action) {
    match act
    case ActPay(a, b) => FreePair(g, a, b)
    case ActAxfer(a, b, amt) =>
      FreePair(g, a, b) && g.accts[a].optA && g.accts[b].optA && 1 <= amt <= g.accts[a].balA
    case ActClawback(a, b) => FreePair(g, a, b) && g.accts[a].optA && g.accts[b].optA && 1 <= g.accts[a].balA
    case ActAssetOptIn(a) => Free(g, a) && !g.accts[a].optA
    case ActInc(a) => Free(g, a) && g.accts[a].optApp
    case ActAppOpt(a, oc) =>
      Free(g, a) && oc in {OptIn, CloseOut, ClearState} && (oc == OptIn <==> !g.accts[a].optApp)
    case ActBoxPut(a) => Free(g, a)
    case ActBoxDel(a, i) => Free(g, a) && i < |g.boxes|
    case ActInner(a) => Free(g, a) && g.accts[a].optA
    case ActFreeze(a) => Free(g, a) && g.accts[a].optA
    case ActRekey(a, b) => FreePair(g, a, b)
    case ActCloseOut(a) => Free(g, a)
    case ActKeyreg(a) => Free(g, a)
    case ActAppLifecycle(a) => Free(g, a)
    case ActAssetLifecycle(a) => Free(g, a)
  }

  function Do(g: Gen, act: Action): (Gen, Planned)
    requires Enabled(g, act)
  {
    match act
    case ActPay(a, b) => DoPay(g, a, b)
    case ActAxfer(a, b, amt) => DoAxfer(g, a, b, amt)
    case ActClawback(a, b) => DoClawback(g, a, b)
    case ActAssetOptIn(a) => DoAssetOptIn(g, a)
    case ActInc(a) => DoInc(g, a)
    case ActAppOpt(a, oc) => DoAppOpt(g, a, oc)
    case ActBoxPut(a) => DoBoxPut(g, a)
    case ActBoxDel(a, i) => DoBoxDel(g, a, i)
    case ActInner(a) => DoInner(g, a)
    case ActFreeze(a) => DoFreeze(g, a)
    case ActRekey(a, b) => DoRekey(g, a, b)
    case ActCloseOut(a) => DoCloseOut(g, a)
    case ActKeyreg(a) => DoKeyreg(g, a)
    case ActAppLifecycle(a) => DoAppLifecycle(g, a)
    case ActAssetLifecycle(a) => DoAssetLifecycle(g, a)
  }

  /** The main application has no unit left for the transfer. */
  predicate ShortAction(g: Gen, act: Action) {
    act.ActInner? && g.inners >= APP_ASSET_FUND
  }

  /** Whatever the generator picks, the ledger accepts it and the model stays exact, unless the main
      application is out of units. */
  lemma ActionSim(g: Gen, s: State, act: Action)
    requires Inv(g, s) && Enabled(g, act) && !ShortAction(g, act)
    ensures Simulates(s, Do(g, act))
  {
    hide Inv, Simulates;
    match act
    case ActPay(a, b) => PaySim(g, s, a, b);
    case ActAxfer(a, b, amt) => AxferSim(g, s, a, b, amt);
    case ActClawback(a, b) => ClawbackSim(g, s, a, b);
    case ActAssetOptIn(a) => AssetOptInSim(g, s, a);
    case ActInc(a) => IncSim(g, s, a);
    case ActAppOpt(a, oc) => AppOptSim(g, s, a, oc);
    case ActBoxPut(a) => BoxPutSim(g, s, a);
    case ActBoxDel(a, i) => BoxDelSim(g, s, a, i);
    case ActInner(a) => InnerSim(g, s, a);
    case ActFreeze(a) => FreezeSim(g, s, a);
    case ActRekey(a, b) => RekeySim(g, s, a, b);
    case ActCloseOut(a) => CloseOutSim(g, s, a);
    case ActKeyreg(a) => KeyregSim(g, s, a);
    case ActAppLifecycle(a) => AppLifecycleSim(g, s, a);
    case ActAssetLifecycle(a) => AssetLifecycleSim(g, s, a);
  }

  // ---- what else holds of every planned group ----------------------------------------------------

  /** The generator owns this address's key. */
  predicate HasKey(g: Gen, a: Addr) {
    (a.Account? && a.i < |g.accts|) || (a.Ephemeral? && a.n < |g.eph|)
  }

  ghost predicate SameIds(g: Gen, g': Gen) {
    |g'.throws| == |g.throws| &&
    forall t | 0 <= t < |g.throws| :: g'.throws[t].id == g.throws[t].id && g'.throws[t].actual == g.throws[t].actual
  }

  /** A group either creates nothing that is waited for, or is the creation of one new throwaway
      whose ledger id its onCommit will store. */
  ghost predicate Handed(g: Gen, s: State, g': Gen, p: Planned) {
    || (p.onCommit == NoCommit && SameIds(g, g'))
    || (&& p.onCommit == SetThrow(|g.throws|) && |p.txns| == 1
        && |g'.throws| == |g.throws| + 1 && g.throws <= g'.throws
        && g'.throws[|g.throws|].actual == Created(s, p.txns[0]))
  }

  /** The accounts paid by a payset's top-level payments. */
  function Receivers(ts: seq<Signed>): set<Addr> {
    set t | t in ts && t.tx.Pay? :: t.tx.receiver
  }

  function Elems(xs: seq<Addr>): set<Addr> {
    set a | a in xs
  }

  /** Every account whose key the generator owns is in its list of known addresses. */
  ghost predicate AllKnown(g: Gen) {
    && (forall i | 0 <= i < |g.accts| :: Account(i) in g.known)
    && (forall e | 0 <= e < |g.eph| :: Ephemeral(e) in g.known)
  }

  /** The parts of the state that only the turn of the round changes. */
  ghost predicate SameRun(g: Gen, g': Gen) {
    && g'.rounds == g.rounds && g'.round == g.round && |g'.accts| == |g.accts| && |g.eph| <= |g'.eph|
    && g'.assetA == g.assetA && g'.mainApp == g.mainApp && g'.calleeApp == g.calleeApp
  }

  /** The full account of planning one group: accepted, exact, signable, its payees known. */
  ghost predicate Planning(g: Gen, s: State, g': Gen, p: Planned, s': State) {
    && Inv(g', s') && Exec(s, p.txns) == Some(s') && p.txns != []
    && SameRun(g, g') && Handed(g, s, g', p)
    && (forall t | t in p.txns :: HasKey(g', t.signer))
    && (AllKnown(g) ==> AllKnown(g') && Elems(g'.known) == Elems(g.known) + Receivers(p.txns))
  }

  lemma OneReceiver(t: Signed)
    ensures Receivers([t]) == if t.tx.Pay? then {t.tx.receiver} else {}
  {
    assert forall x | x in [t] :: x == t;
    assert t in [t];
  }

  lemma KnownPlus(xs: seq<Addr>, a: Addr)
    ensures Elems(xs + [a]) == Elems(xs) + {a}
  {
  }

  /** A payment goes to a workload account, or to an ephemeral account that it opens. */
  ghost predicate PayeeKnown(g: Gen, g': Gen, tx: Txn) {
    || (&& g'.known == g.known && |g'.eph| == |g.eph|
        && (tx.Pay? ==> tx.receiver.Account? && tx.receiver.i < |g.accts|))
    || (&& g'.known == g.known + [Ephemeral(|g.eph|)] && |g'.eph| == |g.eph| + 1
        && tx.Pay? && tx.receiver == Ephemeral(|g.eph|))
  }

  lemma KnownAfter(g: Gen, g': Gen, p: Planned)
    requires |p.txns| == 1 && |g'.accts| == |g.accts| && PayeeKnown(g, g', p.txns[0].tx)
    ensures AllKnown(g) ==> AllKnown(g') && Elems(g'.known) == Elems(g.known) + Receivers(p.txns)
  {
    assert p.txns == [p.txns[0]];
    OneReceiver(p.txns[0]);
    KnownPlus(g.known, Ephemeral(|g.eph|));
  }

  lemma AuthHasKey(g: Gen, i: nat)
    requires Lifecycles(g) && i < |g.accts|
    ensures HasKey(g, AuthAddr(g, i))
  {
    assert Undone(g, i);
  }

  /** The visible shape of a planned group of one. */
  ghost predicate Shape(g: Gen, s: State, g': Gen, p: Planned) {
    && SameRun(g, g') && Handed(g, s, g', p)
    && |p.txns| == 1 && HasKey(g', p.txns[0].signer) && PayeeKnown(g, g', p.txns[0].tx)
  }

  lemma ActionShape(g: Gen, s: State, act: Action)
    requires Enabled(g, act) && Lifecycles(g) && g.nextId == s.nextId
    ensures Shape(g, s, Do(g, act).0, Do(g, act).1) && Do(g, act).0.todo == g.todo
  {
    hide Sub64, Add64, Lifecycles, At;
    AuthHasKey(g, act.a);
  }

  lemma StepShape(g: Gen, s: State)
    requires g.todo != [] && StepInRange(g, g.todo[0]) && Lifecycles(g)
    ensures Shape(g, s, RunStep(g).0, RunStep(g).1) && RunStep(g).0.todo == g.todo[1..]
  {
    hide Sub64, Add64, Lifecycles, At;
    match g.todo[0]
    case RekeyedPay(x) => AuthHasKey(g, x);
    case RekeyBack(x) => AuthHasKey(g, x);
    case GoOffline(x) => AuthHasKey(g, x);
    case AppStep(t, _) => AuthHasKey(g, g.throws[t].creator);
    case AssetReconfig(t) => AuthHasKey(g, g.throws[t].creator);
    case AssetDestroyStep(t) => AuthHasKey(g, g.throws[t].creator);
    case _ =>
  }

  lemma PlanningOf(g: Gen, s: State, res: (Gen, Planned))
    requires Simulates(s, res) && Shape(g, s, res.0, res.1)
    ensures Planning(g, s, res.0, res.1, Exec(s, res.1.txns).value)
  {
    hide Inv, Exec, Handed, AllKnown, PayeeKnown;
    KnownAfter(g, res.0, res.1);
  }

  /** Planning any enabled action. */
  lemma ActionPlanning(g: Gen, s: State, act: Action)
    requires Inv(g, s) && Enabled(g, act) && !ShortAction(g, act)
    ensures Exec(s, Do(g, act).1.txns).Some?
    ensures Planning(g, s, Do(g, act).0, Do(g, act).1, Exec(s, Do(g, act).1.txns).value)
    ensures Do(g, act).0.todo == g.todo
  {
    hide Do, Enabled, Shape, Exec, Planning, Lifecycles, Orderly, Accounts, Boxes, Ephs, Throws, Counts;
    ActionSim(g, s, act);
    ActionShape(g, s, act);
    PlanningOf(g, s, Do(g, act));
  }

  /** Running the next deferred step. */
  lemma StepPlanning(g: Gen, s: State)
    requires Inv(g, s) && g.todo != [] && !ShortStep(g)
    ensures StepInRange(g, g.todo[0]) && Exec(s, RunStep(g).1.txns).Some?
    ensures Planning(g, s, RunStep(g).0, RunStep(g).1, Exec(s, RunStep(g).1.txns).value)
    ensures RunStep(g).0.todo == g.todo[1..]
  {
    hide RunStep, StepInRange, Shape, Exec, Planning, Lifecycles, Orderly, Accounts, Boxes, Ephs, Throws, Counts;
    StepSim(g, s);
    StepShape(g, s);
    PlanningOf(g, s, RunStep(g));
  }

  lemma FillerPlanning(g: Gen, s: State)
    requires Inv(g, s)
    ensures Exec(s, DoFiller(g).1.txns).Some?
    ensures Planning(g, s, DoFiller(g).0, DoFiller(g).1, Exec(s, DoFiller(g).1.txns).value)
    ensures DoFiller(g).0.todo == g.todo
  {
    hide Exec, Planning, Lifecycles, Orderly, Accounts, Boxes, Ephs, Throws, Counts;
    FillerSim(g, s);
    PlanningOf(g, s, DoFiller(g));
  }
}

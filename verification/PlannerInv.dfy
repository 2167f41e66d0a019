/** The invariant under which every planned transaction is valid: the generator's records agree with
    the ledger, and every account that a lifecycle has put into an unusual state is reserved until a
    pending step undoes it. */
module PlannerInv {
  import opened Optional
  import opened Ledger
  import opened Planner

  // ---- the accounts -----------------------------------------------------------------------

  /** The record of account i is the ledger's. */
  ghost predicate AcctMatch(g: Gen, s: State, i: nat)
    requires i < |g.accts|
  {
    var a := g.accts[i];
    var me := Account(i);
    && me in s.live
    && a.auth == (if me in s.auth then Some(s.auth[me]) else None)
    && (a.optA <==> (me, g.assetA) in s.hold)
    && (a.optA ==> s.hold[(me, g.assetA)] == Holding(a.balA, i in g.frozen))
    && (!a.optA ==> a.balA == 0 && i !in g.frozen)
    && (a.optApp <==> (me, g.mainApp) in s.local)
    && (a.online <==> me in s.online)
  }

  ghost predicate Accounts(g: Gen, s: State) {
    forall i | 0 <= i < |g.accts| :: AcctMatch(g, s, i)
  }

  // ---- the schedule -----------------------------------------------------------------------

  function AppDelay(oc: Completion): nat {
    if oc == NoOp then 2 else if oc == Update then 4 else 6
  }

  /** A step pending for round r has exactly the state to act on that it expects. */
  ghost predicate Allowed(g: Gen, r: nat, d: Step) {
    match d
    case Grant(x) =>
      0 < x < |g.accts| && g.accts[x].optA && x !in g.granted && x !in g.frozen && r == g.accts[x].reserved
    case Unfreeze(x) => 0 < x < |g.accts| && x in g.frozen && r == g.accts[x].reserved
    case RekeyedPay(x) => 0 < x < |g.accts| && r <= g.accts[x].reserved
    case RekeyBack(x) => 0 < x < |g.accts| && g.accts[x].auth.Some? && r == g.accts[x].reserved
    case GoOffline(x) => 0 < x < |g.accts| && g.accts[x].online && r == g.accts[x].reserved
    case EphOptIn(e) => e < |g.eph| && g.eph[e].phase.Opened? && r == g.eph[e].start + 1
    case EphGrant(e) => e < |g.eph| && (g.eph[e].phase.Opened? || g.eph[e].phase.OptedIn?) && r == g.eph[e].start + 2
    case EphCloseAsset(e) =>
      e < |g.eph| && !g.eph[e].phase.AssetClosed? && !g.eph[e].phase.Gone? && r == g.eph[e].start + 3
    case EphClosePay(e, f) => e < |g.eph| && !g.eph[e].phase.Gone? && f == g.eph[e].funder && r == g.eph[e].start + 3
    case AppStep(t, oc) =>
      t < |g.throws| && g.throws[t].isApp && !g.throws[t].dead && oc in {NoOp, Update, Delete} &&
      r == g.throws[t].start + AppDelay(oc)
    case AssetReconfig(t) => t < |g.throws| && !g.throws[t].isApp && !g.throws[t].dead && r == g.throws[t].start + 3
    case AssetDestroyStep(t) => t < |g.throws| && !g.throws[t].isApp && !g.throws[t].dead && r == g.throws[t].start + 6
  }

  ghost predicate NoDup<T>(s: seq<T>) {
    forall i, j | 0 <= i < j < |s| :: s[i] != s[j]
  }

  ghost predicate AllAllowed(g: Gen) {
    forall r: nat, d | d in At(g, r) :: Allowed(g, r, d)
  }

  ghost predicate Distinct(g: Gen) {
    forall r: nat :: NoDup(At(g, r))
  }

  /** Scheduled rounds lie ahead. */
  ghost predicate Ahead(g: Gen) {
    forall r | r in g.sched :: g.round < r
  }

  /** Whoever is frozen, rekeyed, online or not yet granted units has the undoing step pending in
      the very round its reservation ends. */
  ghost predicate Undone(g: Gen, i: nat)
    requires i < |g.accts|
  {
    var r := g.accts[i].reserved;
    && (i in g.frozen ==> Unfreeze(i) in At(g, r))
    && (g.accts[i].auth.Some? ==> RekeyBack(i) in At(g, r))
    && (g.accts[i].online ==> GoOffline(i) in At(g, r))
    && (0 < i && g.accts[i].optA && i !in g.granted ==> Grant(i) in At(g, r))
    && (i in g.granted ==> g.accts[i].optA)
    && (g.accts[i].auth.Some? ==> g.accts[i].auth.value.Account? && g.accts[i].auth.value.i < |g.accts|)
  }

  ghost predicate Lifecycles(g: Gen) {
    forall i | 0 <= i < |g.accts| :: Undone(g, i)
  }

  /** An ephemeral account still has all the steps ahead that its phase calls for. */
  ghost predicate Onward(g: Gen, e: nat)
    requires e < |g.eph|
  {
    var x := g.eph[e];
    && (x.phase.Opened? ==> EphOptIn(e) in At(g, x.start + 1))
    && (x.phase.Opened? || x.phase.OptedIn? ==> EphGrant(e) in At(g, x.start + 2))
    && (!x.phase.AssetClosed? && !x.phase.Gone? ==> EphCloseAsset(e) in At(g, x.start + 3))
  }

  ghost predicate Closings(g: Gen) {
    forall e | 0 <= e < |g.eph| :: Onward(g, e)
  }

  /** An account closes only after its holding has closed. */
  ghost predicate HoldingFirst(g: Gen) {
    forall r: nat, e: nat, f: nat, j, k | 0 <= j < |At(g, r)| && 0 <= k < |At(g, r)| &&
      At(g, r)[j] == EphClosePay(e, f) && At(g, r)[k] == EphCloseAsset(e) :: k < j
  }

  /** Every pending step is expected. */
  ghost predicate Orderly(g: Gen) {
    AllAllowed(g) && Distinct(g) && Ahead(g) && HoldingFirst(g)
  }

  ghost predicate Schedule(g: Gen) {
    Orderly(g) && Lifecycles(g) && Closings(g)
  }

  // ---- the rest of the ledger ---------------------------------------------------------------

  /** Live boxes, each recorded once. */
  ghost predicate Boxes(g: Gen, s: State) {
    && NoDup(g.boxes)
    && (forall n :: n in g.boxes <==> n in s.boxes)
    && forall n | n in g.boxes :: n <= g.boxCtr
  }

  const ADMIN: Addr := Account(0)

  ghost predicate UpTo(ns: set<nat>, n: nat) {
    forall x | x in ns :: x <= n
  }

  /** Asset A, the two applications and the main application's holding stand as set up. */
  ghost predicate Books(g: Gen, s: State) {
    && 0 < |g.accts| && g.accts[0].optA && g.accts[0].auth.None? && 0 !in g.frozen
    && g.assetA in s.assets && s.assets[g.assetA] == Asset(ADMIN, ASSET_A_TOTAL, ADMIN, ADMIN, ADMIN)
    && g.mainApp in s.apps && s.apps[g.mainApp] == App(ADMIN, MainProgram)
    && g.calleeApp in s.apps && s.apps[g.calleeApp] == App(ADMIN, CalleeProgram)
    && AppAddr(g.mainApp) in s.live
    && g.inners <= APP_ASSET_FUND
    && (AppAddr(g.mainApp), g.assetA) in s.hold
    && s.hold[(AppAddr(g.mainApp), g.assetA)] == Holding(APP_ASSET_FUND - g.inners, false)
    && g.nextId == s.nextId && g.assetA <= s.nextId && g.mainApp <= s.nextId && g.calleeApp <= s.nextId
    && UpTo(s.notes, g.noteCtr)
    && (forall id | id in s.apps :: id <= s.nextId && s.apps[id].creator.Account?)
    && (forall id | id in s.assets :: id <= s.nextId && s.assets[id].creator.Account?)
  }

  ghost predicate EphMatch(g: Gen, s: State, e: nat)
    requires e < |g.eph|
  {
    var k := (Ephemeral(e), g.assetA);
    match g.eph[e].phase
    case Opened => Ephemeral(e) in s.live && k !in s.hold
    case OptedIn => Ephemeral(e) in s.live && k in s.hold && s.hold[k] == Holding(0, false)
    case Granted => Ephemeral(e) in s.live && k in s.hold && s.hold[k] == Holding(EPHEMERAL_UNITS, false)
    case AssetClosed => Ephemeral(e) in s.live && k !in s.hold
    case Gone => k !in s.hold
  }

  ghost predicate Ephs(g: Gen, s: State) {
    && (forall e | 0 <= e < |g.eph| :: EphMatch(g, s, e))
    && (forall e: nat | |g.eph| <= e :: (Ephemeral(e), g.assetA) !in s.hold)
    && (forall a | a in s.auth :: a.Account?)
    && (forall k | k in s.hold :: k.0.Ephemeral? ==> k.1 == g.assetA)
    && (forall k | k in s.local :: k.0.Account?)
  }

  ghost predicate ThrowMatch(g: Gen, s: State, t: nat)
    requires t < |g.throws|
  {
    var th := g.throws[t];
    var c := Account(th.creator);
    && 0 < th.creator < |g.accts| && th.start <= g.round && (th.start < g.round ==> th.id == th.actual)
    && th.actual <= s.nextId
    && (!th.dead && th.isApp ==>
          th.actual in s.apps && s.apps[th.actual] == App(c, CalleeProgram) && th.actual != g.calleeApp)
    && (!th.dead && !th.isApp ==>
          && th.actual in s.assets && s.assets[th.actual] == Asset(c, 1000, c, c, c) && th.actual != g.assetA
          && (c, th.actual) in s.hold && s.hold[(c, th.actual)] == Holding(1000, false))
  }

  ghost predicate Throws(g: Gen, s: State) {
    && (forall t | 0 <= t < |g.throws| :: ThrowMatch(g, s, t))
    && forall t, u | 0 <= t < u < |g.throws| :: g.throws[t].actual != g.throws[u].actual
  }

  /** The generator's model is the ledger. */
  ghost predicate Matches(g: Gen, s: State) {
    Accounts(g, s) && Boxes(g, s) && Books(g, s) && Ephs(g, s) && Throws(g, s)
  }

  // ---- counting ---------------------------------------------------------------------------------

  function SumBal(accts: seq<Acct>): nat {
    if accts == [] then 0 else accts[0].balA + SumBal(accts[1..])
  }

  /** Ephemeral accounts that hold units. */
  function InFlight(eph: seq<Eph>): nat {
    if eph == [] then 0 else (if eph[0].phase.Granted? then 1 else 0) + InFlight(eph[1..])
  }

  /** Ephemeral accounts opened in round r. */
  function OpenedIn(eph: seq<Eph>, r: nat): nat {
    if eph == [] then 0 else (if eph[0].start == r then 1 else 0) + OpenedIn(eph[1..], r)
  }

  /** The run is small enough for the fixed supplies: every account can be granted its units while
      two rounds' worth of ephemerals hold theirs, and the main application has one unit for every
      account in every round. */
  predicate Fits(accounts: nat, rounds: nat) {
    && 1 <= accounts
    && (accounts - 1) * (OPT_IN_GRANT + 2 * EPHEMERAL_UNITS) <= ASSET_A_TOTAL - APP_ASSET_FUND
    && rounds * (accounts - 1) <= APP_ASSET_FUND
  }

  /** The counted state: who is busy, who was granted units, and where asset A's units are. */
  ghost predicate Counts(g: Gen) {
    && 1 <= |g.accts| && 1 <= g.round <= g.rounds
    && (forall b | b in g.busy :: 0 < b < |g.accts|)
    && (forall x | x in g.granted :: 0 < x < |g.accts|)
    && OPT_IN_GRANT * |g.granted| + EPHEMERAL_UNITS * InFlight(g.eph) <= ASSET_A_TOTAL - APP_ASSET_FUND
    && g.accts[0].balA ==
         ASSET_A_TOTAL - APP_ASSET_FUND - OPT_IN_GRANT * |g.granted| - EPHEMERAL_UNITS * InFlight(g.eph)
    && g.inners <= APP_ASSET_FUND
    && SumBal(g.accts) + (APP_ASSET_FUND - g.inners) + EPHEMERAL_UNITS * InFlight(g.eph) == ASSET_A_TOTAL
    && g.inners <= (g.round - 1) * (|g.accts| - 1) + |g.busy|
    && OpenedIn(g.eph, g.round) <= |g.busy|
    && (forall r: nat :: OpenedIn(g.eph, r) <= |g.accts| - 1)
    && (forall e | 0 <= e < |g.eph| ::
          && g.eph[e].start <= g.round && g.eph[e].funder < |g.accts|
          && (g.eph[e].phase.Granted? ==> g.eph[e].start + 2 <= g.round))
  }

  ghost predicate Inv(g: Gen, s: State) {
    Schedule(g) && Matches(g, s) && Counts(g)
  }

  /** The next deferred step asks for more units than the admin has. */
  predicate ShortStep(g: Gen)
    requires g.todo != []
  {
    && g.accts != []
    && match g.todo[0]
       case Grant(_) => g.accts[0].balA < OPT_IN_GRANT
       case EphGrant(_) => g.accts[0].balA < EPHEMERAL_UNITS
       case _ => false
  }

  /** The planned group is accepted by the ledger, and the generator's model follows it. */
  ghost predicate Simulates(s: State, res: (Gen, Planned)) {
    Exec(s, res.1.txns).Some? && Inv(res.0, Exec(s, res.1.txns).value)
  }
}

/** Every action the generator can plan is accepted by the ledger and keeps the invariant. */
module PlannerActions {
  import opened Optional
  import opened Ledger
  import opened Planner
  import opened PlannerInv
  import opened PlannerSched
  import opened PlannerMatch
  import opened PlannerCounts

  /** The ledger with one more note. */
  function Noted(s: State, n: nat): State {
    s.(notes := s.notes + {n})
  }

  /** A transaction of a live account, signed by its current authority, passes the checks that do
      not depend on its kind. */
  lemma Accepted(g: Gen, s: State, tx: Txn, signer: Addr)
    requires Books(g, s) && tx.sender in s.live && AuthOf(s, tx.sender) == signer
    ensures Exec(s, [Signed(tx, signer, g.noteCtr + 1)]) == ApplyBody(Noted(s, g.noteCtr + 1), tx)
    ensures UpTo(Noted(s, g.noteCtr + 1).notes, g.noteCtr + 1)
  {
    hide ApplyBody;
    ExecOne(s, Signed(tx, signer, g.noteCtr + 1));
  }

  lemma AcctAuth(g: Gen, s: State, i: nat)
    requires Accounts(g, s) && i < |g.accts|
    ensures Account(i) in s.live && AuthOf(s, Account(i)) == AuthAddr(g, i)
  {
    assert AcctMatch(g, s, i);
  }

  lemma AdminAuth(g: Gen, s: State)
    requires Accounts(g, s) && Books(g, s)
    ensures ADMIN in s.live && AuthOf(s, ADMIN) == ADMIN
  {
    AcctAuth(g, s, 0);
  }

  // ---- actions without a lasting effect ---------------------------------------------------------

  /** A transaction that leaves the ledger as it is, apart from the note. */
  lemma QuietSim(g: Gen, s: State, g': Gen, p: Planned, xs: set<nat>)
    requires Inv(g, s) && (forall x | x in xs :: 0 < x < |g.accts|)
    requires g' == g.(busy := g.busy + xs, noteCtr := g.noteCtr + 1)
    requires Exec(s, p.txns) == Some(Noted(s, g.noteCtr + 1))
    ensures Simulates(s, (g', p))
  {
    hide Schedule, Matches, Counts, Exec;
    var s' := Noted(s, g.noteCtr + 1);
    NotesFit(g, s);
    QuietMatches(g, s, g', s');
    BusyCounts(g, g', xs);
    QuietSchedule(g, g');
  }

  lemma NotesFit(g: Gen, s: State)
    requires Matches(g, s)
    ensures UpTo(Noted(s, g.noteCtr + 1).notes, g.noteCtr + 1)
  {
    hide Accounts, Boxes, Ephs, Throws;
  }

  lemma PaySim(g: Gen, s: State, a: nat, b: nat)
    requires Inv(g, s) && FreePair(g, a, b)
    ensures Simulates(s, DoPay(g, a, b))
  {
    hide Schedule, Counts, Boxes, Ephs, Throws, Exec;
    AcctAuth(g, s, a);
    AcctAuth(g, s, b);
    var (g', p) := DoPay(g, a, b);
    Accepted(g, s, Plain(Account(a), Account(b)), AuthAddr(g, a));
    var s1 := Noted(s, g.noteCtr + 1);
    assert s1.live + {Account(b)} == s1.live;
    QuietSim(g, s, g', p, {a, b});
  }

  lemma IncSim(g: Gen, s: State, a: nat)
    requires Inv(g, s) && Free(g, a) && g.accts[a].optApp
    ensures Simulates(s, DoInc(g, a))
  {
    hide Schedule, Counts, Boxes, Ephs, Throws, Exec;
    AcctAuth(g, s, a);
    assert AcctMatch(g, s, a);
    var (g', p) := DoInc(g, a);
    Accepted(g, s, AppCall(Account(a), g.mainApp, NoOp, Inc), AuthAddr(g, a));
    QuietSim(g, s, g', p, {a});
  }

  lemma FillerSim(g: Gen, s: State)
    requires Inv(g, s)
    ensures Simulates(s, DoFiller(g))
  {
    hide Schedule, Counts, Boxes, Ephs, Throws, Exec;
    AdminAuth(g, s);
    var (g', p) := DoFiller(g);
    Accepted(g, s, Plain(ADMIN, ADMIN), ADMIN);
    var s1 := Noted(s, g.noteCtr + 1);
    assert s1.live + {ADMIN} == s1.live;
    assert g.busy + {} == g.busy;
    QuietSim(g, s, g', p, {});
  }

  // ---- transfers of asset A ------------------------------------------------------------------------

  /** The ledger after amt units moved between two workload accounts. */
  function Moved(s: State, id: nat, a: Addr, b: Addr, amt: nat): State
    requires (a, id) in s.hold && (b, id) in s.hold && amt <= s.hold[(a, id)].amt
  {
    var x, y := s.hold[(a, id)], s.hold[(b, id)];
    s.(hold := s.hold[(a, id) := x.(amt := x.amt - amt)][(b, id) := y.(amt := y.amt + amt)])
  }

  /** Two free holders exchange units: the generator's records follow the ledger. */
  lemma TransferMatches(g: Gen, s: State, g': Gen, a: nat, b: nat, amt: nat)
    requires Matches(g, s) && a < |g.accts| && b < |g.accts| && a != b
    requires g.accts[a].optA && g.accts[b].optA && amt <= g.accts[a].balA
    requires g' == g.(busy := g'.busy, todo := g'.todo, granted := g'.granted, noteCtr := g.noteCtr + 1,
                      accts := g.accts[a := g.accts[a].(balA := g.accts[a].balA - amt)]
                                      [b := g.accts[b].(balA := g.accts[b].balA + amt)])
    ensures (Account(a), g.assetA) in s.hold && (Account(b), g.assetA) in s.hold
    ensures amt <= s.hold[(Account(a), g.assetA)].amt
    ensures Matches(g', Moved(Noted(s, g.noteCtr + 1), g.assetA, Account(a), Account(b), amt))
  {
    hide Boxes, Ephs, Throws, Accounts;
    HoldsOf(g, s, a);
    HoldsOf(g, s, b);
    var s' := Moved(Noted(s, g.noteCtr + 1), g.assetA, Account(a), Account(b), amt);
    AccountsFrame(g, s, g', s', {a, b});
    BoxesFrame(g, s, g', s');
    BooksFrame(g, s, g', s');
    EphsOffAccounts(g, s, g', s');
    ThrowsFrame(g, s, g', s');
  }

  lemma HoldsOf(g: Gen, s: State, i: nat)
    requires Accounts(g, s) && i < |g.accts|
    ensures AcctMatch(g, s, i)
  {
  }

  /** Only holdings of workload accounts changed. */
  lemma EphsOffAccounts(g: Gen, s: State, g': Gen, s': State)
    requires Ephs(g, s) && g'.eph == g.eph && g'.assetA == g.assetA
    requires s'.live >= s.live && (forall a | a in s'.auth && a !in s.auth :: a.Account?)
    requires forall k | k in s'.local && k !in s.local :: k.0.Account?
    requires forall e: nat :: HoldsSame(s, s', (Ephemeral(e), g.assetA))
    requires forall k | k in s'.hold && k !in s.hold :: !k.0.Ephemeral?
    ensures Ephs(g', s')
  {
    forall e: nat | |g.eph| <= e
      ensures (Ephemeral(e), g.assetA) !in s'.hold
    {
      assert HoldsSame(s, s', (Ephemeral(e), g.assetA));
    }
    EphsFrame(g, s, g', s', {});
  }

  /** The counts after units moved between two accounts other than the admin. */
  lemma TransferCounts(g: Gen, g': Gen, a: nat, b: nat, amt: nat)
    requires Counts(g) && 0 < a < |g.accts| && 0 < b < |g.accts| && a != b && amt <= g.accts[a].balA
    requires g' == g.(busy := g.busy + {a, b}, noteCtr := g'.noteCtr,
                      accts := g.accts[a := g.accts[a].(balA := g.accts[a].balA - amt)]
                                      [b := g.accts[b].(balA := g.accts[b].balA + amt)])
    ensures Counts(g')
  {
    hide Counts;
    MovedSum(g.accts, a, b, amt);
    BusyCounts(g, g', {a, b});
  }

  lemma MovedSum(accts: seq<Acct>, a: nat, b: nat, amt: nat)
    requires a < |accts| && b < |accts| && a != b && amt <= accts[a].balA
    ensures SumBal(accts[a := accts[a].(balA := accts[a].balA - amt)][b := accts[b].(balA := accts[b].balA + amt)])
            == SumBal(accts)
  {
    hide SumBal;
    var x := accts[a].(balA := accts[a].balA - amt);
    SumBalUpdate(accts, a, x);
    SumBalUpdate(accts[a := x], b, accts[b].(balA := accts[b].balA + amt));
  }

  /** What two free holders' records become: no uint64 wraps. */
  lemma TransferRecords(g: Gen, a: nat, b: nat, amt: nat)
    requires Counts(g) && a < |g.accts| && b < |g.accts| && a != b && amt <= g.accts[a].balA
    ensures Sub64(g.accts[a].balA, amt) == g.accts[a].balA - amt
    ensures Add64(g.accts[b].balA, amt) == g.accts[b].balA + amt
  {
    hide SumBal, InFlight, OpenedIn, Sub64, Add64;
    SumBalPair(g.accts, a, b);
    NoWrap(g.accts[a].balA, amt);
    NoWrap(g.accts[b].balA, amt);
  }

  lemma AxferSim(g: Gen, s: State, a: nat, b: nat, amt: nat)
    requires Inv(g, s) && FreePair(g, a, b) && g.accts[a].optA && g.accts[b].optA && 1 <= amt <= g.accts[a].balA
    ensures Simulates(s, DoAxfer(g, a, b, amt))
  {
    hide Schedule, Counts, Boxes, Ephs, Throws, Exec, Sub64, Add64;
    AcctAuth(g, s, a);
    HoldsOf(g, s, a);
    HoldsOf(g, s, b);
    IdleFlags(g, a);
    IdleFlags(g, b);
    TransferRecords(g, a, b, amt);
    var (g', p) := DoAxfer(g, a, b, amt);
    Accepted(g, s, Transfer(Account(a), g.assetA, amt, Account(b)), AuthAddr(g, a));
    TransferMatches(g, s, g', a, b, amt);
    TransferCounts(g, g', a, b, amt);
    QuietSchedule(g, g');
  }

  lemma ClawbackSim(g: Gen, s: State, a: nat, b: nat)
    requires Inv(g, s) && FreePair(g, a, b) && g.accts[a].optA && g.accts[b].optA && 1 <= g.accts[a].balA
    ensures Simulates(s, DoClawback(g, a, b))
  {
    hide Schedule, Counts, Boxes, Ephs, Throws, Exec, Sub64, Add64;
    AdminAuth(g, s);
    HoldsOf(g, s, a);
    HoldsOf(g, s, b);
    TransferRecords(g, a, b, 1);
    var (g', p) := DoClawback(g, a, b);
    Accepted(g, s, Axfer(ADMIN, g.assetA, 1, Account(b), Some(Account(a)), None), ADMIN);
    TransferMatches(g, s, g', a, b, 1);
    TransferCounts(g, g', a, b, 1);
    QuietSchedule(g, g');
  }

  // ---- one account's flags --------------------------------------------------------------------------

  /** A change of one account's record, with the ledger changed for that account alone. */
  lemma OneAcctMatches(g: Gen, s: State, g': Gen, s': State, x: nat)
    requires Matches(g, s) && 0 < x < |g.accts| == |g'.accts|
    requires g' == g.(busy := g'.busy, todo := g'.todo, sched := g'.sched, noteCtr := g.noteCtr + 1,
                      frozen := g'.frozen, accts := g.accts[x := g'.accts[x]])
    requires forall i | 0 <= i < |g.accts| && i != x :: SameRecord(g, s, g', s', i)
    requires AcctMatch(g', s', x)
    requires s' == s.(notes := s.notes + {g.noteCtr + 1}, auth := s'.auth, hold := s'.hold, local := s'.local,
                      online := s'.online)
    requires forall k | k != (Account(x), g.assetA) :: HoldsSame(s, s', k)
    requires s'.auth.Keys <= s.auth.Keys + {Account(x)} && s'.local <= s.local + {(Account(x), g.mainApp)}
    ensures Matches(g', s')
  {
    hide Boxes, Accounts, Throws;
    assert SameRecord(g, s, g', s', 0);
    NotesFit(g, s);
    AccountsFrame(g, s, g', s', {x});
    BoxesFrame(g, s, g', s');
    BooksFrame(g, s, g', s');
    forall k | k in s'.hold && k !in s.hold
      ensures !k.0.Ephemeral?
    {
      assert HoldsSame(s, s', k) || k == (Account(x), g.assetA);
    }
    EphsOffAccounts(g, s, g', s');
    ThrowsFrame(g, s, g', s');
  }

  /** The counts when one account's record changes but not its balance. */
  lemma OneAcctCounts(g: Gen, g': Gen, x: nat)
    requires Counts(g) && 0 < x < |g.accts| == |g'.accts|
    requires g'.accts == g.accts[x := g'.accts[x]] && g'.accts[x].balA == g.accts[x].balA
    requires g'.busy == g.busy + {x} && g'.rounds == g.rounds && g'.round == g.round && g'.granted == g.granted
    requires g'.eph == g.eph && g'.inners == g.inners
    ensures Counts(g')
  {
    hide Counts;
    SumBalUpdate(g.accts, x, g'.accts[x]);
    BusyCounts(g, g', {x});
  }

  lemma AssetOptInSim(g: Gen, s: State, x: nat)
    requires Inv(g, s) && Free(g, x) && !g.accts[x].optA
    ensures Simulates(s, DoAssetOptIn(g, x))
  {
    hide Schedule, Counts, Boxes, Ephs, Throws, Exec;
    AcctAuth(g, s, x);
    HoldsOf(g, s, x);
    var (g', p) := DoAssetOptIn(g, x);
    Accepted(g, s, Transfer(Account(x), g.assetA, 0, Account(x)), AuthAddr(g, x));
    var s1 := Noted(s, g.noteCtr + 1);
    var s' := s1.(hold := s1.hold[(Account(x), g.assetA) := Holding(0, false)]);
    assert Exec(s, p.txns) == Some(s');
    OneAcctMatches(g, s, g', s', x);
    OneAcctCounts(g, g', x);
    OptInSchedule(g, x);
  }

  lemma AppOptSim(g: Gen, s: State, a: nat, oc: Completion)
    requires Inv(g, s) && Free(g, a) && oc in {OptIn, CloseOut, ClearState} && (oc == OptIn <==> !g.accts[a].optApp)
    ensures Simulates(s, DoAppOpt(g, a, oc))
  {
    hide Schedule, Counts, Boxes, Ephs, Throws, Exec;
    AcctAuth(g, s, a);
    HoldsOf(g, s, a);
    var (g', p) := DoAppOpt(g, a, oc);
    Accepted(g, s, AppCall(Account(a), g.mainApp, oc, Bare), AuthAddr(g, a));
    var s1 := Noted(s, g.noteCtr + 1);
    var k := (Account(a), g.mainApp);
    var s' := s1.(local := if oc == OptIn then s1.local + {k} else s1.local - {k});
    assert Exec(s, p.txns) == Some(s');
    OneAcctMatches(g, s, g', s', a);
    OneAcctCounts(g, g', a);
    QuietSchedule(g, g');
  }

  lemma KeyregSim(g: Gen, s: State, x: nat)
    requires Inv(g, s) && Free(g, x)
    ensures Simulates(s, DoKeyreg(g, x))
  {
    hide Schedule, Counts, Boxes, Ephs, Throws, Exec;
    AcctAuth(g, s, x);
    HoldsOf(g, s, x);
    var (g', p) := DoKeyreg(g, x);
    Accepted(g, s, Keyreg(Account(x), true), AuthAddr(g, x));
    var s1 := Noted(s, g.noteCtr + 1);
    var s' := s1.(online := s1.online + {Account(x)});
    assert Exec(s, p.txns) == Some(s');
    OneAcctMatches(g, s, g', s', x);
    OneAcctCounts(g, g', x);
    KeyregSchedule(g, x);
  }

  lemma FreezeSim(g: Gen, s: State, x: nat)
    requires Inv(g, s) && Free(g, x) && g.accts[x].optA
    ensures Simulates(s, DoFreeze(g, x))
  {
    hide Schedule, Counts, Boxes, Ephs, Throws, Exec;
    AdminAuth(g, s);
    HoldsOf(g, s, x);
    var (g', p) := DoFreeze(g, x);
    Accepted(g, s, Freeze(ADMIN, Account(x), g.assetA, true), ADMIN);
    var s1 := Noted(s, g.noteCtr + 1);
    var k := (Account(x), g.assetA);
    var s' := s1.(hold := s1.hold[k := s1.hold[k].(frozen := true)]);
    assert Exec(s, p.txns) == Some(s');
    OneAcctMatches(g, s, g', s', x);
    OneAcctCounts(g, g', x);
    FreezeSchedule(g, x);
  }

  lemma RekeySim(g: Gen, s: State, x: nat, y: nat)
    requires Inv(g, s) && FreePair(g, x, y)
    ensures Simulates(s, DoRekey(g, x, y))
  {
    hide Schedule, Counts, Boxes, Ephs, Throws, Exec;
    AcctAuth(g, s, x);
    HoldsOf(g, s, x);
    var (g', p) := DoRekey(g, x, y);
    Accepted(g, s, Pay(Account(x), Account(x), Some(Account(y)), None), AuthAddr(g, x));
    var s1 := Noted(s, g.noteCtr + 1);
    assert s1.live + {Account(x)} == s1.live;
    var s' := s1.(auth := s1.auth[Account(x) := Account(y)]);
    assert Exec(s, p.txns) == Some(s');
    OneAcctMatches(g, s, g', s', x);
    RekeyCounts(g, g', x, y);
    RekeySchedule(g, x, y);
  }

  lemma RekeyCounts(g: Gen, g': Gen, x: nat, y: nat)
    requires Counts(g) && 0 < x < |g.accts| == |g'.accts| && 0 < y < |g.accts|
    requires g'.accts == g.accts[x := g'.accts[x]] && g'.accts[x].balA == g.accts[x].balA
    requires g'.busy == g.busy + {x, y} && g'.rounds == g.rounds && g'.round == g.round && g'.granted == g.granted
    requires g'.eph == g.eph && g'.inners == g.inners
    ensures Counts(g')
  {
    hide Counts;
    SumBalUpdate(g.accts, x, g'.accts[x]);
    BusyCounts(g, g', {x, y});
  }
}

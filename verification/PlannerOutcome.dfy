/** What one action method reports, and how the reports of several combine. */
module PlannerOutcome {
  import opened Optional
  import opened Ledger
  import opened Planner
  import opened PlannerInv
  import opened PlannerSched
  import opened PlannerMatch
  import opened PlannerCounts
  import opened PlannerRun
  import opened PlannerRounds

  /** Marking more accounts busy is always harmless. */
  lemma BusyInv(g: Gen, s: State, xs: set<nat>)
    requires Inv(g, s) && forall x | x in xs :: 0 < x < |g.accts|
    ensures Inv(Use(g, xs), s)
  {
    hide Schedule, Counts, Accounts, Boxes, Ephs, Throws;
    QuietMatches(g, s, Use(g, xs), s);
    BusyCounts(g, Use(g, xs), xs);
    QuietSchedule(g, Use(g, xs));
  }

  /** What an action method reports: a planned group, or nothing planned and only more accounts
      marked busy. */
  ghost predicate Outcome(g: Gen, s: State, g': Gen, p: Option<Planned>, s': State) {
    && g'.todo == g.todo && g.busy <= g'.busy && Inv(g', s')
    && match p
       case None => s' == s && g' == g.(busy := g'.busy)
       case Some(q) => Planning(g, s, g', q, s')
  }

  /** An action that found no account leaves at most some accounts marked busy. */
  lemma GiveUp(g: Gen, s: State, xs: set<nat>)
    requires Inv(g, s) && forall x | x in xs :: 0 < x < |g.accts|
    ensures Outcome(g, s, Use(g, xs), None, s)
  {
    hide Inv;
    BusyInv(g, s, xs);
  }

  lemma NoPick(g: Gen, s: State)
    requires Inv(g, s)
    ensures Outcome(g, s, g, None, s)
  {
    hide Inv;
  }

  lemma BusyGrows(g: Gen, act: Action)
    requires Enabled(g, act)
    ensures g.busy <= Do(g, act).0.busy
  {
    hide Sub64, Add64, At;
  }

  // ---- picking accounts ----------------------------------------------------------------------------

  const PICK_TRIES: nat := 24

  /** `pick` as a function of the random tape: the first eligible account within the tries left, and
      where the tape stands afterwards. */
  function Picks(g: Gen, tape: nat -> nat, pos: nat, tries: nat, ok: Acct -> bool): (r: (Option<nat>, nat))
    requires |g.accts| >= 2
    ensures r.0.Some? ==> Free(g, r.0.value) && ok(g.accts[r.0.value])
    decreases tries
  {
    if tries == 0 then (None, pos)
    else
      var a := 1 + tape(pos) % (|g.accts| - 1);
      if Free(g, a) && ok(g.accts[a]) then (Some(a), pos + 1) else Picks(g, tape, pos + 1, tries - 1, ok)
  }

  /** One step of `Picks`. */
  lemma PicksStep(g: Gen, tape: nat -> nat, pos: nat, tries: nat, ok: Acct -> bool)
    requires |g.accts| >= 2
    ensures Picks(g, tape, pos, 0, ok) == (None, pos)
    ensures var a := 1 + tape(pos) % (|g.accts| - 1);
      Picks(g, tape, pos, tries + 1, ok) ==
        if Free(g, a) && ok(g.accts[a]) then (Some(a), pos + 1) else Picks(g, tape, pos + 1, tries, ok)
  {
  }

  /** A picked account is busy from then on. */
  function AfterPick(g: Gen, r: Option<nat>): Gen {
    if r.None? then g else Use(g, {r.value})
  }

  /** Two picks in a row; the second cannot return the first one's account. */
  function PicksTwo(g: Gen, tape: nat -> nat, pos: nat, okA: Acct -> bool, okB: Acct -> bool)
    : (r: (Option<nat>, Option<nat>, nat))
    requires |g.accts| >= 2
    ensures r.0.Some? && r.1.Some? ==>
              FreePair(g, r.0.value, r.1.value) && okA(g.accts[r.0.value]) && okB(g.accts[r.1.value])
  {
    var (a, p) := Picks(g, tape, pos, PICK_TRIES, okA);
    var (b, q) := Picks(AfterPick(g, a), tape, p, PICK_TRIES, okB);
    (a, b, q)
  }

  /** What the actions ask of the accounts they pick. */
  predicate Anyone(z: Acct) { true }
  predicate Holder(z: Acct) { z.optA }
  predicate Outsider(z: Acct) { !z.optA }
  predicate Spender(z: Acct) { z.optA && z.balA >= 10 }
  predicate Giver(z: Acct) { z.optA && z.balA >= 1 }
  predicate AppUser(z: Acct) { z.optApp }
  predicate NonUser(z: Acct) { !z.optApp }
  predicate OwnKey(z: Acct) { z.auth.None? }
  predicate Offline(z: Acct) { !z.online }

  /** The ledger after an enabled action, and the method's report about it. */
  lemma Done(g: Gen, s: State, act: Action) returns (s': State)
    requires Inv(g, s) && Enabled(g, act) && !ShortAction(g, act)
    ensures Outcome(g, s, Do(g, act).0, Some(Do(g, act).1), s')
  {
    hide Inv, Enabled, Do, Exec;
    ActionPlanning(g, s, act);
    BusyGrows(g, act);
    s' := Exec(s, Do(g, act).1.txns).value;
  }

  /** The addresses whose keys a generator with n accounts and m ephemeral accounts has made. */
  predicate Owned(n: nat, m: nat, a: Addr) {
    (a.Account? && a.i < n) || (a.Ephemeral? && a.n < m)
  }

  // ---- atomic groups of several transactions ---------------------------------------------------

  /** One group after another, as one group. */
  function Join(p: Option<Planned>, q: Option<Planned>): Option<Planned> {
    if q.None? then p
    else if p.None? then q
    else Some(Planned(p.value.txns + q.value.txns, NoCommit))
  }

  predicate Plainly(p: Option<Planned>) {
    p.Some? ==> p.value.onCommit == NoCommit
  }

  lemma PlanningBusy(g: Gen, s: State, g1: Gen, p: Planned, s1: State, g2: Gen)
    requires Planning(g, s, g1, p, s1) && g2 == g1.(busy := g2.busy) && Inv(g2, s1)
    ensures Planning(g, s, g2, p, s1)
  {
    hide Inv, Exec, Receivers, Elems;
  }

  lemma BusyPlanning(g: Gen, s: State, g1: Gen, g2: Gen, p: Planned, s2: State)
    requires g1 == g.(busy := g1.busy) && Planning(g1, s, g2, p, s2)
    ensures Planning(g, s, g2, p, s2)
  {
    hide Inv, Exec, Receivers, Elems;
  }

  lemma PlanningTwice(g: Gen, s: State, g1: Gen, p: Planned, s1: State, g2: Gen, q: Planned, s2: State)
    requires Planning(g, s, g1, p, s1) && Planning(g1, s1, g2, q, s2)
    requires p.onCommit == NoCommit == q.onCommit
    ensures Planning(g, s, g2, Planned(p.txns + q.txns, NoCommit), s2)
  {
    hide Inv, Exec, Receivers, Elems, HasKey, AllKnown;
    ExecConcat(s, p.txns, q.txns);
    KeysKept(g1, g2, p.txns);
    ReceiversConcat(p.txns, q.txns);
  }

  /** Two plain outcomes in a row make one outcome, of the joined group. */
  lemma OutcomeThen(g: Gen, s: State, g1: Gen, p: Option<Planned>, s1: State, g2: Gen, q: Option<Planned>, s2: State)
    requires Outcome(g, s, g1, p, s1) && Outcome(g1, s1, g2, q, s2) && Plainly(p) && Plainly(q)
    ensures Outcome(g, s, g2, Join(p, q), s2) && Plainly(Join(p, q))
  {
    hide Inv, Planning;
    if q.None? {
      if p.Some? { PlanningBusy(g, s, g1, p.value, s1, g2); }
    } else if p.None? {
      BusyPlanning(g, s, g1, g2, q.value, s2);
    } else {
      PlanningTwice(g, s, g1, p.value, s1, g2, q.value, s2);
    }
  }

  /** The accounts that send the transactions of a group. */
  function Senders(ts: seq<Signed>): seq<Addr> {
    seq(|ts|, (i: nat) requires i < |ts| => ts[i].tx.sender)
  }

  /** A group of one whose sender was free before and is busy now. */
  ghost predicate FromFresh(g: Gen, g': Gen, p: Planned) {
    |p.txns| == 1 && exists x: nat :: Free(g, x) && x in g'.busy && p.txns[0].tx.sender == Account(x)
  }

  /** The senders are different workload accounts, all marked busy. */
  ghost predicate OwnSenders(g: Gen, ts: seq<Signed>) {
    && NoDup(Senders(ts))
    && (forall i | 0 <= i < |ts| :: Senders(ts)[i].Account? && Senders(ts)[i].i in g.busy)
  }

  lemma OwnSendersNext(g: Gen, ts: seq<Signed>, g': Gen, p: Planned)
    requires OwnSenders(g, ts) && FromFresh(g, g', p) && g.busy <= g'.busy
    ensures OwnSenders(g', ts + p.txns)
  {
    assert Senders(ts + p.txns) == Senders(ts) + [p.txns[0].tx.sender];
    forall i | 0 <= i < |ts + p.txns|
      ensures Senders(ts + p.txns)[i].Account? && Senders(ts + p.txns)[i].i in g'.busy
    {
      if i < |ts| { assert Senders(ts)[i].Account?; }
    }
  }

  /** The joined group keeps its senders apart. */
  lemma MemberSenders(g: Gen, p: Option<Planned>, g': Gen, q: Option<Planned>)
    requires (p.Some? ==> OwnSenders(g, p.value.txns)) && (q.Some? ==> FromFresh(g, g', q.value)) && g.busy <= g'.busy
    ensures Join(p, q).Some? ==> OwnSenders(g', Join(p, q).value.txns)
  {
    if q.Some? {
      var ts := if p.None? then [] else p.value.txns;
      OwnSendersNext(g, ts, g', q.value);
      assert [] + q.value.txns == q.value.txns;
    } else if p.Some? {
      var ts := p.value.txns;
      assert forall i | 0 <= i < |ts| :: Senders(ts)[i].i in g'.busy;
    }
  }

  lemma SoFarBusy(g0: Gen, s0: State, g: Gen, s: State, groups: seq<Planned>, g': Gen)
    requires SoFar(g0, s0, g, s, groups) && Outcome(g, s, g', None, s)
    ensures SoFar(g0, s0, g', s, groups)
  {
    hide Inv, Exec, Waits, Covers, Flatten, Receivers, Elems;
  }
}

/** The generator as a function of the random tape: which action each draw makes, on which accounts,
    and where the tape stands afterwards. */
module PlannerTape {
  import opened Optional
  import opened Ledger
  import opened Planner
  import opened PlannerRun
  import opened PlannerOutcome
  import opened PlannerRounds

  /** The generator after an action, what it planned, and the tape's position. */
  datatype Drawn = Drawn(g: Gen, p: Option<Planned>, pos: nat)

  function Did(res: (Gen, Planned), pos: nat): Drawn {
    Drawn(res.0, Some(res.1), pos)
  }

  /** Giving up after one or two picks keeps the picked accounts busy. */
  function Missed(g: Gen, a: Option<nat>, b: Option<nat>, pos: nat): Drawn {
    Drawn(AfterPick(AfterPick(g, a), b), None, pos)
  }

  function PickOne(g: Gen, tape: nat -> nat, pos: nat, ok: Acct -> bool): (r: (Option<nat>, nat))
    requires |g.accts| >= 2
    ensures r.0.Some? ==> Free(g, r.0.value) && ok(g.accts[r.0.value])
  {
    Picks(g, tape, pos, PICK_TRIES, ok)
  }

  /** A payment also draws its amount. */
  function DrawPay(g: Gen, tape: nat -> nat, pos: nat): (d: Drawn)
    requires |g.accts| >= 2
    ensures |d.g.accts| == |g.accts|
  {
    var (a, b, q) := PicksTwo(g, tape, pos, Anyone, Anyone);
    if a.None? || b.None? then Missed(g, a, b, q) else Did(DoPay(g, a.value, b.value), q + 1)
  }

  /** A transfer moves at most 1000 units and at most what there is. */
  function MostUnits(x: Acct): (most: nat)
    requires Spender(x)
    ensures 10 <= most <= x.balA
  {
    if x.balA < 1000 then x.balA else 1000
  }

  function DrawAxfer(g: Gen, tape: nat -> nat, pos: nat): (d: Drawn)
    requires |g.accts| >= 2
    ensures |d.g.accts| == |g.accts|
  {
    var (a, b, q) := PicksTwo(g, tape, pos, Spender, Holder);
    if a.None? || b.None? then Missed(g, a, b, q)
    else
      Did(DoAxfer(g, a.value, b.value, 1 + tape(q) % MostUnits(g.accts[a.value])), q + 1)
  }

  function DrawClawback(g: Gen, tape: nat -> nat, pos: nat): (d: Drawn)
    requires |g.accts| >= 2
    ensures |d.g.accts| == |g.accts|
  {
    var (a, b, q) := PicksTwo(g, tape, pos, Giver, Holder);
    if a.None? || b.None? then Missed(g, a, b, q) else Did(DoClawback(g, a.value, b.value), q)
  }

  function DrawRekey(g: Gen, tape: nat -> nat, pos: nat): (d: Drawn)
    requires |g.accts| >= 2
    ensures |d.g.accts| == |g.accts|
  {
    var (a, b, q) := PicksTwo(g, tape, pos, OwnKey, Anyone);
    if a.None? || b.None? then Missed(g, a, b, q) else Did(DoRekey(g, a.value, b.value), q)
  }

  function DrawAssetOptIn(g: Gen, tape: nat -> nat, pos: nat): (d: Drawn)
    requires |g.accts| >= 2
    ensures |d.g.accts| == |g.accts|
  {
    var (a, q) := PickOne(g, tape, pos, Outsider);
    if a.None? then Drawn(g, None, q) else Did(DoAssetOptIn(g, a.value), q)
  }

  function DrawInc(g: Gen, tape: nat -> nat, pos: nat): (d: Drawn)
    requires |g.accts| >= 2
    ensures |d.g.accts| == |g.accts|
  {
    var (a, q) := PickOne(g, tape, pos, AppUser);
    if a.None? then Drawn(g, None, q) else Did(DoInc(g, a.value), q)
  }

  /** Opting in needs an account that is not in, closing out and clearing one that is. */
  function DrawAppOpt(g: Gen, tape: nat -> nat, pos: nat, oc: Completion): (d: Drawn)
    requires |g.accts| >= 2
    ensures |d.g.accts| == |g.accts|
  {
    var (a, q) := PickOne(g, tape, pos, if oc == OptIn then NonUser else AppUser);
    if a.None? then Drawn(g, None, q) else Did(DoAppOpt(g, a.value, oc), q)
  }

  /** A box's contents are 32 more draws. */
  const BOX_BYTES: nat := 32

  function DrawBoxPut(g: Gen, tape: nat -> nat, pos: nat): (d: Drawn)
    requires |g.accts| >= 2
    ensures |d.g.accts| == |g.accts|
  {
    var (a, q) := PickOne(g, tape, pos, Anyone);
    if a.None? then Drawn(g, None, q) else Did(DoBoxPut(g, a.value), q + BOX_BYTES)
  }

  function DrawBoxDel(g: Gen, tape: nat -> nat, pos: nat): (d: Drawn)
    requires |g.accts| >= 2
    ensures |d.g.accts| == |g.accts|
  {
    if g.boxes == [] then Drawn(g, None, pos)
    else
      var (a, q) := PickOne(g, tape, pos, Anyone);
      if a.None? then Drawn(g, None, q) else Did(DoBoxDel(g, a.value, tape(q) % |g.boxes|), q + 1)
  }

  function DrawInner(g: Gen, tape: nat -> nat, pos: nat): (d: Drawn)
    requires |g.accts| >= 2
    ensures |d.g.accts| == |g.accts|
  {
    var (a, q) := PickOne(g, tape, pos, Holder);
    if a.None? then Drawn(g, None, q) else Did(DoInner(g, a.value), q)
  }

  function DrawFreeze(g: Gen, tape: nat -> nat, pos: nat): (d: Drawn)
    requires |g.accts| >= 2
    ensures |d.g.accts| == |g.accts|
  {
    var (a, q) := PickOne(g, tape, pos, Holder);
    if a.None? then Drawn(g, None, q) else Did(DoFreeze(g, a.value), q)
  }

  function DrawCloseOut(g: Gen, tape: nat -> nat, pos: nat): (d: Drawn)
    requires |g.accts| >= 2
    ensures |d.g.accts| == |g.accts|
  {
    var (a, q) := PickOne(g, tape, pos, Anyone);
    if a.None? then Drawn(g, None, q) else Did(DoCloseOut(g, a.value), q)
  }

  function DrawKeyreg(g: Gen, tape: nat -> nat, pos: nat): (d: Drawn)
    requires |g.accts| >= 2
    ensures |d.g.accts| == |g.accts|
  {
    var (a, q) := PickOne(g, tape, pos, Offline);
    if a.None? then Drawn(g, None, q) else Did(DoKeyreg(g, a.value), q)
  }

  function DrawAppLifecycle(g: Gen, tape: nat -> nat, pos: nat): (d: Drawn)
    requires |g.accts| >= 2
    ensures |d.g.accts| == |g.accts|
  {
    var (a, q) := PickOne(g, tape, pos, Anyone);
    if a.None? then Drawn(g, None, q) else Did(DoAppLifecycle(g, a.value), q)
  }

  function DrawAssetLifecycle(g: Gen, tape: nat -> nat, pos: nat): (d: Drawn)
    requires |g.accts| >= 2
    ensures |d.g.accts| == |g.accts|
  {
    var (a, q) := PickOne(g, tape, pos, Anyone);
    if a.None? then Drawn(g, None, q) else Did(DoAssetLifecycle(g, a.value), q)
  }

  /** One member of a group. */
  function DrawMember(g: Gen, tape: nat -> nat, pos: nat): (d: Drawn)
    requires |g.accts| >= 2
    ensures |d.g.accts| == |g.accts|
  {
    var k := tape(pos) % 3;
    if k == 0 then DrawPay(g, tape, pos + 1)
    else if k == 1 then DrawAxfer(g, tape, pos + 1)
    else DrawInc(g, tape, pos + 1)
  }

  /** Members are added until the group has its size or the tries are used up. */
  function DrawMembers(g: Gen, tape: nat -> nat, pos: nat, size: nat, tries: nat, p: Option<Planned>): (d: Drawn)
    requires |g.accts| >= 2
    ensures |d.g.accts| == |g.accts|
    decreases tries
  {
    if tries == 0 || (p.Some? && |p.value.txns| >= size) then Drawn(g, p, pos)
    else
      var d := DrawMember(g, tape, pos);
      DrawMembers(d.g, tape, d.pos, size, tries - 1, Join(p, d.p))
  }

  function DrawGroup(g: Gen, tape: nat -> nat, pos: nat): (d: Drawn)
    requires |g.accts| >= 2
    ensures |d.g.accts| == |g.accts|
  {
    var size := 2 + tape(pos) % 4;
    DrawMembers(g, tape, pos + 1, size, 2 * size, None)
  }

  /** The table of actions. */
  function DrawAction(k: nat, g: Gen, tape: nat -> nat, pos: nat): (d: Drawn)
    requires |g.accts| >= 2
    ensures |d.g.accts| == |g.accts|
  {
    match k
    case 0 => DrawPay(g, tape, pos)
    case 1 => DrawAxfer(g, tape, pos)
    case 2 => DrawClawback(g, tape, pos)
    case 3 => DrawAssetOptIn(g, tape, pos)
    case 4 => DrawInc(g, tape, pos)
    case 5 => DrawAppOpt(g, tape, pos, OptIn)
    case 6 => DrawAppOpt(g, tape, pos, CloseOut)
    case 7 => DrawAppOpt(g, tape, pos, ClearState)
    case 8 => DrawBoxPut(g, tape, pos)
    case 9 => DrawBoxDel(g, tape, pos)
    case 10 => DrawInner(g, tape, pos)
    case 11 => DrawGroup(g, tape, pos)
    case 12 => DrawFreeze(g, tape, pos)
    case 13 => DrawRekey(g, tape, pos)
    case 14 => DrawCloseOut(g, tape, pos)
    case 15 => DrawKeyreg(g, tape, pos)
    case 16 => DrawAppLifecycle(g, tape, pos)
    case _ => DrawAssetLifecycle(g, tape, pos)
  }

  lemma MembersDone(g: Gen, tape: nat -> nat, pos: nat, size: nat, tries: nat, p: Option<Planned>)
    requires |g.accts| >= 2 && (tries == 0 || (p.Some? && |p.value.txns| >= size))
    ensures DrawMembers(g, tape, pos, size, tries, p) == Drawn(g, p, pos)
  {
    hide DrawMember;
  }

  lemma MembersNext(g: Gen, tape: nat -> nat, pos: nat, size: nat, tries: nat, p: Option<Planned>)
    requires |g.accts| >= 2 && tries > 0 && (p.Some? ==> |p.value.txns| < size)
    ensures var d := DrawMember(g, tape, pos);
      DrawMembers(g, tape, pos, size, tries, p) == DrawMembers(d.g, tape, d.pos, size, tries - 1, Join(p, d.p))
  {
    hide DrawMember, Join;
  }

  // ---- the draws are the generator's actions ---------------------------------------------------------

  /** What was drawn is the given action, or nothing but picks. */
  ghost predicate Acts(g: Gen, d: Drawn, act: Option<Action>) {
    match act
    case None =>
      && d.p.None? && g.busy <= d.g.busy && d.g == g.(busy := d.g.busy)
      && forall x | x in d.g.busy - g.busy :: 0 < x < |g.accts|
    case Some(a) => Enabled(g, a) && d.g == Do(g, a).0 && d.p == Some(Do(g, a).1)
  }

  lemma MissedActs(g: Gen, a: Option<nat>, b: Option<nat>, pos: nat)
    requires a.Some? ==> 0 < a.value < |g.accts|
    requires b.Some? ==> 0 < b.value < |g.accts|
    ensures Acts(g, Missed(g, a, b, pos), None)
  {
  }

  lemma {:induction false} PickedIndex(g: Gen, tape: nat -> nat, pos: nat, okA: Acct -> bool, okB: Acct -> bool)
    requires |g.accts| >= 2
    ensures var (a, b, q) := PicksTwo(g, tape, pos, okA, okB);
      (a.Some? ==> 0 < a.value < |g.accts|) && (b.Some? ==> 0 < b.value < |g.accts|)
  {
    hide Picks;
  }

  lemma PayActs(g: Gen, tape: nat -> nat, pos: nat) returns (act: Option<Action>)
    requires |g.accts| >= 2
    ensures Acts(g, DrawPay(g, tape, pos), act) && (act.Some? ==> act.value.ActPay?)
  {
    hide PicksTwo, Missed, DoPay;
    var (a, b, q) := PicksTwo(g, tape, pos, Anyone, Anyone);
    PickedIndex(g, tape, pos, Anyone, Anyone);
    MissedActs(g, a, b, q);
    act := if a.None? || b.None? then None else Some(ActPay(a.value, b.value));
  }

  lemma AxferActs(g: Gen, tape: nat -> nat, pos: nat) returns (act: Option<Action>)
    requires |g.accts| >= 2
    ensures Acts(g, DrawAxfer(g, tape, pos), act) && (act.Some? ==> act.value.ActAxfer?)
  {
    hide PicksTwo, Missed, DoAxfer;
    var (a, b, q) := PicksTwo(g, tape, pos, Spender, Holder);
    PickedIndex(g, tape, pos, Spender, Holder);
    MissedActs(g, a, b, q);
    act := if a.None? || b.None? then None
           else Some(ActAxfer(a.value, b.value, 1 + tape(q) % MostUnits(g.accts[a.value])));
  }

  lemma ClawbackActs(g: Gen, tape: nat -> nat, pos: nat) returns (act: Option<Action>)
    requires |g.accts| >= 2
    ensures Acts(g, DrawClawback(g, tape, pos), act) && (act.Some? ==> act.value.ActClawback?)
  {
    hide PicksTwo, Missed, DoClawback;
    var (a, b, q) := PicksTwo(g, tape, pos, Giver, Holder);
    PickedIndex(g, tape, pos, Giver, Holder);
    MissedActs(g, a, b, q);
    act := if a.None? || b.None? then None else Some(ActClawback(a.value, b.value));
  }

  lemma RekeyActs(g: Gen, tape: nat -> nat, pos: nat) returns (act: Option<Action>)
    requires |g.accts| >= 2
    ensures Acts(g, DrawRekey(g, tape, pos), act) && (act.Some? ==> act.value.ActRekey?)
  {
    hide PicksTwo, Missed, DoRekey;
    var (a, b, q) := PicksTwo(g, tape, pos, OwnKey, Anyone);
    PickedIndex(g, tape, pos, OwnKey, Anyone);
    MissedActs(g, a, b, q);
    act := if a.None? || b.None? then None else Some(ActRekey(a.value, b.value));
  }

  lemma IncActs(g: Gen, tape: nat -> nat, pos: nat) returns (act: Option<Action>)
    requires |g.accts| >= 2
    ensures Acts(g, DrawInc(g, tape, pos), act) && (act.Some? ==> act.value.ActInc?)
  {
    hide PickOne, DoInc;
    var (a, q) := PickOne(g, tape, pos, AppUser);
    act := if a.None? then None else Some(ActInc(a.value));
  }

  /** The actions on one account that schedule nothing. */
  lemma BriefActs(k: nat, g: Gen, tape: nat -> nat, pos: nat) returns (act: Option<Action>)
    requires |g.accts| >= 2 && 5 <= k <= 10
    ensures Acts(g, DrawAction(k, g, tape, pos), act) && (act.Some? ==> (act.value.ActInner? <==> k == 10))
  {
    hide PickOne, DoAppOpt, DoBoxPut, DoBoxDel, DoInner;
    var ok := if k == 5 then NonUser else if k <= 7 then AppUser else if k == 10 then Holder else Anyone;
    var (a, q) := PickOne(g, tape, pos, ok);
    if a.None? || (k == 9 && g.boxes == []) {
      return None;
    }
    var x := a.value;
    match k
    case 5 => act := Some(ActAppOpt(x, OptIn));
    case 6 => act := Some(ActAppOpt(x, CloseOut));
    case 7 => act := Some(ActAppOpt(x, ClearState));
    case 8 => act := Some(ActBoxPut(x));
    case 9 => act := Some(ActBoxDel(x, tape(q) % |g.boxes|));
    case _ => act := Some(ActInner(x));
  }

  /** The actions on one account that leave steps for later. */
  lemma LongActs(k: nat, g: Gen, tape: nat -> nat, pos: nat) returns (act: Option<Action>)
    requires |g.accts| >= 2 && k in {3, 12, 14, 15, 16, 17}
    ensures Acts(g, DrawAction(k, g, tape, pos), act) && (act.Some? ==> !act.value.ActInner?)
  {
    hide PickOne, DoAssetOptIn, DoFreeze, DoCloseOut, DoKeyreg, DoAppLifecycle, DoAssetLifecycle;
    var ok := if k == 3 then Outsider else if k == 12 then Holder else if k == 15 then Offline else Anyone;
    var (a, q) := PickOne(g, tape, pos, ok);
    if a.None? {
      return None;
    }
    var x := a.value;
    match k
    case 3 => act := Some(ActAssetOptIn(x));
    case 12 => act := Some(ActFreeze(x));
    case 14 => act := Some(ActCloseOut(x));
    case 15 => act := Some(ActKeyreg(x));
    case 16 => act := Some(ActAppLifecycle(x));
    case _ => act := Some(ActAssetLifecycle(x));
  }

  /** Every draw but that of a group is one of the generator's actions, enabled by what was picked. */
  lemma DrawActs(k: nat, g: Gen, tape: nat -> nat, pos: nat) returns (act: Option<Action>)
    requires |g.accts| >= 2 && k < 18 && k != 11
    ensures Acts(g, DrawAction(k, g, tape, pos), act) && (act.Some? ==> (act.value.ActInner? <==> k == 10))
  {
    hide Acts, DrawPay, DrawAxfer, DrawClawback, DrawInc, DrawRekey;
    match k
    case 0 => act := PayActs(g, tape, pos);
    case 1 => act := AxferActs(g, tape, pos);
    case 2 => act := ClawbackActs(g, tape, pos);
    case 4 => act := IncActs(g, tape, pos);
    case 13 => act := RekeyActs(g, tape, pos);
    case _ =>
      if 5 <= k <= 10 {
        act := BriefActs(k, g, tape, pos);
      } else {
        act := LongActs(k, g, tape, pos);
      }
  }

  // ---- groups -----------------------------------------------------------------------------------------

  lemma ActionOne(g: Gen, act: Action)
    requires Enabled(g, act)
    ensures |Do(g, act).1.txns| == 1
  {
    hide Sub64, Add64, Later;
  }

  /** A member is one transaction of an account that was free before it. */
  lemma MemberFacts(g: Gen, tape: nat -> nat, pos: nat)
    requires |g.accts| >= 2
    ensures var d := DrawMember(g, tape, pos);
      && g.busy <= d.g.busy
      && (d.p.Some? ==> |d.p.value.txns| == 1 && d.p.value.onCommit == NoCommit && FromFresh(g, d.g, d.p.value))
  {
    hide DrawPay, DrawAxfer, DrawInc, Sub64, Add64;
    var k := tape(pos) % 3;
    if k == 0 {
      var act := PayActs(g, tape, pos + 1);
      if act.Some? { assert Free(g, act.value.a); }
    } else if k == 1 {
      var act := AxferActs(g, tape, pos + 1);
      if act.Some? { assert Free(g, act.value.a); }
    } else {
      var act := IncActs(g, tape, pos + 1);
      if act.Some? { assert Free(g, act.value.a); }
    }
  }

  ghost predicate GroupOf(g: Gen, p: Option<Planned>, size: nat) {
    p.Some? ==> 0 < |p.value.txns| <= size && p.value.onCommit == NoCommit && OwnSenders(g, p.value.txns)
  }

  lemma {:induction false} MembersFacts(g: Gen, tape: nat -> nat, pos: nat, size: nat, tries: nat, p: Option<Planned>)
    requires |g.accts| >= 2 && size > 0 && GroupOf(g, p, size)
    ensures var d := DrawMembers(g, tape, pos, size, tries, p); GroupOf(d.g, d.p, size)
    decreases tries
  {
    hide DrawMember, OwnSenders, FromFresh;
    if tries > 0 && (p.Some? ==> |p.value.txns| < size) {
      var d := DrawMember(g, tape, pos);
      MemberFacts(g, tape, pos);
      MemberSenders(g, p, d.g, d.p);
      MembersFacts(d.g, tape, d.pos, size, tries - 1, Join(p, d.p));
    }
  }

  /** An atomic group has at most five members, sent by different accounts. */
  lemma GroupFacts(g: Gen, tape: nat -> nat, pos: nat)
    requires |g.accts| >= 2
    ensures var d := DrawGroup(g, tape, pos); GroupOf(d.g, d.p, 5)
  {
    hide DrawMembers, OwnSenders;
    var size := 2 + tape(pos) % 4;
    MembersFacts(g, tape, pos + 1, size, 2 * size, None);
  }

  lemma DrawnSome(k: nat, g: Gen, tape: nat -> nat, pos: nat)
    requires |g.accts| >= 2 && k < 18
    ensures var d := DrawAction(k, g, tape, pos); d.p.Some? ==> d.p.value.txns != []
  {
    if k == 11 {
      hide DrawGroup;
      GroupFacts(g, tape, pos);
      assert DrawAction(k, g, tape, pos) == DrawGroup(g, tape, pos);
    } else {
      hide DrawAction, Do, Enabled;
      var act := DrawActs(k, g, tape, pos);
      if act.Some? { ActionOne(g, act.value); }
    }
  }

  // ---- filling a round ----------------------------------------------------------------------------

  /** The weights of `actions`, in the order of the table. */
  const WEIGHTS: seq<nat> := [30, 14, 2, 4, 10, 4, 1, 1, 6, 3, 6, 8, 1, 1, 1, 1, 1, 1]

  const MAX_MISSES: nat := 64

  function SumTo(ws: seq<nat>, k: nat): nat
    requires k <= |ws|
  {
    if k == 0 then 0 else SumTo(ws, k - 1) + ws[k - 1]
  }

  lemma TotalWeight()
    ensures SumTo(WEIGHTS, 18) == 95
  {
    assert SumTo(WEIGHTS, 6) == 64;
    assert SumTo(WEIGHTS, 12) == 89;
  }

  /** The first entry that r does not reach past. */
  function Chosen(ws: seq<nat>, r: nat): (k: nat) {
    if ws == [] || r < ws[0] then 0 else 1 + Chosen(ws[1..], r - ws[0])
  }

  lemma {:induction false} SumFront(ws: seq<nat>, k: nat)
    requires 0 < k <= |ws|
    ensures SumTo(ws, k) == ws[0] + SumTo(ws[1..], k - 1)
  {
    if k > 1 { SumFront(ws, k - 1); }
  }

  lemma {:induction false} ChosenEntry(ws: seq<nat>, r: nat)
    requires r < SumTo(ws, |ws|)
    ensures Chosen(ws, r) < |ws|
  {
    SumFront(ws, |ws|);
    if r >= ws[0] { ChosenEntry(ws[1..], r - ws[0]); }
  }

  /** A round being filled. */
  datatype Fill = Fill(g: Gen, pos: nat, groups: seq<Planned>, misses: nat)

  function FillStep(f: Fill, tape: nat -> nat): (f': Fill)
    requires |f.g.accts| >= 2
    ensures |f'.g.accts| == |f.g.accts|
  {
    var k := Chosen(WEIGHTS, tape(f.pos) % 95);
    var d := DrawAction(k, f.g, tape, f.pos + 1);
    if d.p.None? then Fill(d.g, d.pos, f.groups, f.misses + 1) else Fill(d.g, d.pos, f.groups + [d.p.value], f.misses)
  }

  /** After n random actions. */
  function FillN(f: Fill, tape: nat -> nat, n: nat): (f': Fill)
    requires |f.g.accts| >= 2
    ensures |f'.g.accts| == |f.g.accts|
  {
    if n == 0 then f else FillStep(FillN(f, tape, n - 1), tape)
  }

  lemma FillStart(f: Fill, tape: nat -> nat)
    requires |f.g.accts| >= 2
    ensures FillN(f, tape, 0) == f
  {
  }

  lemma FillNext(f: Fill, tape: nat -> nat, n: nat)
    requires |f.g.accts| >= 2
    ensures FillN(f, tape, n + 1) == FillStep(FillN(f, tape, n), tape)
  {
    hide FillStep;
  }

  /** The round is full, or too many actions found no account. */
  predicate Full(f: Fill, limit: nat) {
    |Flatten(f.groups)| >= limit || f.misses >= MAX_MISSES
  }

  /** The random actions of a round, from the first to the one that ends it. */
  ghost predicate Fills(f: Fill, tape: nat -> nat, limit: nat, f': Fill)
    requires |f.g.accts| >= 2
  {
    exists n: nat ::
      f' == FillN(f, tape, n) && Full(f', limit) && forall m: nat | m < n :: !Full(FillN(f, tape, m), limit)
  }

  /** The tape determines them. */
  lemma FillsOnce(f: Fill, tape: nat -> nat, limit: nat, x: Fill, y: Fill)
    requires |f.g.accts| >= 2 && Fills(f, tape, limit, x) && Fills(f, tape, limit, y)
    ensures x == y
  {
    hide FillN, Full;
    var n: nat :| x == FillN(f, tape, n) && Full(x, limit) && forall m: nat | m < n :: !Full(FillN(f, tape, m), limit);
    var k: nat :| y == FillN(f, tape, k) && Full(y, limit) && forall m: nat | m < k :: !Full(FillN(f, tape, m), limit);
    assert n == k;
  }

  // ---- a whole round --------------------------------------------------------------------------------

  /** The first deferred steps of the round plan `groups` and lead to g'. */
  ghost predicate Runs(g: Gen, groups: seq<Planned>, g': Gen)
    decreases |groups|
  {
    if groups == [] then g' == g
    else
      && g.todo != [] && StepInRange(g, g.todo[0]) && groups[0] == RunStep(g).1
      && Runs(RunStep(g).0, groups[1..], g')
  }

  lemma RunsNone(g: Gen)
    ensures Runs(g, [], g)
  {
  }

  lemma {:induction false} RunsNext(g: Gen, groups: seq<Planned>, g1: Gen)
    requires Runs(g, groups, g1) && g1.todo != [] && StepInRange(g1, g1.todo[0])
    ensures Runs(g, groups + [RunStep(g1).1], RunStep(g1).0)
    decreases |groups|
  {
    hide RunStep, StepInRange;
    var more := groups + [RunStep(g1).1];
    if groups == [] {
      assert more == [RunStep(g1).1] && more[1..] == [];
    } else {
      RunsNext(RunStep(g).0, groups[1..], g1);
      assert more[1..] == groups[1..] + [RunStep(g1).1];
    }
  }

  lemma {:induction false} RunsOnce(g: Gen, xs: seq<Planned>, x: Gen, ys: seq<Planned>, y: Gen)
    requires Runs(g, xs, x) && Runs(g, ys, y) && x.todo == [] == y.todo
    ensures xs == ys && x == y
    decreases |xs|
  {
    hide RunStep, StepInRange;
    if xs != [] && ys != [] {
      RunsOnce(RunStep(g).0, xs[1..], x, ys[1..], y);
      assert xs == [xs[0]] + xs[1..] && ys == [ys[0]] + ys[1..];
    }
  }

  /** A round is never left empty. */
  function Ended(f: Fill): Fill {
    if f.groups == [] then Fill(DoFiller(f.g).0, f.pos, [DoFiller(f.g).1], f.misses) else f
  }

  /** `planRound` after setup: the deferred steps, then random actions until the round is full. */
  ghost predicate PlansRound(g: Gen, tape: nat -> nat, pos: nat, limit: nat, g': Gen, pos': nat, groups: seq<Planned>) {
    exists steps: seq<Planned>, g1: Gen, f: Fill ::
      && Runs(BeginRound(g), steps, g1) && g1.todo == [] && |g1.accts| >= 2
      && Fills(Fill(g1, pos, steps, 0), tape, limit, f)
      && Ended(f) == Fill(g', pos', groups, f.misses)
  }

  /** The state of the generator and the tape determine the plan of a round. */
  lemma PlansOnce(g: Gen, tape: nat -> nat, pos: nat, limit: nat,
                  g1: Gen, pos1: nat, groups1: seq<Planned>, g2: Gen, pos2: nat, groups2: seq<Planned>)
    requires PlansRound(g, tape, pos, limit, g1, pos1, groups1) && PlansRound(g, tape, pos, limit, g2, pos2, groups2)
    ensures g1 == g2 && pos1 == pos2 && groups1 == groups2
  {
    hide Runs, Fills, Ended, BeginRound;
    var x: seq<Planned>, h1: Gen, f1: Fill :|
      && Runs(BeginRound(g), x, h1) && h1.todo == [] && |h1.accts| >= 2
      && Fills(Fill(h1, pos, x, 0), tape, limit, f1) && Ended(f1) == Fill(g1, pos1, groups1, f1.misses);
    var y: seq<Planned>, h2: Gen, f2: Fill :|
      && Runs(BeginRound(g), y, h2) && h2.todo == [] && |h2.accts| >= 2
      && Fills(Fill(h2, pos, y, 0), tape, limit, f2) && Ended(f2) == Fill(g2, pos2, groups2, f2.misses);
    RunsOnce(BeginRound(g), x, h1, y, h2);
    FillsOnce(Fill(h1, pos, x, 0), tape, limit, f1, f2);
  }
}

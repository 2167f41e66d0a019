/** The corpus as a whole: the rounds of a run one after the other, that the random source determines
    them, and that submission delivers them. */
module Corpora {
  import opened Optional
  import opened Ledger
  import opened Planner
  import opened PlannerInv
  import opened PlannerRounds
  import opened PlannerSetup
  import opened PlannerTape
  import Submission

  // ---- the rounds of a run ----------------------------------------------------------------------

  /** Generator, tape position and ledger between two rounds. */
  datatype Snapshot = Snapshot(g: Gen, pos: nat, ledger: State)

  /** What `planRound` plans from `x`, and the generator and tape afterwards. */
  ghost predicate PlannedFrom(tape: nat -> nat, limit: nat, x: Snapshot, groups: seq<Planned>, g: Gen, pos: nat) {
    if x.g.round < SETUP_ROUNDS then
      && |x.g.accts| > 0 && pos == x.pos
      && (g, groups) == (DoSetup(BeginRound(x.g), x.g.round).0, [DoSetup(BeginRound(x.g), x.g.round).1])
    else PlansRound(x.g, tape, x.pos, limit, g, pos, groups)
  }

  /** One round: planned, accepted as one payset, and its created ids handed back. */
  ghost predicate RoundMade(tape: nat -> nat, limit: nat, x: Snapshot, groups: seq<Planned>, y: Snapshot) {
    && (forall p | p in groups :: p.txns != []) && groups != []
    && Exec(x.ledger, Flatten(groups)) == Some(y.ledger)
    && exists g: Gen ::
         && PlannedFrom(tape, limit, x, groups, g, y.pos)
         && y.g == CommitAll(g, groups, ApplyData(x.ledger, Flatten(groups)))
  }

  /** The rounds of a run and the snapshots between them. */
  ghost predicate Corpus(tape: nat -> nat, limit: nat, trace: seq<Snapshot>, plans: seq<seq<Planned>>) {
    |trace| == |plans| + 1 && forall r | 0 <= r < |plans| :: RoundMade(tape, limit, trace[r], plans[r], trace[r + 1])
  }

  lemma RoundOnce(tape: nat -> nat, limit: nat, x: Snapshot, groups: seq<Planned>, y: Snapshot,
                  groups': seq<Planned>, y': Snapshot)
    requires RoundMade(tape, limit, x, groups, y) && RoundMade(tape, limit, x, groups', y')
    ensures groups == groups' && y == y'
  {
    hide Exec, Flatten, CommitAll, ApplyData, PlansRound, DoSetup, BeginRound;
    var g: Gen :| PlannedFrom(tape, limit, x, groups, g, y.pos)
                  && y.g == CommitAll(g, groups, ApplyData(x.ledger, Flatten(groups)));
    var g': Gen :| PlannedFrom(tape, limit, x, groups', g', y'.pos)
                   && y'.g == CommitAll(g', groups', ApplyData(x.ledger, Flatten(groups')));
    if x.g.round >= SETUP_ROUNDS {
      PlansOnce(x.g, tape, x.pos, limit, g, y.pos, groups, g', y'.pos, groups');
    }
  }

  /** The same random source and parameters make the same corpus. */
  lemma {:induction false} Deterministic(tape: nat -> nat, limit: nat, trace: seq<Snapshot>, plans: seq<seq<Planned>>,
                                         trace': seq<Snapshot>, plans': seq<seq<Planned>>)
    requires Corpus(tape, limit, trace, plans) && Corpus(tape, limit, trace', plans')
    requires |plans| == |plans'| && trace[0] == trace'[0]
    ensures plans == plans' && trace == trace'
    decreases |plans|
  {
    hide RoundMade;
    if plans != [] {
      var n := |plans| - 1;
      Deterministic(tape, limit, trace[..n + 1], plans[..n], trace'[..n + 1], plans'[..n]);
      assert trace[n] == trace[..n + 1][n] == trace'[..n + 1][n] == trace'[n];
      RoundOnce(tape, limit, trace[n], plans[n], trace[n + 1], plans'[n], trace'[n + 1]);
      assert plans == plans[..n] + [plans[n]] && plans' == plans'[..n] + [plans'[n]];
      assert trace == trace[..n + 1] + [trace[n + 1]] && trace' == trace'[..n + 1] + [trace'[n + 1]];
    }
  }

  // ---- the plan as the submission protocol sees it -----------------------------------------------------

  /** A transaction is identified by its note, which no other transaction of the run carries. */
  function Notes(ts: seq<Signed>): seq<nat> {
    seq(|ts|, (i: nat) requires i < |ts| => ts[i].note)
  }

  function GroupIds(groups: seq<Planned>): seq<seq<nat>> {
    if groups == [] then [] else [Notes(groups[0].txns)] + GroupIds(groups[1..])
  }

  lemma NoNotes(ts: seq<Signed>)
    ensures Notes(ts) == [] <==> ts == []
  {
    assert |Notes(ts)| == |ts|;
  }

  lemma NotesConcat(a: seq<Signed>, b: seq<Signed>)
    ensures Notes(a + b) == Notes(a) + Notes(b)
  {
  }

  /** A block that carries the planned groups' ids in order is the round's payset, and a round's plan
      is one that the submission protocol accepts: no group is empty and there is one. */
  lemma {:induction false} IdsOfPlan(groups: seq<Planned>)
    requires forall p | p in groups :: p.txns != []
    ensures Submission.Concat(GroupIds(groups)) == Notes(Flatten(groups))
    ensures |GroupIds(groups)| == |groups| && forall g | g in GroupIds(groups) :: g != []
    decreases |groups|
  {
    hide Notes;
    if groups == [] {
      NoNotes([]);
    } else {
      IdsOfPlan(groups[1..]);
      var p := groups[0];
      assert p in groups;
      NoNotes(p.txns);
      NotesConcat(p.txns, Flatten(groups[1..]));
      assert GroupIds(groups)[1..] == GroupIds(groups[1..]);
    }
  }

  // ---- no transaction twice ------------------------------------------------------------------------------

  lemma BodyKeepsNotes(s: State, t: Txn)
    requires ApplyBody(s, t).Some?
    ensures ApplyBody(s, t).value.notes == s.notes
  {
  }

  /** An accepted payset carries every note once, and none that was there before. */
  lemma {:induction false} NotesFresh(s: State, ts: seq<Signed>)
    requires Exec(s, ts).Some?
    ensures forall i | 0 <= i < |ts| :: ts[i].note !in s.notes
    ensures NoDup(Notes(ts))
    decreases |ts|
  {
    hide ApplyBody;
    if ts != [] {
      var s1 := Apply(s, ts[0]).value;
      BodyKeepsNotes(s.(notes := s.notes + {ts[0].note}), ts[0].tx);
      NotesFresh(s1, ts[1..]);
      assert Notes(ts) == [ts[0].note] + Notes(ts[1..]);
      assert forall i | 0 < i < |ts| :: ts[i] == ts[1..][i - 1];
    }
  }

  /** All transactions of a run, in the order of their commitment. */
  function AllTxns(plans: seq<seq<Planned>>): seq<Signed> {
    if plans == [] then [] else AllTxns(plans[..|plans| - 1]) + Flatten(plans[|plans| - 1])
  }

  /** The paysets of a run, one after the other, lead from its first ledger to its last. */
  lemma {:induction false} WholeRun(tape: nat -> nat, limit: nat, trace: seq<Snapshot>, plans: seq<seq<Planned>>)
    requires Corpus(tape, limit, trace, plans)
    ensures Exec(trace[0].ledger, AllTxns(plans)) == Some(trace[|plans|].ledger)
    decreases |plans|
  {
    hide Exec, Flatten, PlannedFrom, CommitAll;
    if plans == [] {
      NothingRuns(trace[0].ledger);
    } else {
      var n := |plans| - 1;
      assert RoundMade(tape, limit, trace[n], plans[n], trace[n + 1]);
      WholeRun(tape, limit, trace[..n + 1], plans[..n]);
      ExecConcat(trace[0].ledger, AllTxns(plans[..n]), Flatten(plans[n]));
    }
  }

  lemma NothingRuns(s: State)
    ensures Exec(s, []) == Some(s)
  {
  }

  lemma {:induction false} InAll(plans: seq<seq<Planned>>, r: nat, t: Signed)
    requires r < |plans| && t in Flatten(plans[r])
    ensures t in AllTxns(plans)
    decreases |plans|
  {
    hide Flatten;
    if r < |plans| - 1 { InAll(plans[..|plans| - 1], r, t); }
  }

  ghost function Lookup(ts: seq<Signed>, id: nat): Signed
    requires ts != []
  {
    if |ts| == 1 || ts[0].note == id then ts[0] else Lookup(ts[1..], id)
  }

  lemma {:induction false} LookupFinds(ts: seq<Signed>, t: Signed)
    requires t in ts && NoDup(Notes(ts))
    ensures Lookup(ts, t.note) == t
    decreases |ts|
  {
    if |ts| > 1 && t != ts[0] {
      var i :| 0 < i < |ts| && ts[i] == t;
      assert Notes(ts)[0] != Notes(ts)[i];
      assert Notes(ts[1..]) == Notes(ts)[1..];
      LookupFinds(ts[1..], t);
    }
  }

  /** Ids identify the transactions of a run: no two of them carry the same. (`other` answers for ids
      that the run does not have.) */
  lemma IdsIdentify(tape: nat -> nat, limit: nat, trace: seq<Snapshot>, plans: seq<seq<Planned>>, other: Signed)
    returns (byId: nat -> Signed)
    requires Corpus(tape, limit, trace, plans)
    ensures NoDup(Notes(AllTxns(plans))) && Finds(byId, plans)
  {
    hide Exec, Flatten, Notes, AllTxns, RoundMade;
    WholeRun(tape, limit, trace, plans);
    var all := AllTxns(plans);
    NotesFresh(trace[0].ledger, all);
    byId := if all == [] then (_: nat) => other else (id: nat) => Lookup(all, id);
    forall r, t | 0 <= r < |plans| && t in Flatten(plans[r])
      ensures byId(t.note) == t
    {
      InAll(plans, r, t);
      LookupFinds(all, t);
    }
  }

  // ---- submission delivers the corpus ---------------------------------------------------------------------

  /** The blocks of the run as lists of transaction ids. */
  function BlockIds(plans: seq<seq<Planned>>): seq<seq<nat>> {
    seq(|plans|, (r: nat) requires r < |plans| => Notes(Flatten(plans[r])))
  }

  /** In each round the driver submits the groups planned for it, when the blocks so far are those of
      the run. */
  ghost predicate Submits(plan: Submission.Plan, plans: seq<seq<Planned>>) {
    forall r | 0 <= r < |plans| :: plan(BlockIds(plans)[..r]) == GroupIds(plans[r])
  }

  /** The payset that a block of ids stands for. */
  function Payset(byId: nat -> Signed, block: seq<nat>): seq<Signed> {
    seq(|block|, (i: nat) requires i < |block| => byId(block[i]))
  }

  /** Every planned transaction is found under its id. */
  ghost predicate Finds(byId: nat -> Signed, plans: seq<seq<Planned>>) {
    forall r, t | 0 <= r < |plans| && t in Flatten(plans[r]) :: byId(t.note) == t
  }

  lemma PaysetOfNotes(byId: nat -> Signed, ts: seq<Signed>)
    requires forall t | t in ts :: byId(t.note) == t
    ensures Payset(byId, Notes(ts)) == ts
  {
    assert forall i | 0 <= i < |ts| :: ts[i] in ts;
  }

  /** However submission interleaves, the blocks are those of the run. */
  lemma {:induction false} BlocksDelivered(plan: Submission.Plan, plans: seq<seq<Planned>>, blocks: seq<seq<nat>>,
                                           r: nat)
    requires Submits(plan, plans) && Submission.AsPlanned(plan, blocks) && r <= |blocks| && r <= |plans|
    requires forall k | 0 <= k < |plans| :: forall p | p in plans[k] :: p.txns != []
    ensures blocks[..r] == BlockIds(plans)[..r]
  {
    hide Flatten, GroupIds, Notes, Submission.Concat;
    if r > 0 {
      BlocksDelivered(plan, plans, blocks, r - 1);
      IdsOfPlan(plans[r - 1]);
      assert blocks[r - 1] == Submission.Concat(plan(blocks[..r - 1])) == BlockIds(plans)[r - 1];
      assert blocks[..r] == blocks[..r - 1] + [blocks[r - 1]];
      assert BlockIds(plans)[..r] == BlockIds(plans)[..r - 1] + [BlockIds(plans)[r - 1]];
    }
  }

  /** Under every interleaving of the driver, the node's verification threads and its notifications,
      each block that is committed is the planned payset, and the ledger accepts it and moves to the
      state the generator expects. The driver stops early only on a time-out or a refusal. */
  lemma Delivered(tape: nat -> nat, limit: nat, trace: seq<Snapshot>, plans: seq<seq<Planned>>,
                  plan: Submission.Plan, es: seq<Submission.Event>, byId: nat -> Signed)
    requires Corpus(tape, limit, trace, plans) && Submits(plan, plans) && Finds(byId, plans)
    requires Submission.Proper(plan) && Submission.Run(plan, Submission.START, es).Some?
    ensures var c := Submission.Run(plan, Submission.START, es).value;
      && (forall r | 0 <= r < |c.node.blocks| && r < |plans| ::
            Exec(trace[r].ledger, Payset(byId, c.node.blocks[r])) == Some(trace[r + 1].ledger))
      && (c.pc.Failed? ==> c.pc.fault == Submission.TimedOut || c.pc.fault == Submission.Refused)
  {
    hide Exec, Flatten, Notes, Submission.Run, Submission.AsPlanned, Submits, PlannedFrom, CommitAll;
    Submission.Faithful(plan, es);
    forall k | 0 <= k < |plans|
      ensures forall p | p in plans[k] :: p.txns != []
    {
      assert RoundMade(tape, limit, trace[k], plans[k], trace[k + 1]);
    }
    var blocks := Submission.Run(plan, Submission.START, es).value.node.blocks;
    forall r | 0 <= r < |blocks| && r < |plans|
      ensures Exec(trace[r].ledger, Payset(byId, blocks[r])) == Some(trace[r + 1].ledger)
    {
      assert RoundMade(tape, limit, trace[r], plans[r], trace[r + 1]);
      BlocksDelivered(plan, plans, blocks, r + 1);
      assert blocks[r] == blocks[..r + 1][r] == BlockIds(plans)[r];
      PaysetOfNotes(byId, Flatten(plans[r]));
    }
  }
}

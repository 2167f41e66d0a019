/** Submitting a round to a DevMode node (benchmarks/go-corpus/client.go, main.go): every group but
    the last goes to the asynchronous endpoint, the last one is submitted synchronously and makes
    the block. The node verifies asynchronous groups on its own threads and learns of a committed
    block later still, so its moves interleave freely with the driver's. */
module Submission {
  import opened Optional

  type Txid = nat
  type Group = seq<Txid>

  function Size(gs: seq<Group>): nat {
    if gs == [] then 0 else |gs[0]| + Size(gs[1..])
  }

  function Concat(gs: seq<Group>): seq<Txid> {
    if gs == [] then [] else gs[0] + Concat(gs[1..])
  }

  /** `verifying`: accepted by the asynchronous endpoint, not yet in the pool. `pool`: in order of
      admission. `stale`: committed, but not yet dropped from the pool's listing. */
  datatype Node = Node(verifying: seq<Group>, pool: seq<Group>, stale: seq<Group>, blocks: seq<seq<Txid>>)

  /** `total-transactions` of the pending listing. */
  function PoolSize(n: Node): nat {
    Size(n.stale) + Size(n.pool)
  }

  datatype Fault = TimedOut | Refused | PoolExceeded | WrongBlock

  /** Where the driver stands: group i is the next to post, or is waited for. */
  datatype Pc = WaitEmpty | Post(i: nat) | Await(i: nat) | Check | Failed(fault: Fault)

  datatype Conf = Conf(node: Node, pc: Pc, groups: seq<Group>, want: nat)

  /** The driver's moves: Poll reads the pool size or the new block, Send posts the next group,
      GiveUp is its time-out. The node's moves: Admit or Reject a group it was verifying, Notify
      the pool of the last block, Refuse a posted group. */
  datatype Event = Poll | Send | GiveUp | Admit(k: nat) | Reject(k: nat) | Notify | Refuse

  function Without<T>(s: seq<T>, k: nat): seq<T>
    requires k < |s|
  {
    s[..k] + s[k + 1..]
  }

  /** The plan of the next round may depend on the blocks so far (through the ids they created). */
  type Plan = seq<seq<Txid>> -> seq<Group>

  ghost predicate Proper(plan: Plan) {
    forall bs :: plan(bs) != [] && forall g | g in plan(bs) :: g != []
  }

  function DriverMove(plan: Plan, c: Conf, e: Event): Option<Conf>
    requires e.Poll? || e.Send? || e.GiveUp? || e.Refuse?
  {
    var n := c.node;
    match (c.pc, e)
    case (WaitEmpty, Poll) =>
      if PoolSize(n) == 0 then Some(c.(pc := Post(0), groups := plan(n.blocks), want := 0)) else Some(c)
    case (Await(i), Poll) =>
      if PoolSize(n) > c.want then Some(c.(pc := Failed(PoolExceeded)))
      else if PoolSize(n) == c.want then Some(c.(pc := Post(i + 1)))
      else Some(c)
    case (Check, Poll) =>
      if n.blocks == [] || n.blocks[|n.blocks| - 1] != Concat(c.groups) then Some(c.(pc := Failed(WrongBlock)))
      else Some(c.(pc := WaitEmpty))
    case (Post(i), Send) =>
      if i >= |c.groups| then None
      else if i < |c.groups| - 1 then
        Some(c.(node := n.(verifying := n.verifying + [c.groups[i]]), pc := Await(i), want := c.want + |c.groups[i]|))
      else
        Some(c.(node := n.(pool := [], stale := n.stale + n.pool + [c.groups[i]],
                           blocks := n.blocks + [Concat(n.pool + [c.groups[i]])]), pc := Check))
    case (Post(_), Refuse) => Some(c.(pc := Failed(Refused)))
    case (WaitEmpty, GiveUp) => Some(c.(pc := Failed(TimedOut)))
    case (Await(_), GiveUp) => Some(c.(pc := Failed(TimedOut)))
    case _ => None
  }

  function NodeMove(n: Node, e: Event): Option<Node>
    requires e.Admit? || e.Reject? || e.Notify?
  {
    match e
    case Admit(k) =>
      if k >= |n.verifying| then None
      else Some(n.(verifying := Without(n.verifying, k), pool := n.pool + [n.verifying[k]]))
    case Reject(k) => if k >= |n.verifying| then None else Some(n.(verifying := Without(n.verifying, k)))
    case Notify => Some(n.(stale := []))
  }

  function Move(plan: Plan, c: Conf, e: Event): Option<Conf> {
    if e.Admit? || e.Reject? || e.Notify? then
      match NodeMove(c.node, e)
      case None => None
      case Some(n) => Some(c.(node := n))
    else DriverMove(plan, c, e)
  }

  /** A run is any sequence of moves that were possible when they were made. */
  function Run(plan: Plan, c: Conf, es: seq<Event>): Option<Conf>
    decreases |es|
  {
    if es == [] then Some(c)
    else
      match Move(plan, c, es[0])
      case None => None
      case Some(c1) => Run(plan, c1, es[1..])
  }

  const START: Conf := Conf(Node([], [], [], []), WaitEmpty, [], 0)

  // ---- sizes -------------------------------------------------------------------------------------

  lemma {:induction false} SizeSplit(gs: seq<Group>, i: nat)
    requires i < |gs|
    ensures Size(gs[..i + 1]) == Size(gs[..i]) + |gs[i]|
  {
    if i == 0 {
      assert gs[..1][1..] == [];
    } else {
      SizeSplit(gs[1..], i - 1);
      assert gs[..i + 1][1..] == gs[1..][..i] && gs[..i][1..] == gs[1..][..i - 1];
    }
  }

  lemma {:induction false} SizeZero(gs: seq<Group>)
    requires NonEmpty(gs)
    ensures Size(gs) == 0 <==> gs == []
  {
    if gs != [] {
      assert gs[0] in gs;
    }
  }

  // ---- the invariant -----------------------------------------------------------------------------

  /** Every block is the plan of its round, in order. */
  ghost predicate AsPlanned(plan: Plan, blocks: seq<seq<Txid>>) {
    forall r | 0 <= r < |blocks| :: blocks[r] == Concat(plan(blocks[..r]))
  }

  ghost predicate NonEmpty(gs: seq<Group>) {
    forall g | g in gs :: g != []
  }

  /** While waiting for group i: it is the only one being verified, or it is in the pool behind its
      predecessors, or it was rejected. */
  ghost predicate Waiting(n: Node, gs: seq<Group>, i: nat)
    requires i < |gs|
  {
    || (n.verifying == [gs[i]] && n.pool == gs[..i])
    || (n.verifying == [] && n.pool == gs[..i + 1])
    || (n.verifying == [] && n.pool == gs[..i])
  }

  ghost predicate Inv(plan: Plan, c: Conf) {
    var n := c.node;
    && AsPlanned(plan, if c.pc.Check? && n.blocks != [] then n.blocks[..|n.blocks| - 1] else n.blocks)
    && match c.pc
       case WaitEmpty => n.verifying == [] && n.pool == [] && NonEmpty(n.stale)
       case Post(i) =>
         && i < |c.groups| && c.groups == plan(n.blocks)
         && n.verifying == [] && n.stale == [] && n.pool == c.groups[..i] && c.want == Size(c.groups[..i])
       case Await(i) =>
         && i < |c.groups| - 1 && c.groups == plan(n.blocks)
         && n.stale == [] && Waiting(n, c.groups, i) && c.want == Size(c.groups[..i + 1])
       case Check =>
         && n.blocks != [] && c.groups == plan(n.blocks[..|n.blocks| - 1])
         && n.blocks[|n.blocks| - 1] == Concat(c.groups)
         && n.verifying == [] && n.pool == [] && NonEmpty(n.stale)
       case Failed(f) => f == TimedOut || f == Refused
  }

  lemma NodeKeeps(plan: Plan, c: Conf, e: Event)
    requires Inv(plan, c) && (e.Admit? || e.Reject? || e.Notify?)
    ensures NodeMove(c.node, e).Some? ==> Inv(plan, c.(node := NodeMove(c.node, e).value))
  {
    hide AsPlanned, Size, Concat;
    if c.pc.Await? && (e.Admit? || e.Reject?) && e.k < |c.node.verifying| {
      var i := c.pc.i;
      assert c.groups[..i] + [c.groups[i]] == c.groups[..i + 1];
      assert Without(c.node.verifying, e.k) == [];
    }
  }

  /** The heart of it: the count the driver waits for is reached exactly when the group it posted
      has joined the pool behind all earlier ones. */
  lemma CountTells(gs: seq<Group>, n: Node, i: nat)
    requires i < |gs| && NonEmpty(gs) && n.stale == [] && Waiting(n, gs, i)
    ensures PoolSize(n) <= Size(gs[..i + 1])
    ensures PoolSize(n) == Size(gs[..i + 1]) <==> n.verifying == [] && n.pool == gs[..i + 1]
  {
    SizeSplit(gs, i);
    assert gs[i] in gs;
  }

  lemma SendKeeps(plan: Plan, c: Conf)
    requires Proper(plan) && Inv(plan, c) && c.pc.Post?
    ensures Move(plan, c, Send).Some? && Inv(plan, Move(plan, c, Send).value)
  {
    hide Concat, AsPlanned, Size;
    var n, i := c.node, c.pc.i;
    assert NonEmpty(c.groups);
    SizeSplit(c.groups, i);
    if i == |c.groups| - 1 {
      assert n.pool + [c.groups[i]] == c.groups;
      assert n.stale + n.pool + [c.groups[i]] == c.groups;
      var bs := n.blocks + [Concat(c.groups)];
      assert bs[..|bs| - 1] == n.blocks;
    } else {
      assert n.verifying + [c.groups[i]] == [c.groups[i]];
    }
  }

  lemma CheckedBlock(plan: Plan, blocks: seq<seq<Txid>>)
    requires blocks != [] && AsPlanned(plan, blocks[..|blocks| - 1])
    requires blocks[|blocks| - 1] == Concat(plan(blocks[..|blocks| - 1]))
    ensures AsPlanned(plan, blocks)
  {
    forall r | 0 <= r < |blocks|
      ensures blocks[r] == Concat(plan(blocks[..r]))
    {
      if r < |blocks| - 1 {
        assert blocks[..|blocks| - 1][..r] == blocks[..r];
      }
    }
  }

  lemma PollKeeps(plan: Plan, c: Conf)
    requires Proper(plan) && Inv(plan, c) && Move(plan, c, Poll).Some?
    ensures Inv(plan, Move(plan, c, Poll).value)
  {
    hide Concat, AsPlanned, Size;
    var n := c.node;
    if c.pc.WaitEmpty? && PoolSize(n) == 0 {
      SizeZero(n.stale);
      assert plan(n.blocks)[..0] == [];
      NoSize();
    } else if c.pc.Await? {
      assert NonEmpty(c.groups);
      CountTells(c.groups, n, c.pc.i);
    } else if c.pc.Check? {
      CheckedBlock(plan, n.blocks);
    }
  }

  lemma NoSize()
    ensures Size([]) == 0
  {
  }

  lemma MoveKeeps(plan: Plan, c: Conf, e: Event)
    requires Proper(plan) && Inv(plan, c) && Move(plan, c, e).Some?
    ensures Inv(plan, Move(plan, c, e).value)
  {
    hide Inv, NodeMove;
    if e.Admit? || e.Reject? || e.Notify? {
      NodeKeeps(plan, c, e);
    } else if e.Send? {
      SendKeeps(plan, c);
    } else if e.Poll? {
      PollKeeps(plan, c);
    } else {
      FaultKeeps(plan, c, e);
    }
  }

  lemma FaultKeeps(plan: Plan, c: Conf, e: Event)
    requires Inv(plan, c) && (e.GiveUp? || e.Refuse?) && Move(plan, c, e).Some?
    ensures Inv(plan, Move(plan, c, e).value)
  {
    hide AsPlanned, Size, Concat;
  }

  lemma {:induction false} RunKeeps(plan: Plan, c: Conf, es: seq<Event>)
    requires Proper(plan) && Inv(plan, c) && Run(plan, c, es).Some?
    ensures Inv(plan, Run(plan, c, es).value)
    decreases |es|
  {
    hide Inv, Move;
    if es != [] {
      MoveKeeps(plan, c, es[0]);
      RunKeeps(plan, Move(plan, c, es[0]).value, es[1..]);
    }
  }

  // ---- the theorems --------------------------------------------------------------------------------

  /** In every interleaving, every block is exactly its round's plan in the planned order, and the
      driver's own alarms (an unplanned transaction in the pool, a block that differs from the plan)
      never go off: only a time-out or a refusal can stop it. */
  lemma Faithful(plan: Plan, es: seq<Event>)
    requires Proper(plan) && Run(plan, START, es).Some?
    ensures var c := Run(plan, START, es).value;
      && AsPlanned(plan, c.node.blocks)
      && (c.pc.Failed? ==> c.pc.fault == TimedOut || c.pc.fault == Refused)
  {
    hide Run, AsPlanned;
    StartHolds(plan);
    RunKeeps(plan, START, es);
    var c := Run(plan, START, es).value;
    if c.pc.Check? {
      CheckedBlock(plan, c.node.blocks);
    }
  }

  lemma StartHolds(plan: Plan)
    ensures Inv(plan, START)
  {
  }

  /** At most one group is ever being verified. */
  lemma OneInFlight(plan: Plan, es: seq<Event>)
    requires Proper(plan) && Run(plan, START, es).Some?
    ensures var c := Run(plan, START, es).value;
      !c.pc.Failed? ==> |c.node.verifying| <= 1 && (c.node.verifying != [] ==> c.node.stale == [] && c.pc.Await?)
  {
    hide Run, AsPlanned, Size, Concat;
    StartHolds(plan);
    RunKeeps(plan, START, es);
  }

  lemma {:induction false} RunConcat(plan: Plan, c: Conf, xs: seq<Event>, ys: seq<Event>)
    requires Run(plan, c, xs).Some?
    ensures Run(plan, c, xs + ys) == Run(plan, Run(plan, c, xs).value, ys)
    decreases |xs|
  {
    hide Move;
    if xs == [] {
      assert xs + ys == ys;
    } else {
      assert (xs + ys)[0] == xs[0] && (xs + ys)[1..] == xs[1..] + ys;
      RunConcat(plan, Move(plan, c, xs[0]).value, xs[1..], ys);
    }
  }

  lemma RunOne(plan: Plan, c: Conf, e: Event)
    ensures Run(plan, c, [e]) == Move(plan, c, e)
  {
    hide Move;
    assert [e][1..] == [];
  }

  /** Posting one asynchronous group and seeing it admitted. */
  lemma PostOne(plan: Plan, c: Conf) returns (es: seq<Event>)
    requires Proper(plan) && Inv(plan, c) && c.pc.Post? && c.pc.i < |c.groups| - 1
    ensures Run(plan, c, es).Some?
    ensures var c' := Run(plan, c, es).value;
      c'.pc == Post(c.pc.i + 1) && c'.groups == c.groups && c'.node.blocks == c.node.blocks
  {
    hide Inv, Size, Concat, Run;
    SendKeeps(plan, c);
    var c1 := Move(plan, c, Send).value;
    assert c1.node.verifying == [c.groups[c.pc.i]] by { PostFacts(plan, c); }
    var c2 := Move(plan, c1, Admit(0)).value;
    MoveKeeps(plan, c1, Admit(0));
    assert c2.node.verifying == [];
    Arrived(plan, c, c2);
    var c3 := Move(plan, c2, Poll).value;
    RunOne(plan, c, Send);
    RunOne(plan, c1, Admit(0));
    RunOne(plan, c2, Poll);
    RunConcat(plan, c, [Send], [Admit(0)]);
    RunConcat(plan, c, [Send] + [Admit(0)], [Poll]);
    es := [Send] + [Admit(0)] + [Poll];
  }

  lemma PostFacts(plan: Plan, c: Conf)
    requires Inv(plan, c) && c.pc.Post?
    ensures c.pc.i < |c.groups| && c.groups == plan(c.node.blocks)
    ensures c.node.verifying + [c.groups[c.pc.i]] == [c.groups[c.pc.i]]
    ensures c.node.pool == c.groups[..c.pc.i] && c.want == Size(c.groups[..c.pc.i]) && c.node.stale == []
  {
    hide AsPlanned, Size, Concat;
  }

  lemma Arrived(plan: Plan, c: Conf, c2: Conf)
    requires Proper(plan) && Inv(plan, c) && c.pc.Post? && c.pc.i < |c.groups| - 1
    requires c2 == c.(node := c.node.(verifying := [], pool := c.node.pool + [c.groups[c.pc.i]]),
                      pc := Await(c.pc.i), want := c.want + |c.groups[c.pc.i]|)
    ensures PoolSize(c2.node) == c2.want
  {
    hide AsPlanned, Concat;
    var i := c.pc.i;
    assert c.groups[..i] + [c.groups[i]] == c.groups[..i + 1];
    SizeSplit(c.groups, i);
  }

  /** Posting the rest of the round. */
  lemma {:induction false} PostRest(plan: Plan, c: Conf) returns (es: seq<Event>)
    requires Proper(plan) && Inv(plan, c) && c.pc.Post?
    ensures Run(plan, c, es).Some?
    ensures Run(plan, c, es).value.pc == WaitEmpty
    ensures Run(plan, c, es).value.node.blocks == c.node.blocks + [Concat(plan(c.node.blocks))]
    decreases |c.groups| - c.pc.i
  {
    hide Inv, Size, Concat, Run;
    PostFacts(plan, c);
    if c.pc.i < |c.groups| - 1 {
      var es1 := PostOne(plan, c);
      var c1 := Run(plan, c, es1).value;
      RunKeeps(plan, c, es1);
      var es2 := PostRest(plan, c1);
      RunConcat(plan, c, es1, es2);
      es := es1 + es2;
    } else {
      SendKeeps(plan, c);
      var c1 := Move(plan, c, Send).value;
      assert c.node.pool + [c.groups[c.pc.i]] == c.groups;
      var c2 := Move(plan, c1, Poll).value;
      RunOne(plan, c, Send);
      RunOne(plan, c1, Poll);
      RunConcat(plan, c, [Send], [Poll]);
      es := [Send] + [Poll];
    }
  }

  /** A round can always be completed: between rounds, whatever the past, there is a way to the next
      block, and it is the planned one. */
  lemma Completes(plan: Plan, c: Conf) returns (es: seq<Event>)
    requires Proper(plan) && Inv(plan, c) && c.pc == WaitEmpty
    ensures Run(plan, c, es).Some?
    ensures Run(plan, c, es).value.pc == WaitEmpty
    ensures Run(plan, c, es).value.node.blocks == c.node.blocks + [Concat(plan(c.node.blocks))]
  {
    hide Inv, Concat, Run;
    NodeKeeps(plan, c, Notify);
    var c1 := Move(plan, c, Notify).value;
    assert PoolSize(c1.node) == 0 by { BetweenRounds(plan, c); }
    PollKeeps(plan, c1);
    var c2 := Move(plan, c1, Poll).value;
    var es2 := PostRest(plan, c2);
    RunOne(plan, c, Notify);
    RunOne(plan, c1, Poll);
    RunConcat(plan, c, [Notify], [Poll]);
    RunConcat(plan, c, [Notify] + [Poll], es2);
    es := [Notify] + [Poll] + es2;
  }

  lemma BetweenRounds(plan: Plan, c: Conf)
    requires Inv(plan, c) && c.pc == WaitEmpty
    ensures c.node.pool == []
  {
    hide AsPlanned;
  }

  /** Waiting for the pool to empty is necessary: while a committed transaction is still listed, the
      count is reached although the posted group is not in the pool, and the block that follows
      lacks it. */
  lemma EmptyWaitNeeded()
    ensures var c := Conf(Node([], [], [[9]], [[9]]), Post(0), [[1], [2]], 0);
      var plan: Plan := (_ => [[1], [2]]);
      && Run(plan, c, [Send, Poll, Send]).Some?
      && Run(plan, c, [Send, Poll, Send]).value.node.blocks == [[9], [2]]
  {
    var plan: Plan := (_ => [[1], [2]]);
    var c := Conf(Node([], [], [[9]], [[9]]), Post(0), [[1], [2]], 0);
    assert [Send, Poll, Send][1..] == [Poll, Send] && [Poll, Send][1..] == [Send] && [Send][1..] == [];
    var c1 := Move(plan, c, Send).value;
    assert c1.pc == Await(0) && c1.want == 1 && c1.node == Node([[1]], [], [[9]], [[9]]);
    assert Size([[9]]) == 1 by { assert [[9]][1..] == []; }
    var c2 := Move(plan, c1, Poll).value;
    assert c2.pc == Post(1);
    var c3 := Move(plan, c2, Send).value;
    assert Concat([[2]]) == [2] by { assert [[2]][1..] == [] && [2] + [] == [2]; }
    assert c2.node.pool + [c2.groups[1]] == [[2]];
    assert c3.node.blocks == [[9]] + [[2]];
    assert Run(plan, c2, [Send]) == Some(c3);
    assert Run(plan, c1, [Poll, Send]) == Some(c3);
  }

  /** Waiting for each group is necessary: two groups in verification at once can swap. */
  lemma GroupWaitNeeded()
    ensures var n := Node([[1], [2]], [], [], []);
      var n1 := NodeMove(n, Admit(1)).value;
      Concat(NodeMove(n1, Admit(0)).value.pool) == [2, 1]
  {
    var n := Node([[1], [2]], [], [], []);
    var n1 := NodeMove(n, Admit(1)).value;
    assert n1 == Node([[1]], [[2]], [], []);
    var n2 := NodeMove(n1, Admit(0)).value;
    assert n2.pool == [[2], [1]];
    assert [[2], [1]][1..] == [[1]] && [[1]][1..] == [] && [1] + [] == [1];
    assert Concat([[1]]) == [1];
  }
}

/** The generator object of benchmarks/go-corpus/workload.go. Its methods change the fields step by
    step; `View` gathers them into the planner's state, on which the simulation is proved. */
module Workloads {
  import opened Optional
  import opened Ledger
  import opened Planner
  import opened PlannerInv
  import opened PlannerRun
  import opened PlannerRounds
  import opened PlannerSetup
  import opened PlannerOutcome
  import opened PlannerTape
  import opened PlannerRange

  /** The entries for rounds still to come: the current round's entry is only read at its start. */
  ghost function Future(sched: map<nat, seq<Step>>, round: nat): map<nat, seq<Step>> {
    map r | r in sched && r > round :: sched[r]
  }

  /** A signed transaction as it is submitted: `key` made the signature, `authAddr` names the
      authorizing address when it is not the sender. */
  datatype Wire = Wire(tx: Txn, note: nat, key: Addr, authAddr: Option<Addr>, grouped: bool)

  /** The address that a verifier takes the signature to come from. */
  function Authorizer(w: Wire): Addr {
    if w.authAddr.Some? then w.authAddr.value else w.tx.sender
  }

  ghost predicate SignedAs(w: Wire, t: Signed, grouped: bool) {
    && w.tx == t.tx && w.note == t.note && w.grouped == grouped
    && Authorizer(w) == w.key == t.signer && w.authAddr != Some(w.tx.sender)
  }

  method Total(ws: seq<nat>) returns (total: nat)
    ensures total == SumTo(ws, |ws|)
  {
    total := 0;
    for i := 0 to |ws|
      invariant total == SumTo(ws, i)
    {
      total := total + ws[i];
    }
  }

  /** The entry whose stretch of the weight line holds r: each entry is chosen for exactly as many
      values of r as its weight says. */
  method Choose(ws: seq<nat>, r: nat) returns (k: nat)
    requires r < SumTo(ws, |ws|)
    ensures k < |ws| && SumTo(ws, k) <= r < SumTo(ws, k) + ws[k]
    ensures k == Chosen(ws, r)
  {
    var left := r;
    k := 0;
    while left >= ws[k]
      invariant k < |ws| && r == SumTo(ws, k) + left
      invariant Chosen(ws, r) == k + Chosen(ws[k..], left)
      decreases |ws| - k
    {
      assert ws[k..][1..] == ws[k + 1..];
      left := left - ws[k];
      k := k + 1;
      assert SumTo(ws, k) == SumTo(ws, k - 1) + ws[k - 1];
    }
  }

  class Workload {
    const tape: nat -> nat          // the random generator's output
    var pos: nat
    const rounds: nat
    const txnsPerRound: nat

    var accts: seq<Acct>
    var keys: set<Addr>
    var known: seq<Addr>
    var assetA: nat
    var mainApp: nat
    var calleeApp: nat
    var round: nat
    var busy: set<nat>
    var sched: map<nat, seq<Step>>
    var boxes: seq<nat>
    var boxCtr: nat
    var ephCtr: nat
    var noteCtr: nat
    var throwIds: seq<nat>          // ids of throwaway apps and assets, 0 until committed
    var throwBy: seq<nat>           // their creators

    ghost var todo: seq<Step>
    ghost var eph: seq<Eph>
    ghost var throws: seq<Throw>
    ghost var frozen: set<nat>
    ghost var granted: set<nat>
    ghost var inners: nat
    ghost var nextId: nat

    ghost function View(): Gen
      reads this
    {
      Gen(rounds, accts, round, busy, Future(sched, round), todo, boxes, boxCtr, noteCtr, eph, throws,
          assetA, mainApp, calleeApp, known, frozen, granted, inners, nextId)
    }

    /** The recorded history agrees with the fields the source keeps. */
    ghost predicate Valid()
      reads this
    {
      && 8 <= |accts| && |eph| == ephCtr && |throwIds| == |throws| == |throwBy|
      && (forall t | 0 <= t < |throws| :: throwIds[t] == throws[t].id && throwBy[t] == throws[t].creator)
      && (forall a :: a in keys <==> Owned(|accts|, |eph|, a))
    }

    constructor (tape: nat -> nat, accounts: nat, rounds: nat, txnsPerRound: nat, ghost base: nat)
      requires 8 <= accounts
      ensures Valid() && pos == 0 && View() == SetupGen(accounts, rounds, base, 0)
      ensures this.rounds == rounds && this.txnsPerRound == txnsPerRound && this.tape == tape
    {
      this.tape, this.rounds, this.txnsPerRound := tape, rounds, txnsPerRound;
      pos, round, busy, sched := 0, 0, {}, map[];
      accts := SetupAccts(accounts, 0);
      keys := set i | 0 <= i < accounts :: Account(i);
      known := Allocated(accounts);
      assetA, mainApp, calleeApp := 0, 0, 0;
      boxes, boxCtr, ephCtr, noteCtr := [], 0, 0, 0;
      throwIds, throwBy := [], [];
      todo, eph, throws, frozen, granted, inners, nextId := [], [], [], {}, {}, 0, base;
      new;
      assert known + [] + [] == known;
      assert Future(sched, round) == map[];
    }

    method IntN(n: nat) returns (k: nat)
      requires n > 0
      modifies this`pos
      ensures k == tape(old(pos)) % n && pos == old(pos) + 1
    {
      k := tape(pos) % n;
      pos := pos + 1;
    }

    /** `pick`: up to 24 random tries for a free account that satisfies `ok`. */
    method Pick(ok: Acct -> bool) returns (r: Option<nat>)
      requires Valid()
      modifies this`pos, this`busy
      ensures Valid() && (r, pos) == Picks(old(View()), tape, old(pos), PICK_TRIES, ok)
      ensures View() == AfterPick(old(View()), r)
    {
      hide Future, Owned, Picks;
      ghost var g := View();
      var left := PICK_TRIES;
      while left > 0
        invariant Valid() && View() == g
        invariant Picks(g, tape, old(pos), PICK_TRIES, ok) == Picks(g, tape, pos, left, ok)
      {
        left := left - 1;
        PicksStep(g, tape, pos, left, ok);
        var k := IntN(|accts| - 1);
        var a := 1 + k;
        if a in busy || accts[a].reserved >= round || !ok(accts[a]) {
          continue;
        }
        busy := busy + {a};
        return Some(a);
      }
      PicksStep(g, tape, pos, 0, ok);
      return None;
    }

    /** Two picks in a row. */
    method PickTwo(okA: Acct -> bool, okB: Acct -> bool) returns (r: Option<(nat, nat)>)
      requires Valid()
      modifies this`pos, this`busy
      ensures var (a, b, q) := PicksTwo(old(View()), tape, old(pos), okA, okB);
        && Valid() && pos == q
        && (if a.None? || b.None? then r.None? && View() == AfterPick(AfterPick(old(View()), a), b)
            else r == Some((a.value, b.value)) && View() == Use(old(View()), {a.value, b.value}))
    {
      hide Future, Owned, Picks;
      ghost var g := View();
      var a := Pick(okA);
      var b := Pick(okB);
      if a.None? || b.None? {
        return None;
      }
      assert busy == g.busy + {a.value, b.value};
      return Some((a.value, b.value));
    }

    /** `at`. */
    method At(r: nat, d: Step)
      requires r > round
      modifies this`sched
      ensures View() == Later(old(View()), r - round, d)
    {
      ghost var g := View();
      sched := sched[r := (if r in sched then sched[r] else []) + [d]];
      assert View().sched == Later(g, r - round, d).sched;
    }

    /** `single` around a transaction with the next note. */
    method Single(tx: Txn, signer: Addr) returns (p: Planned)
      modifies this`noteCtr
      ensures (View(), p) == Emit(old(View()), tx, signer)
    {
      noteCtr := noteCtr + 1;
      p := Planned([Signed(tx, signer, noteCtr)], NoCommit);
    }

    /** `authOf`. */
    function Auth(i: nat): Addr
      requires i < |accts|
      reads this
    {
      match accts[i].auth
      case None => Account(i)
      case Some(a) => a
    }

    /** Book a transfer of asset A. */
    method MoveUnits(x: nat, y: nat, amt: nat)
      requires Valid() && x < |accts| && y < |accts|
      modifies this`accts
      ensures Valid() && |accts| == |old(accts)|
      ensures View() == old(View()).(accts := var a := SetBal(old(accts), x, Sub64(old(accts)[x].balA, amt));
                                              SetBal(a, y, Add64(a[y].balA, amt)))
    {
      hide Sub64, Add64, Owned, Future;
      accts := SetBal(accts, x, Sub64(accts[x].balA, amt));
      accts := SetBal(accts, y, Add64(accts[y].balA, amt));
    }

    /** Book a unit that the main application pays out. */
    method CreditInner(x: nat)
      requires Valid() && x < |accts|
      modifies this`accts, this`inners
      ensures Valid() && |accts| == |old(accts)|
      ensures View() == old(View()).(accts := SetBal(old(accts), x, Add64(old(accts)[x].balA, 1)),
          inners := old(inners) + 1)
    {
      hide Add64, Owned, Future;
      accts := SetBal(accts, x, Add64(accts[x].balA, 1));
      inners := inners + 1;
    }

    /** Reserve a frozen account for two rounds. */
    method RecordFreeze(x: nat)
      requires Valid() && x < |accts|
      modifies this`accts, this`frozen
      ensures Valid() && |accts| == |old(accts)|
      ensures View() == old(View()).(accts := old(accts)[x := old(accts)[x].(reserved := round + 2)],
          frozen := old(frozen) + {x})
    {
      hide Owned, Future;
      accts := accts[x := accts[x].(reserved := round + 2)];
      frozen := frozen + {x};
    }

    /** Reserve a rekeyed account until it is rekeyed back, with a payment in between. */
    method RecordRekey(x: nat, y: nat)
      requires Valid() && x < |accts|
      modifies this`accts, this`sched
      ensures Valid() && |accts| == |old(accts)|
      ensures var z := old(accts)[x].(reserved := round + 3, auth := Some(Account(y)));
        View() == Later(Later(old(View()).(accts := old(accts)[x := z]), 1, RekeyedPay(x)), 3, RekeyBack(x))
    {
      hide Owned, Future, Later;
      accts := accts[x := accts[x].(reserved := round + 3, auth := Some(Account(y)))];
      At(round + 1, RekeyedPay(x));
      At(round + 3, RekeyBack(x));
    }

    /** Swap-remove box i. */
    method TakeBox(i: nat) returns (name: nat)
      requires Valid() && i < |boxes|
      modifies this`boxes
      ensures Valid() && name == old(boxes)[i]
      ensures View() == old(View()).(boxes := old(boxes)[i := old(boxes)[|old(boxes)| - 1]][..|old(boxes)| - 1])
    {
      hide Owned, Future;
      name := boxes[i];
      boxes := boxes[i := boxes[|boxes| - 1]];
      boxes := boxes[..|boxes| - 1];
    }

    /** A fresh key for an ephemeral account opened by f. */
    method NewEphemeral(f: nat) returns (e: nat)
      requires Valid()
      modifies this`ephCtr, this`keys, this`known, this`eph
      ensures Valid() && e == |old(eph)|
      ensures View() == old(View()).(eph := old(eph) + [Eph(round, f, Opened)], known := old(known) + [Ephemeral(e)])
    {
      hide Future;
      e := ephCtr;
      ephCtr := ephCtr + 1;
      keys := keys + {Ephemeral(e)};
      known := known + [Ephemeral(e)];
      eph := eph + [Eph(round, f, Opened)];
    }

    /** The later steps of an ephemeral account: opt in, receive, close the holding, close. */
    method ScheduleClosing(e: nat, f: nat)
      requires Valid()
      modifies this`sched
      ensures Valid()
      ensures View() == Later(Later(Later(Later(old(View()), 1, EphOptIn(e)), 2, EphGrant(e)), 3, EphCloseAsset(e)),
                              3, EphClosePay(e, f))
    {
      hide Later;
      At(round + 1, EphOptIn(e));
      At(round + 2, EphGrant(e));
      At(round + 3, EphCloseAsset(e));
      At(round + 3, EphClosePay(e, f));
    }

    /** The place for the id of a throwaway app or asset, still unknown. */
    method NewThrowaway(x: nat, ghost isApp: bool) returns (t: nat)
      requires Valid()
      modifies this`throwIds, this`throwBy, this`throws, this`nextId
      ensures Valid() && t == |old(throws)| && View() == NewThrow(old(View()), x, isApp)
    {
      hide Future, Owned;
      t := |throwIds|;
      throwIds, throwBy := throwIds + [0], throwBy + [x];
      throws, nextId := throws + [Throw(x, isApp, round, 0, nextId + 1, false)], nextId + 1;
    }

    /** Call, update and delete of a throwaway app. */
    method ScheduleApp(t: nat)
      requires Valid()
      modifies this`sched
      ensures Valid()
      ensures View() == Later(Later(Later(old(View()), 2, AppStep(t, NoOp)), 4, AppStep(t, Update)), 6,
          AppStep(t, Delete))
    {
      hide Later;
      At(round + 2, AppStep(t, NoOp));
      At(round + 4, AppStep(t, Update));
      At(round + 6, AppStep(t, Delete));
    }

    /** Reconfiguration and destruction of a throwaway asset. */
    method ScheduleAsset(t: nat)
      requires Valid()
      modifies this`sched
      ensures Valid()
      ensures View() == Later(Later(old(View()), 3, AssetReconfig(t)), 6, AssetDestroyStep(t))
    {
      hide Later;
      At(round + 3, AssetReconfig(t));
      At(round + 6, AssetDestroyStep(t));
    }

    // ---- regular actions ---------------------------------------------------------------------

    method ActPay() returns (p: Option<Planned>)
      requires Valid()
      modifies this
      ensures Valid() && Drawn(View(), p, pos) == DrawPay(old(View()), tape, old(pos))
    {
      hide Future, Owned, Picks, PicksTwo;
      ghost var g := View();
      var ab := PickTwo(Anyone, Anyone);
      if ab.None? {
        return None;
      }
      var (x, y) := ab.value;
      var _ := IntN(100_000);   // the amount, in microAlgos
      var q := Single(Plain(Account(x), Account(y)), Auth(x));
      p := Some(q);
    }

    method ActAxfer() returns (p: Option<Planned>)
      requires Valid()
      modifies this
      ensures Valid() && Drawn(View(), p, pos) == DrawAxfer(old(View()), tape, old(pos))
    {
      hide AfterPick, Sub64, Add64, Future, Owned, Picks, PicksTwo;
      ghost var g := View();
      var ab := PickTwo(Spender, Holder);
      if ab.None? {
        return None;
      }
      var (x, y) := ab.value;
      var k := IntN(MostUnits(accts[x]));
      var amt := 1 + k;
      MoveUnits(x, y, amt);
      var q := Single(Transfer(Account(x), assetA, amt, Account(y)), Auth(x));
      p := Some(q);
    }

    method ActClawback() returns (p: Option<Planned>)
      requires Valid()
      modifies this
      ensures Valid() && Drawn(View(), p, pos) == DrawClawback(old(View()), tape, old(pos))
    {
      hide Future, Owned, Picks, PicksTwo;
      ghost var g := View();
      var ab := PickTwo(Giver, Holder);
      if ab.None? {
        return None;
      }
      var (x, y) := ab.value;
      MoveUnits(x, y, 1);
      var q := Single(Axfer(Account(0), assetA, 1, Account(y), Some(Account(x)), None), Account(0));
      p := Some(q);
    }

    method ActAssetOptIn() returns (p: Option<Planned>)
      requires Valid()
      modifies this
      ensures Valid() && Drawn(View(), p, pos) == DrawAssetOptIn(old(View()), tape, old(pos))
    {
      hide Later, Future, Owned, Picks, PicksTwo;
      ghost var g := View();
      var a := Pick(Outsider);
      if a.None? {
        return None;
      }
      var x := a.value;
      accts := accts[x := accts[x].(optA := true, reserved := round + 1)];
      At(round + 1, Grant(x));
      var q := Single(Transfer(Account(x), assetA, 0, Account(x)), Auth(x));
      p := Some(q);
    }

    method ActInc() returns (p: Option<Planned>)
      requires Valid()
      modifies this
      ensures Valid() && Drawn(View(), p, pos) == DrawInc(old(View()), tape, old(pos))
    {
      hide Future, Owned, Picks, PicksTwo;
      ghost var g := View();
      var a := Pick(AppUser);
      if a.None? {
        return None;
      }
      var x := a.value;
      var q := Single(AppCall(Account(x), mainApp, NoOp, Inc), Auth(x));
      p := Some(q);
    }

    method ActAppOptIn() returns (p: Option<Planned>)
      requires Valid()
      modifies this
      ensures Valid() && Drawn(View(), p, pos) == DrawAppOpt(old(View()), tape, old(pos), OptIn)
    {
      hide Future, Owned, Picks, PicksTwo;
      ghost var g := View();
      var a := Pick(NonUser);
      if a.None? {
        return None;
      }
      var x := a.value;
      accts := accts[x := accts[x].(optApp := true)];
      var q := Single(AppCall(Account(x), mainApp, OptIn, Bare), Auth(x));
      p := Some(q);
    }

    method ActAppCloseOut() returns (p: Option<Planned>)
      requires Valid()
      modifies this
      ensures Valid() && Drawn(View(), p, pos) == DrawAppOpt(old(View()), tape, old(pos), CloseOut)
    {
      hide Future, Owned, Picks, PicksTwo;
      ghost var g := View();
      var a := Pick(AppUser);
      if a.None? {
        return None;
      }
      var x := a.value;
      accts := accts[x := accts[x].(optApp := false)];
      var q := Single(AppCall(Account(x), mainApp, CloseOut, Bare), Auth(x));
      p := Some(q);
    }

    method ActAppClear() returns (p: Option<Planned>)
      requires Valid()
      modifies this
      ensures Valid() && Drawn(View(), p, pos) == DrawAppOpt(old(View()), tape, old(pos), ClearState)
    {
      hide Future, Owned, Picks, PicksTwo;
      ghost var g := View();
      var a := Pick(AppUser);
      if a.None? {
        return None;
      }
      var x := a.value;
      accts := accts[x := accts[x].(optApp := false)];
      var q := Single(AppCall(Account(x), mainApp, ClearState, Bare), Auth(x));
      p := Some(q);
    }

    method ActBoxPut() returns (p: Option<Planned>)
      requires Valid()
      modifies this
      ensures Valid() && Drawn(View(), p, pos) == DrawBoxPut(old(View()), tape, old(pos))
    {
      hide Future, Owned, Picks, PicksTwo;
      ghost var g := View();
      var a := Pick(Anyone);
      if a.None? {
        return None;
      }
      var x := a.value;
      boxCtr := boxCtr + 1;
      pos := pos + BOX_BYTES;   // the box's contents
      boxes := boxes + [boxCtr];
      var q := Single(AppCall(Account(x), mainApp, NoOp, BoxPut(boxCtr)), Auth(x));
      p := Some(q);
    }

    method ActBoxDel() returns (p: Option<Planned>)
      requires Valid()
      modifies this
      ensures Valid() && Drawn(View(), p, pos) == DrawBoxDel(old(View()), tape, old(pos))
    {
      hide Future, Owned, Picks, PicksTwo;
      ghost var g := View();
      if |boxes| == 0 {
        return None;
      }
      var a := Pick(Anyone);
      if a.None? {
        return None;
      }
      var x := a.value;
      var i := IntN(|boxes|);
      var name := TakeBox(i);
      var q := Single(AppCall(Account(x), mainApp, NoOp, BoxDel(name)), Auth(x));
      p := Some(q);
    }

    method ActInner() returns (p: Option<Planned>)
      requires Valid()
      modifies this
      ensures Valid() && Drawn(View(), p, pos) == DrawInner(old(View()), tape, old(pos))
    {
      hide Future, Owned, Picks, PicksTwo;
      ghost var g := View();
      var a := Pick(Holder);
      if a.None? {
        return None;
      }
      var x := a.value;
      CreditInner(x);
      var q := Single(AppCall(Account(x), mainApp, NoOp, Inner(assetA, calleeApp)), Auth(x));
      p := Some(q);
    }

    method ActFreeze() returns (p: Option<Planned>)
      requires Valid()
      modifies this
      ensures Valid() && Drawn(View(), p, pos) == DrawFreeze(old(View()), tape, old(pos))
    {
      hide Later, Future, Owned, Picks, PicksTwo;
      ghost var g := View();
      var a := Pick(Holder);
      if a.None? {
        return None;
      }
      var x := a.value;
      RecordFreeze(x);
      At(round + 2, Unfreeze(x));
      var q := Single(Freeze(Account(0), Account(x), assetA, true), Account(0));
      p := Some(q);
    }

    method ActRekey() returns (p: Option<Planned>)
      requires Valid()
      modifies this
      ensures Valid() && Drawn(View(), p, pos) == DrawRekey(old(View()), tape, old(pos))
    {
      hide AfterPick, Later, Future, Owned, Picks, PicksTwo;
      ghost var g := View();
      var ab := PickTwo(OwnKey, Anyone);
      if ab.None? {
        return None;
      }
      var (x, y) := ab.value;
      var signer := Auth(x);
      RecordRekey(x, y);
      var q := Single(Pay(Account(x), Account(x), Some(Account(y)), None), signer);
      p := Some(q);
    }

    method ActCloseOut() returns (p: Option<Planned>)
      requires Valid()
      modifies this
      ensures Valid() && Drawn(View(), p, pos) == DrawCloseOut(old(View()), tape, old(pos))
    {
      hide Later, Owned, Future, Picks, PicksTwo;
      ghost var g := View();
      var a := Pick(Anyone);
      if a.None? {
        return None;
      }
      var x := a.value;
      var e := NewEphemeral(x);
      ScheduleClosing(e, x);
      var q := Single(Plain(Account(x), Ephemeral(e)), Auth(x));
      p := Some(q);
    }

    method ActKeyreg() returns (p: Option<Planned>)
      requires Valid()
      modifies this
      ensures Valid() && Drawn(View(), p, pos) == DrawKeyreg(old(View()), tape, old(pos))
    {
      hide Later, Future, Owned, Picks, PicksTwo;
      ghost var g := View();
      var a := Pick(Offline);
      if a.None? {
        return None;
      }
      var x := a.value;
      accts := accts[x := accts[x].(reserved := round + 20, online := true)];
      At(round + 20, GoOffline(x));
      var q := Single(Keyreg(Account(x), true), Auth(x));
      p := Some(q);
    }

    method ActAppLifecycle() returns (p: Option<Planned>)
      requires Valid()
      modifies this
      ensures Valid() && Drawn(View(), p, pos) == DrawAppLifecycle(old(View()), tape, old(pos))
    {
      hide Later, NewThrow, Owned, Future, Picks, PicksTwo;
      ghost var g := View();
      var a := Pick(Anyone);
      if a.None? {
        return None;
      }
      var x := a.value;
      var t := NewThrowaway(x, true);
      ScheduleApp(t);
      var q := Single(AppCreate(Account(x), CalleeProgram), Auth(x));
      q := q.(onCommit := SetThrow(t));
      p := Some(q);
    }

    method ActAssetLifecycle() returns (p: Option<Planned>)
      requires Valid()
      modifies this
      ensures Valid() && Drawn(View(), p, pos) == DrawAssetLifecycle(old(View()), tape, old(pos))
    {
      hide Later, NewThrow, Owned, Future, Picks, PicksTwo;
      ghost var g := View();
      var a := Pick(Anyone);
      if a.None? {
        return None;
      }
      var x := a.value;
      var t := NewThrowaway(x, false);
      ScheduleAsset(t);
      var q := Single(AssetCreate(Account(x), 1000), Auth(x));
      q := q.(onCommit := SetThrow(t));
      p := Some(q);
    }

    /** An atomic group of up to five payments, transfers and calls. */
    method ActGroup() returns (p: Option<Planned>)
      requires Valid()
      modifies this
      ensures Valid() && Drawn(View(), p, pos) == DrawGroup(old(View()), tape, old(pos))
    {
      hide Future, Owned, DrawMembers, DrawMember, Join;
      ghost var g := View();
      var k := IntN(4);
      var size := 2 + k;
      var try := 0;
      p := None;
      while (p.Some? ==> |p.value.txns| < size) && try < 2 * size
        invariant Valid() && try <= 2 * size
        invariant DrawGroup(g, tape, old(pos)) == DrawMembers(View(), tape, pos, size, 2 * size - try, p)
        decreases 2 * size - try
      {
        MembersNext(View(), tape, pos, size, 2 * size - try, p);
        var q := ActMember();
        p := Join(p, q);
        try := try + 1;
      }
      MembersDone(View(), tape, pos, size, 2 * size - try, p);
    }

    /** One member of a group. */
    method ActMember() returns (p: Option<Planned>)
      requires Valid()
      modifies this
      ensures Valid() && Drawn(View(), p, pos) == DrawMember(old(View()), tape, old(pos))
    {
      hide Future, Owned, DrawPay, DrawAxfer, DrawInc;
      var k := IntN(3);
      if k == 0 {
        p := ActPay();
      } else if k == 1 {
        p := ActAxfer();
      } else {
        p := ActInc();
      }
    }

    /** The action with the given place in the table. */
    method Plan(k: nat) returns (p: Option<Planned>)
      requires Valid()
      modifies this
      ensures Valid() && Drawn(View(), p, pos) == DrawAction(k, old(View()), tape, old(pos))
    {
      hide Owned, Future, DrawPay, DrawAxfer, DrawClawback, DrawAssetOptIn, DrawInc, DrawAppOpt, DrawBoxPut, DrawBoxDel;
      hide DrawInner, DrawGroup, DrawFreeze, DrawRekey, DrawCloseOut, DrawKeyreg, DrawAppLifecycle, DrawAssetLifecycle;
      match k {
        case 0 => p := ActPay();
        case 1 => p := ActAxfer();
        case 2 => p := ActClawback();
        case 3 => p := ActAssetOptIn();
        case 4 => p := ActInc();
        case 5 => p := ActAppOptIn();
        case 6 => p := ActAppCloseOut();
        case 7 => p := ActAppClear();
        case 8 => p := ActBoxPut();
        case 9 => p := ActBoxDel();
        case 10 => p := ActInner();
        case 11 => p := ActGroup();
        case 12 => p := ActFreeze();
        case 13 => p := ActRekey();
        case 14 => p := ActCloseOut();
        case 15 => p := ActKeyreg();
        case 16 => p := ActAppLifecycle();
        case _ => p := ActAssetLifecycle();
      }
    }

    // ---- deferred steps ----------------------------------------------------------------------

    /** The admin sends a newly opted-in account its units. */
    method RunGrant(x: nat) returns (p: Planned)
      requires Valid() && StepInRange(View(), Grant(x))
      modifies this
      ensures Valid() && pos == old(pos) && (View(), p) == DoStep(old(View()), Grant(x))
    {
      hide Sub64, Add64, Owned, Future;
      MoveUnits(0, x, OPT_IN_GRANT);
      granted := granted + {x};
      p := Single(Transfer(Account(0), assetA, OPT_IN_GRANT, Account(x)), Account(0));
    }

    /** The admin lifts a freeze. */
    method RunUnfreeze(x: nat) returns (p: Planned)
      requires Valid() && StepInRange(View(), Unfreeze(x))
      modifies this
      ensures Valid() && pos == old(pos) && (View(), p) == DoStep(old(View()), Unfreeze(x))
    {
      hide Sub64, Add64, Owned, Future;
      busy := busy + {x};
      frozen := frozen - {x};
      p := Single(Freeze(Account(0), Account(x), assetA, false), Account(0));
    }

    /** A payment signed with the other account's key. */
    method RunRekeyedPay(x: nat) returns (p: Planned)
      requires Valid() && StepInRange(View(), RekeyedPay(x))
      modifies this
      ensures Valid() && pos == old(pos) && (View(), p) == DoStep(old(View()), RekeyedPay(x))
    {
      hide Sub64, Add64, Owned, Future;
      busy := busy + {x};
      p := Single(Plain(Account(x), Account(0)), Auth(x));
    }

    /** The account takes its own key back. */
    method RunRekeyBack(x: nat) returns (p: Planned)
      requires Valid() && StepInRange(View(), RekeyBack(x))
      modifies this
      ensures Valid() && pos == old(pos) && (View(), p) == DoStep(old(View()), RekeyBack(x))
    {
      hide Sub64, Add64, Owned, Future;
      busy := busy + {x};
      var signer := Auth(x);
      accts := accts[x := accts[x].(auth := None)];
      p := Single(Pay(Account(x), Account(x), Some(Account(x)), None), signer);
    }

    /** The account leaves consensus. */
    method RunGoOffline(x: nat) returns (p: Planned)
      requires Valid() && StepInRange(View(), GoOffline(x))
      modifies this
      ensures Valid() && pos == old(pos) && (View(), p) == DoStep(old(View()), GoOffline(x))
    {
      hide Sub64, Add64, Owned, Future;
      busy := busy + {x};
      accts := accts[x := accts[x].(online := false)];
      p := Single(Keyreg(Account(x), false), Auth(x));
    }

    method RunEphemeralStep(d: Step) returns (p: Planned)
      requires Valid() && StepInRange(View(), d)
      requires d.EphOptIn? || d.EphGrant? || d.EphCloseAsset? || d.EphClosePay?
      modifies this
      ensures Valid() && pos == old(pos) && (View(), p) == DoStep(old(View()), d)
    {
      hide Sub64, Add64, Owned, Future;
      var e := Ephemeral(d.e);
      match d {
        case EphOptIn(_) =>
          eph := eph[d.e := eph[d.e].(phase := OptedIn)];
          p := Single(Transfer(e, assetA, 0, e), e);
        case EphGrant(_) =>
          accts := SetBal(accts, 0, Sub64(accts[0].balA, EPHEMERAL_UNITS));
          eph := eph[d.e := eph[d.e].(phase := Granted)];
          p := Single(Transfer(Account(0), assetA, EPHEMERAL_UNITS, e), Account(0));
        case EphCloseAsset(_) =>
          accts := SetBal(accts, 0, Add64(accts[0].balA, EPHEMERAL_UNITS));
          eph := eph[d.e := eph[d.e].(phase := AssetClosed)];
          p := Single(Axfer(e, assetA, 0, Account(0), None, Some(Account(0))), e);
        case EphClosePay(_, f) =>
          eph := eph[d.e := eph[d.e].(phase := Gone)];
          p := Single(Pay(e, Account(f), None, Some(Account(f))), e);
      }
    }

    /** A call, update or deletion of a throwaway app by its creator. */
    method RunAppStep(t: nat, oc: Completion) returns (p: Planned)
      requires Valid() && StepInRange(View(), AppStep(t, oc))
      modifies this
      ensures Valid() && pos == old(pos) && (View(), p) == DoStep(old(View()), AppStep(t, oc))
    {
      hide Sub64, Add64, Owned, Future;
      var x, id := throwBy[t], throwIds[t];
      busy := busy + {x};
      if oc == Delete {
        throws := throws[t := throws[t].(dead := true)];
      }
      p := Single(AppCall(Account(x), id, oc, Bare), Auth(x));
    }

    /** A throwaway asset is reconfigured. */
    method RunAssetReconfig(t: nat) returns (p: Planned)
      requires Valid() && StepInRange(View(), AssetReconfig(t))
      modifies this
      ensures Valid() && pos == old(pos) && (View(), p) == DoStep(old(View()), AssetReconfig(t))
    {
      hide Sub64, Add64, Owned, Future;
      var x, id := throwBy[t], throwIds[t];
      busy := busy + {x};
      p := Single(AssetConfig(Account(x), id, Account(x), Account(x), Account(x)), Auth(x));
    }

    /** A throwaway asset is destroyed. */
    method RunAssetDestroy(t: nat) returns (p: Planned)
      requires Valid() && StepInRange(View(), AssetDestroyStep(t))
      modifies this
      ensures Valid() && pos == old(pos) && (View(), p) == DoStep(old(View()), AssetDestroyStep(t))
    {
      hide Sub64, Add64, Owned, Future;
      var x, id := throwBy[t], throwIds[t];
      busy := busy + {x};
      throws := throws[t := throws[t].(dead := true)];
      p := Single(AssetDestroy(Account(x), id), Auth(x));
    }

    /** A deferred closure, by what it does. */
    method RunDeferred(d: Step) returns (p: Planned)
      requires Valid() && StepInRange(View(), d)
      modifies this
      ensures Valid() && pos == old(pos) && (View(), p) == DoStep(old(View()), d)
    {
      hide DoStep, Owned, Future;
      match d {
        case Grant(x) => p := RunGrant(x);
        case Unfreeze(x) => p := RunUnfreeze(x);
        case RekeyedPay(x) => p := RunRekeyedPay(x);
        case RekeyBack(x) => p := RunRekeyBack(x);
        case GoOffline(x) => p := RunGoOffline(x);
        case AppStep(t, oc) => p := RunAppStep(t, oc);
        case AssetReconfig(t) => p := RunAssetReconfig(t);
        case AssetDestroyStep(t) => p := RunAssetDestroy(t);
        case _ => p := RunEphemeralStep(d);
      }
    }

    // ---- rounds ------------------------------------------------------------------------------

    /** The first loop of `planRound`: the steps scheduled for this round, in their order. */
    method RunScheduled(steps: seq<Step>) returns (groups: seq<Planned>, count: nat)
      requires Valid() && InRange(View()) && todo == steps
      modifies this
      ensures Valid() && InRange(View()) && todo == [] && count == |Flatten(groups)|
      ensures Runs(old(View()), groups, View()) && pos == old(pos)
    {
      hide InRange, Owned, DoStep, Flatten, Future, Runs;
      ghost var g0 := View();
      groups, count := [], 0;
      RunsNone(g0);
      FlattenNone();
      for i := 0 to |steps|
        invariant Valid() && InRange(View()) && todo == steps[i..] && count == |Flatten(groups)|
        invariant Runs(g0, groups, View()) && pos == old(pos)
      {
        StepRange(View());
        RunsNext(g0, groups, View());
        todo := todo[1..];
        var p := RunDeferred(steps[i]);
        FlattenAppend(groups, p);
        groups, count := groups + [p], count + |p.txns|;
      }
    }

    /** The second loop of `planRound`: random actions until the round is full or 64 have missed. */
    method FillRound(groups0: seq<Planned>, count0: nat) returns (groups: seq<Planned>, misses: nat)
      requires Valid() && InRange(View()) && count0 == |Flatten(groups0)|
      modifies this
      ensures Valid() && InRange(View()) && todo == old(todo)
      ensures |Flatten(groups)| >= txnsPerRound || misses == MAX_MISSES
      ensures Fills(Fill(old(View()), old(pos), groups0, 0), tape, txnsPerRound, Fill(View(), pos, groups, misses))
    {
      hide InRange, Owned, Flatten, SumTo, Future, DrawAction, Chosen, FillN;
      var total := Total(WEIGHTS);
      assert total == 95 by { TotalWeight(); }
      var count := count0;
      groups, misses := groups0, 0;
      ghost var f0, n := Fill(View(), pos, groups, 0), 0;
      FillStart(f0, tape);
      while count < txnsPerRound && misses < MAX_MISSES
        invariant Valid() && InRange(View()) && todo == old(todo) && misses <= MAX_MISSES && count == |Flatten(groups)|
        invariant Fill(View(), pos, groups, misses) == FillN(f0, tape, n)
        invariant forall m: nat | m < n :: !Full(FillN(f0, tape, m), txnsPerRound)
        decreases txnsPerRound - count, MAX_MISSES - misses
      {
        FillNext(f0, tape, n);
        n := n + 1;
        var r := IntN(total);
        var k := Choose(WEIGHTS, r);
        DrawRange(k, View(), tape, pos);
        DrawnSome(k, View(), tape, pos);
        var p := Plan(k);
        if p.None? {
          misses := misses + 1;
          continue;
        }
        FlattenAppend(groups, p.value);
        groups, count := groups + [p.value], count + |p.value.txns|;
      }
    }

    /** The turn of the round: no account is busy yet, and the steps scheduled for it come up. */
    method StartRound(r: nat) returns (steps: seq<Step>)
      requires Valid() && r == round + 1
      modifies this`round, this`busy, this`todo
      ensures Valid() && View() == BeginRound(old(View())) && todo == steps
    {
      ghost var g := View();
      round, busy := r, {};
      steps := if r in sched then sched[r] else [];
      todo := steps;
      assert Future(sched, r) == g.sched - {r};
    }

    method DropScheduled()
      modifies this`sched
      ensures View() == old(View())
    {
      ghost var before := sched;
      sched := sched - {round};
      assert Future(sched, round) == Future(before, round);
    }

    /** A round is never left empty. */
    method FillEmpty(groups0: seq<Planned>) returns (groups: seq<Planned>)
      requires Valid() && InRange(View())
      modifies this
      ensures Valid() && InRange(View()) && todo == old(todo) && groups != [] && pos == old(pos)
      ensures forall m: nat :: Fill(View(), pos, groups, m) == Ended(Fill(old(View()), pos, groups0, m))
    {
      hide Owned, Future, InRange;
      groups := groups0;
      if groups == [] {
        NoteRange(View());
        var p := Single(Plain(Account(0), Account(0)), Account(0));
        groups := groups + [p];
      }
    }

    /** `planRound` for a round after setup. */
    method PlanRound(r: nat) returns (groups: seq<Planned>, misses: nat)
      requires Valid() && InRange(View()) && todo == [] && r == round + 1
      modifies this
      ensures Valid() && InRange(View()) && todo == [] && groups != []
      ensures PlansRound(old(View()), tape, old(pos), txnsPerRound, View(), pos, groups)
    {
      hide InRange, Owned, Flatten, BeginRound, Future, Runs, Fills, Ended;
      BeginRange(View());
      var steps := StartRound(r);
      var count;
      groups, count := RunScheduled(steps);
      DropScheduled();
      groups, misses := FillRound(groups, count);
      groups := FillEmpty(groups);
    }

    /** The setup closures that create asset A and the two applications. */
    method SetupCreate(k: nat) returns (p: Planned)
      requires Valid() && k < 3
      modifies this
      ensures Valid() && pos == old(pos) && (View(), p) == DoSetup(old(View()), k)
    {
      hide Owned, Future;
      if k == 0 {
        p := Single(AssetCreate(ADMIN, ASSET_A_TOTAL), ADMIN);
        p := p.(onCommit := SetAssetA);
        accts := accts[0 := accts[0].(optA := true, balA := ASSET_A_TOTAL)];
      } else if k == 1 {
        p := Single(AppCreate(ADMIN, MainProgram), ADMIN);
        p := p.(onCommit := SetMainApp);
      } else {
        p := Single(AppCreate(ADMIN, CalleeProgram), ADMIN);
        p := p.(onCommit := SetCalleeApp);
      }
      nextId := nextId + 1;
    }

    /** The setup closures that fund the main application. */
    method SetupFund(k: nat) returns (p: Planned)
      requires Valid() && 3 <= k < SETUP_ROUNDS
      modifies this
      ensures Valid() && pos == old(pos) && (View(), p) == DoSetup(old(View()), k)
    {
      hide Sub64, Owned, Future;
      if k == 3 {
        p := Single(Plain(ADMIN, AppAddr(mainApp)), ADMIN);
      } else if k == 4 {
        p := Single(AppCall(ADMIN, mainApp, NoOp, OptAsset(assetA)), ADMIN);
      } else {
        accts := SetBal(accts, 0, Sub64(accts[0].balA, APP_ASSET_FUND));
        p := Single(Transfer(ADMIN, assetA, APP_ASSET_FUND, AppAddr(mainApp)), ADMIN);
      }
    }

    /** `planRound` for setup round k + 1: its one closure. */
    method PlanSetup(k: nat) returns (p: Planned)
      requires Valid() && k < SETUP_ROUNDS && round == k
      modifies this
      ensures Valid() && pos == old(pos) && (View(), p) == DoSetup(BeginRound(old(View())), k)
    {
      hide BeginRound, DoSetup, Owned, Future;
      var _ := StartRound(k + 1);
      if k < 3 {
        p := SetupCreate(k);
      } else {
        p := SetupFund(k);
      }
    }

    /** A group's onCommit. */
    method Commit(c: Commit, id: nat)
      requires Valid()
      modifies this
      ensures Valid() && pos == old(pos) && View() == OnCommit(old(View()), c, id)
    {
      hide Owned, Future;
      match c {
        case NoCommit =>
        case SetAssetA => assetA := id;
        case SetMainApp =>
          mainApp := id;
          known := known + [AppAddr(id)];
        case SetCalleeApp =>
          calleeApp := id;
          known := known + [AppAddr(id)];
        case SetThrow(t) =>
          if t < |throwIds| {
            StoreId(t, id);
          }
      }
    }

    /** The id of a throwaway has become known. */
    method StoreId(t: nat, id: nat)
      requires Valid() && t < |throwIds|
      modifies this`throwIds, this`throws
      ensures Valid() && View() == old(View()).(throws := old(throws)[t := old(throws)[t].(id := id)])
    {
      hide Owned, Future;
      throwIds := throwIds[t := id];
      throws := throws[t := throws[t].(id := id)];
    }

    /** Hand each group the ApplyData at its offset in the payset. */
    method HandOut(groups: seq<Planned>, ads: seq<nat>)
      requires Valid() && |ads| == |Flatten(groups)| && forall p | p in groups :: p.txns != []
      modifies this
      ensures Valid() && pos == old(pos) && View() == CommitAll(old(View()), groups, ads)
    {
      hide Valid, OnCommit, Future, Owned;
      ghost var g := View();
      var off := 0;
      for i := 0 to |groups|
        invariant Valid() && pos == old(pos) && off + |Flatten(groups[i..])| == |ads|
        invariant CommitAll(g, groups, ads) == CommitAll(View(), groups[i..], ads[off..])
      {
        var k := |groups[i].txns|;
        assert groups[i..][0] == groups[i] && groups[i..][1..] == groups[i + 1..];
        assert ads[off..][k..] == ads[off + k..];
        Commit(groups[i].onCommit, ads[off]);
        off := off + k;
      }
    }

    /** `sign`: an error when a key is missing; AuthAddr is set exactly when the signer is not the
        sender, and only groups of two or more carry a group id. */
    method Sign(p: Planned) returns (r: Option<seq<Wire>>)
      requires Valid()
      ensures r.Some? <==> forall t | t in p.txns :: HasKey(View(), t.signer)
      ensures r.Some? ==> |r.value| == |p.txns|
      ensures r.Some? ==> forall i | 0 <= i < |p.txns| :: SignedAs(r.value[i], p.txns[i], |p.txns| > 1)
    {
      var out := [];
      for i := 0 to |p.txns|
        invariant |out| == i && forall j | 0 <= j < i :: HasKey(View(), p.txns[j].signer)
        invariant forall j | 0 <= j < i :: SignedAs(out[j], p.txns[j], |p.txns| > 1)
      {
        var t := p.txns[i];
        if t.signer !in keys {
          assert !HasKey(View(), t.signer);
          return None;
        }
        var authAddr := if t.signer != t.tx.sender then Some(t.signer) else None;
        out := out + [Wire(t.tx, t.note, t.signer, authAddr, |p.txns| > 1)];
      }
      return Some(out);
    }
  }
}

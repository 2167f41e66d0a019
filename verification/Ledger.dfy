/** The part of the Algorand ledger that decides whether a planned transaction is valid: accounts
    and their signing authority, asset holdings, applications, boxes and participation. Algo
    amounts, fees and minimum balances are abstracted away. */
module Ledger {
  import opened Optional

  /** Addresses are derived from distinct seeds (or application ids), so they never collide. */
  datatype Addr =
    | RewardsPool
    | FeeSink
    | Validator(i: nat)
    | Account(i: nat)
    | Ephemeral(n: nat)
    | AppAddr(id: nat)

  datatype Holding = Holding(amt: nat, frozen: bool)

  datatype Asset = Asset(creator: Addr, total: nat, manager: Addr, freeze: Addr, clawback: Addr)

  /** The two approval programs the generator deploys. */
  datatype Program = MainProgram | CalleeProgram

  datatype App = App(creator: Addr, program: Program)

  datatype Completion = NoOp | OptIn | CloseOut | ClearState | Update | Delete

  datatype Call =
    | Bare
    | Inc
    | BoxPut(name: nat)
    | BoxDel(name: nat)
    | Inner(asset: nat, callee: nat)
    | OptAsset(asset: nat)

  datatype Txn =
    | Pay(sender: Addr, receiver: Addr, rekeyTo: Option<Addr>, closeTo: Option<Addr>)
    | Axfer(sender: Addr, asset: nat, amount: nat, receiver: Addr, source: Option<Addr>, closeTo: Option<Addr>)
    | Freeze(sender: Addr, target: Addr, asset: nat, frozen: bool)
    | AssetCreate(sender: Addr, total: nat)
    | AssetConfig(sender: Addr, asset: nat, manager: Addr, freeze: Addr, clawback: Addr)
    | AssetDestroy(sender: Addr, asset: nat)
    | AppCreate(sender: Addr, program: Program)
    | AppCall(sender: Addr, app: nat, oc: Completion, call: Call)
    | Keyreg(sender: Addr, online: bool)

  /** A transaction with the address whose key signed it and its unique note. */
  datatype Signed = Signed(tx: Txn, signer: Addr, note: nat)

  datatype State = State(
    live: set<Addr>,                       // accounts that exist
    auth: map<Addr, Addr>,                 // accounts rekeyed to another key
    hold: map<(Addr, nat), Holding>,       // asset holdings
    assets: map<nat, Asset>,
    apps: map<nat, App>,
    local: set<(Addr, nat)>,               // application opt-ins
    boxes: set<nat>,                       // the main application's boxes
    online: set<Addr>,
    nextId: nat,                           // ids handed out so far
    notes: set<nat>)                       // transactions already in the ledger

  function AuthOf(s: State, a: Addr): Addr {
    if a in s.auth then s.auth[a] else a
  }

  predicate OwnsNothing(s: State, a: Addr) {
    && (forall k | k in s.hold :: k.0 != a)
    && (forall k | k in s.local :: k.0 != a)
    && (forall id | id in s.assets :: s.assets[id].creator != a)
    && (forall id | id in s.apps :: s.apps[id].creator != a)
  }

  function ApplyPay(s: State, t: Txn): Option<State>
    requires t.Pay?
  {
    var s1 := s.(live := s.live + {t.receiver});
    var s2 := match t.rekeyTo
              case None => s1
              case Some(a) => s1.(auth := if a == t.sender then s1.auth - {t.sender} else s1.auth[t.sender := a]);
    match t.closeTo
    case None => Some(s2)
    case Some(c) =>
      if OwnsNothing(s2, t.sender) && c != t.sender
      then Some(s2.(live := s2.live - {t.sender} + {c}, auth := s2.auth - {t.sender}))
      else None
  }

  /** Moving units of one asset; zero units move without any check. */
  function Move(s: State, id: nat, from: Addr, to: Addr, amt: nat, bypassFreeze: bool): Option<State> {
    if amt == 0 then Some(s)
    else if (from, id) !in s.hold || (to, id) !in s.hold then None
    else
      var a, b := s.hold[(from, id)], s.hold[(to, id)];
      if amt > a.amt || (!bypassFreeze && (a.frozen || b.frozen)) then None
      else if from == to then Some(s)
      else Some(s.(hold := s.hold[(from, id) := a.(amt := a.amt - amt)][(to, id) := b.(amt := b.amt + amt)]))
  }

  function ApplyAxfer(s: State, t: Txn): Option<State>
    requires t.Axfer?
  {
    if t.asset !in s.assets then None
    else
      match t.source
      case Some(from) =>
        if t.sender != s.assets[t.asset].clawback || t.closeTo.Some? then None
        else Move(s, t.asset, from, t.receiver, t.amount, true)
      case None =>
        if t.amount == 0 && t.receiver == t.sender && (t.sender, t.asset) !in s.hold && t.closeTo.None? then
          Some(s.(hold := s.hold[(t.sender, t.asset) := Holding(0, false)]))
        else
          match Move(s, t.asset, t.sender, t.receiver, t.amount, false)
          case None => None
          case Some(s1) =>
            match t.closeTo
            case None => Some(s1)
            case Some(c) => CloseHolding(s1, t.asset, t.sender, c)
  }

  function CloseHolding(s: State, id: nat, from: Addr, to: Addr): Option<State>
    requires id in s.assets
  {
    if (from, id) !in s.hold || s.assets[id].creator == from || from == to then None
    else
      match Move(s, id, from, to, s.hold[(from, id)].amt, to == s.assets[id].creator)
      case None => None
      case Some(s1) => Some(s1.(hold := s1.hold - {(from, id)}))
  }

  function ApplyCall(s: State, t: Txn): Option<State>
    requires t.AppCall?
  {
    if t.app !in s.apps then None
    else
      match s.apps[t.app].program
      case CalleeProgram =>
        if t.oc == Delete then Some(s.(apps := s.apps - {t.app}))
        else if t.oc == NoOp || t.oc == Update then Some(s)
        else None
      case MainProgram =>
        match t.oc
        case OptIn => if (t.sender, t.app) in s.local then None else Some(s.(local := s.local + {(t.sender, t.app)}))
        case CloseOut => if (t.sender, t.app) !in s.local then None
          else Some(s.(local := s.local - {(t.sender, t.app)}))
        case ClearState => if (t.sender, t.app) !in s.local then None
          else Some(s.(local := s.local - {(t.sender, t.app)}))
        case NoOp => ApplyMain(s, t)
        case _ => None
  }

  /** The main program's methods. */
  function ApplyMain(s: State, t: Txn): Option<State>
    requires t.AppCall?
  {
    match t.call
    case Inc => if (t.sender, t.app) in s.local then Some(s) else None
    case BoxPut(name) => Some(s.(boxes := s.boxes + {name}))
    case BoxDel(name) => if name in s.boxes then Some(s.(boxes := s.boxes - {name})) else None
    case Inner(asset, callee) =>
      if AppAddr(t.app) !in s.live || callee !in s.apps || s.apps[callee].program != CalleeProgram then None
      else Move(s, asset, AppAddr(t.app), t.sender, 1, false)
    case OptAsset(asset) =>
      if AppAddr(t.app) !in s.live || asset !in s.assets then None
      else if (AppAddr(t.app), asset) in s.hold then Some(s)
      else Some(s.(hold := s.hold[(AppAddr(t.app), asset) := Holding(0, false)]))
    case Bare => None
  }

  function ApplyAsset(s: State, t: Txn): Option<State>
    requires t.Freeze? || t.AssetCreate? || t.AssetConfig? || t.AssetDestroy?
  {
    match t
    case Freeze(snd, target, id, frozen) =>
      if id !in s.assets || s.assets[id].freeze != snd || (target, id) !in s.hold then None
      else Some(s.(hold := s.hold[(target, id) := s.hold[(target, id)].(frozen := frozen)]))
    case AssetCreate(snd, total) =>
      var id := s.nextId + 1;
      Some(s.(nextId := id, assets := s.assets[id := Asset(snd, total, snd, snd, snd)],
              hold := s.hold[(snd, id) := Holding(total, false)]))
    case AssetConfig(snd, id, manager, freeze, clawback) =>
      if id !in s.assets || s.assets[id].manager != snd then None
      else Some(s.(assets := s.assets[id := s.assets[id].(manager := manager, freeze := freeze, clawback := clawback)]))
    case AssetDestroy(snd, id) =>
      if id !in s.assets || s.assets[id].manager != snd then None
      else
        var a := s.assets[id];
        if (a.creator, id) !in s.hold || s.hold[(a.creator, id)].amt != a.total then None
        else Some(s.(assets := s.assets - {id}, hold := s.hold - {(a.creator, id)}))
  }

  function ApplyBody(s: State, t: Txn): Option<State> {
    match t
    case Pay(_, _, _, _) => ApplyPay(s, t)
    case Axfer(_, _, _, _, _, _) => ApplyAxfer(s, t)
    case AppCreate(snd, p) => Some(s.(nextId := s.nextId + 1, apps := s.apps[s.nextId + 1 := App(snd, p)]))
    case AppCall(_, _, _, _) => ApplyCall(s, t)
    case Keyreg(snd, on) => Some(s.(online := if on then s.online + {snd} else s.online - {snd}))
    case _ => ApplyAsset(s, t)
  }

  /** One transaction: the sender exists, the right key signed, and it is not a duplicate. */
  function Apply(s: State, t: Signed): Option<State> {
    if t.tx.sender !in s.live || AuthOf(s, t.tx.sender) != t.signer || t.note in s.notes then None
    else ApplyBody(s.(notes := s.notes + {t.note}), t.tx)
  }

  /** A group, or a whole payset, in order; it fails if any member fails. */
  function Exec(s: State, ts: seq<Signed>): Option<State>
    decreases |ts|
  {
    if ts == [] then Some(s)
    else
      match Apply(s, ts[0])
      case None => None
      case Some(s1) => Exec(s1, ts[1..])
  }

  /** The id a transaction creates (its ApplyData), 0 when it creates nothing. */
  function Created(s: State, t: Signed): nat {
    if t.tx.AssetCreate? || t.tx.AppCreate? then s.nextId + 1 else 0
  }

  /** The ApplyData of a payset, one entry per transaction. */
  function ApplyData(s: State, ts: seq<Signed>): (ads: seq<nat>)
    ensures |ads| == |ts|
    decreases |ts|
  {
    if ts == [] then []
    else
      [Created(s, ts[0])] +
      (match Apply(s, ts[0])
       case None => seq(|ts| - 1, _ => 0)
       case Some(s1) => ApplyData(s1, ts[1..]))
  }

  lemma {:induction false} ExecConcat(s: State, xs: seq<Signed>, ys: seq<Signed>)
    ensures Exec(s, xs + ys) == (match Exec(s, xs) case None => None case Some(s1) => Exec(s1, ys))
    decreases |xs|
  {
    hide Apply;
    if xs == [] {
      assert xs + ys == ys;
    } else {
      assert (xs + ys)[0] == xs[0] && (xs + ys)[1..] == xs[1..] + ys;
      if Apply(s, xs[0]).Some? { ExecConcat(Apply(s, xs[0]).value, xs[1..], ys); }
    }
  }

  lemma ExecOne(s: State, t: Signed)
    ensures Exec(s, [t]) == Apply(s, t)
  {
    hide Apply;
    assert [t][1..] == [];
  }
}

/** The catchup phase tracker of scripts/bench/catchup_lib.py. */
module PhaseTracking {
  import opened Optional

  datatype Stage = Idle | Ledger | Verify | Blocks | Done

  datatype Status = Status(
    catchpoint: string, totalAccounts: int, totalKvs: int, processedAccounts: int, processedKvs: int,
    verifiedAccounts: int, verifiedKvs: int, lastRound: int)

  /** One sample: when it was taken, what it said, and the age of the last block if that was known. */
  datatype Obs = Obs(t: real, status: Status, lag: Option<real>)

  /** `stage_of`. */
  function StageOf(s: Status): Stage {
    if s.catchpoint == "" then Idle
    else
      var total := s.totalAccounts + s.totalKvs;
      if total == 0 || s.processedAccounts + s.processedKvs < total then Ledger
      else if s.verifiedAccounts + s.verifiedKvs < total then Verify
      else Blocks
  }

  // ---- what a stream of samples amounts to ---------------------------------------------------------------

  function Last(obs: seq<Obs>): Obs
    requires obs != []
  {
    obs[|obs| - 1]
  }

  function Init(obs: seq<Obs>): seq<Obs>
    requires obs != []
  {
    obs[..|obs| - 1]
  }

  /** The first sighting of a stage. */
  function FirstAt(obs: seq<Obs>, st: Stage): Option<real> {
    if obs == [] then None
    else if FirstAt(Init(obs), st).Some? then FirstAt(Init(obs), st)
    else if StageOf(Last(obs).status) == st then Some(Last(obs).t)
    else None
  }

  function Seen(obs: seq<Obs>): bool {
    obs != [] && (Seen(Init(obs)) || StageOf(Last(obs).status) != Idle)
  }

  /** A cleared catchpoint counts as a finished catchup only with the label's round in place. */
  predicate Finished(goal: Option<int>, s: Status) {
    s.lastRound > 0 && (goal.None? || s.lastRound >= goal.value)
  }

  /** Where the first finishing sample after a catchpoint was seen. */
  function DoneAt(goal: Option<int>, obs: seq<Obs>): Option<Obs> {
    if obs == [] then None
    else if DoneAt(goal, Init(obs)).Some? then DoneAt(goal, Init(obs))
    else if Seen(Init(obs)) && StageOf(Last(obs).status) == Idle && Finished(goal, Last(obs).status)
    then Some(Last(obs))
    else None
  }

  predicate Fresh(slack: real, lag: Option<real>) {
    lag.Some? && lag.value <= slack
  }

  /** The first sample at the head of the network, once done. */
  function HeadAt(goal: Option<int>, slack: real, obs: seq<Obs>): Option<Obs> {
    if obs == [] then None
    else if HeadAt(goal, slack, Init(obs)).Some? then HeadAt(goal, slack, Init(obs))
    else if DoneAt(goal, obs).Some? && Fresh(slack, Last(obs).lag) then Some(Last(obs))
    else None
  }

  /** How many samples at the end of the stream show no catchpoint. */
  function TrailingIdle(obs: seq<Obs>): nat {
    if obs == [] || StageOf(Last(obs).status) != Idle then 0 else 1 + TrailingIdle(Init(obs))
  }

  function TimeOf(o: Option<Obs>): Option<real> {
    if o.Some? then Some(o.value.t) else None
  }

  /** When the catchup was first seen at a stage or beyond it. */
  function Entry(goal: Option<int>, obs: seq<Obs>, st: Stage): Option<real> {
    match st
    case Blocks => if FirstAt(obs, Blocks).Some? then FirstAt(obs, Blocks) else TimeOf(DoneAt(goal, obs))
    case Verify =>
      if FirstAt(obs, Verify).Some? then FirstAt(obs, Verify)
      else if FirstAt(obs, Blocks).Some? then FirstAt(obs, Blocks)
      else TimeOf(DoneAt(goal, obs))
    case _ => TimeOf(DoneAt(goal, obs))
  }

  function Span(from: Option<real>, to: Option<real>): Option<real> {
    if from.Some? && to.Some? then Some(to.value - from.value) else None
  }

  lemma InitOf(obs: seq<Obs>, o: Obs)
    ensures Init(obs + [o]) == obs && Last(obs + [o]) == o
  {
  }

  // ---- the tracker ------------------------------------------------------------------------------------------

  const ABORT_SAMPLES: nat := 3

  datatype Durations = Durations(ledger: Option<real>, verify: Option<real>, blocks: Option<real>,
                                 replay: Option<real>, total: Option<real>)

  class PhaseTracker {
    const t0: real
    const headSlack: real
    const goalRound: Option<int>
    var enter: map<Stage, real>
    var catchpointSeen: Option<string>
    var clear: nat
    var tDone: Option<real>
    var roundDone: Option<int>
    var tHead: Option<real>
    var roundHead: Option<int>
    ghost var obs: seq<Obs>

    /** The fields say exactly what the stream amounts to. The clear counter is the trailing run of
        cleared samples, as long as a catchpoint was seen and the catchup is not done. */
    ghost predicate Core()
      reads this
    {
      && (forall st | st in {Ledger, Verify, Blocks} :: Entered(st) == FirstAt(obs, st))
      && Idle !in enter
      && (catchpointSeen.Some? <==> Seen(obs))
      && DoneIs(DoneAt(goalRound, obs))
      && Entered(Done) == tDone
      && clear == (if Seen(obs) && tDone.None? then TrailingIdle(obs) else 0)
    }

    ghost predicate Valid()
      reads this
    {
      Core() && HeadIs(HeadAt(goalRound, headSlack, obs))
    }

    function Entered(st: Stage): Option<real>
      reads this
    {
      if st in enter then Some(enter[st]) else None
    }

    ghost predicate DoneIs(d: Option<Obs>)
      reads this
    {
      match d
      case None => tDone.None? && roundDone.None?
      case Some(o) => tDone == Some(o.t) && roundDone == Some(o.status.lastRound)
    }

    ghost predicate HeadIs(h: Option<Obs>)
      reads this
    {
      match h
      case None => tHead.None? && roundHead.None?
      case Some(o) => tHead == Some(o.t) && roundHead == Some(o.status.lastRound)
    }

    constructor (t0: real, headSlack: real, goalRound: Option<int>)
      ensures Valid() && obs == [] && this.t0 == t0 && this.headSlack == headSlack && this.goalRound == goalRound
    {
      this.t0, this.headSlack, this.goalRound := t0, headSlack, goalRound;
      enter, catchpointSeen, clear := map[], None, 0;
      tDone, roundDone, tHead, roundHead := None, None, None, None;
      obs := [];
    }

    /** `aborted`: an aborted catchup is not a finished one. */
    predicate Aborted()
      requires Valid()
      reads this
      ensures Aborted() <==> tDone.None? && Seen(obs) && TrailingIdle(obs) >= ABORT_SAMPLES
    {
      clear >= ABORT_SAMPLES
    }

    /** `observe`: the stream grows by one sample; what was latched stays. */
    method Observe(o: Obs)
      requires Valid()
      modifies this
      ensures Valid() && obs == old(obs) + [o]
      ensures old(tDone).Some? ==> tDone == old(tDone) && roundDone == old(roundDone)
      ensures old(tHead).Some? ==> tHead == old(tHead) && roundHead == old(roundHead)
    {
      hide FirstAt, Seen, DoneAt, HeadAt, TrailingIdle;
      Grow(goalRound, headSlack, obs, o);
      ObserveStage(o);
      ObserveLag(o.t, o.status.lastRound, o.lag);
    }

    method ObserveStage(o: Obs)
      requires Core()
      modifies this`obs, this`enter, this`catchpointSeen, this`clear, this`tDone, this`roundDone
      ensures Core() && obs == old(obs) + [o]
      ensures old(tDone).Some? ==> tDone == old(tDone) && roundDone == old(roundDone)
    {
      hide FirstAt, Seen, DoneAt, HeadAt, TrailingIdle, StageOf;
      Grow(goalRound, headSlack, obs, o);
      obs := obs + [o];
      var stage := StageOf(o.status);
      assert stage != Done by { NeverDone(o.status); }
      var rnd := o.status.lastRound;
      if stage != Idle {
        if catchpointSeen.None? {
          catchpointSeen := Some(o.status.catchpoint);
        }
        if stage !in enter {
          enter := enter[stage := o.t];
        }
        clear := 0;
      } else if catchpointSeen.Some? && tDone.None? {
        if rnd > 0 && (goalRound.None? || rnd >= goalRound.value) {
          tDone, roundDone := Some(o.t), Some(rnd);
          clear := 0;
          if Done !in enter {
            enter := enter[Done := o.t];
          }
        } else {
          clear := clear + 1;
        }
      }
    }

    /** `observe_lag`: the head check. */
    method ObserveLag(t: real, rnd: int, lag: Option<real>)
      modifies this`tHead, this`roundHead
      ensures (tHead, roundHead) ==
                if tDone.Some? && old(tHead).None? && Fresh(headSlack, lag) then (Some(t), Some(rnd))
                else old((tHead, roundHead))
    {
      if tDone.Some? && tHead.None? && lag.Some? && lag.value <= headSlack {
        tHead, roundHead := Some(t), Some(rnd);
      }
    }

    /** `_effective_entries` for the stages from st on: the first recorded entry. */
    function Effective(st: Stage): Option<real>
      reads this
      decreases Later(st)
    {
      if st in enter then Some(enter[st])
      else
        match st
        case Ledger => Effective(Verify)
        case Verify => Effective(Blocks)
        case Blocks => Effective(Done)
        case _ => None
    }

    static function Later(st: Stage): nat {
      match st case Idle => 0 case Ledger => 3 case Verify => 2 case Blocks => 1 case Done => 0
    }

    /** `durations`, unrounded. */
    function PhaseDurations(): Durations
      requires Valid()
      reads this
    {
      var v, b, d := Effective(Verify), Effective(Blocks), Effective(Done);
      Durations(
        if v.Some? then Some(v.value - t0) else None,
        if b.Some? && v.Some? then Some(b.value - v.value) else None,
        if d.Some? && b.Some? then Some(d.value - b.value) else None,
        if tHead.Some? && tDone.Some? then Some(tHead.value - tDone.value) else None,
        if tHead.Some? then Some(tHead.value - t0) else None)
    }

    /** The phases are the times between first sightings: from the request to the first sample past the
        ledger stage, from there to the first past verification, from there to completion, from there
        to the head. */
    lemma PhasesMean()
      requires Valid()
      ensures var d := PhaseDurations();
        var v, b, e := Entry(goalRound, obs, Verify), Entry(goalRound, obs, Blocks), Entry(goalRound, obs, Done);
        var h := HeadAt(goalRound, headSlack, obs);
        && d.ledger == Span(Some(t0), v) && d.verify == Span(v, b) && d.blocks == Span(b, e)
        && d.replay == Span(e, TimeOf(h)) && d.total == Span(Some(t0), TimeOf(h))
    {
      hide FirstAt, DoneAt, HeadAt, Seen, TrailingIdle;
      if HeadAt(goalRound, headSlack, obs).Some? { HeadAfterDone(goalRound, headSlack, obs); }
      assert Effective(Done) == Entry(goalRound, obs, Done);
      assert Effective(Blocks) == Entry(goalRound, obs, Blocks);
      assert Effective(Verify) == Entry(goalRound, obs, Verify);
    }

    /** At the head the four phases are all there and add up to the total. */
    lemma Telescopes()
      requires Valid() && tHead.Some?
      ensures var d := PhaseDurations();
        && d.ledger.Some? && d.verify.Some? && d.blocks.Some? && d.replay.Some? && d.total.Some?
        && d.ledger.value + d.verify.value + d.blocks.value + d.replay.value == d.total.value
    {
      HeadAfterDone(goalRound, headSlack, obs);
      assert Done in enter && enter[Done] == tDone.value;
      assert Effective(Done) == tDone;
      assert Effective(Blocks).Some? && Effective(Verify).Some?;
    }

    /** With times and stages that never go backwards, no phase is negative. */
    lemma NonNegative()
      requires Valid() && tHead.Some? && Forward(t0, goalRound, obs)
      ensures var d := PhaseDurations();
        && d.ledger.Some? && d.verify.Some? && d.blocks.Some? && d.replay.Some?
        && d.ledger.value >= 0.0 && d.verify.value >= 0.0 && d.blocks.value >= 0.0 && d.replay.value >= 0.0
    {
      hide FirstAt, DoneAt, HeadAt, Forward, Seen, TrailingIdle;
      HeadAfterDone(goalRound, headSlack, obs);
      Sightings(t0, goalRound, obs);
      HeadNotBefore(t0, goalRound, headSlack, obs);
      assert Effective(Done) == tDone;
      assert Effective(Blocks) == if FirstAt(obs, Blocks).Some? then FirstAt(obs, Blocks) else tDone;
      assert Effective(Verify) == if FirstAt(obs, Verify).Some? then FirstAt(obs, Verify) else Effective(Blocks);
    }
  }

  lemma NeverDone(s: Status)
    ensures StageOf(s) != Done
  {
  }

  /** How each summary of the stream changes with one more sample. */
  lemma Grow(goal: Option<int>, slack: real, obs: seq<Obs>, o: Obs)
    ensures forall st :: FirstAt(obs + [o], st) ==
              if FirstAt(obs, st).Some? then FirstAt(obs, st) else if StageOf(o.status) == st then Some(o.t) else None
    ensures Seen(obs + [o]) == (Seen(obs) || StageOf(o.status) != Idle)
    ensures DoneAt(goal, obs + [o]) ==
              if DoneAt(goal, obs).Some? then DoneAt(goal, obs)
              else if Seen(obs) && StageOf(o.status) == Idle && Finished(goal, o.status) then Some(o) else None
    ensures HeadAt(goal, slack, obs + [o]) ==
              if HeadAt(goal, slack, obs).Some? then HeadAt(goal, slack, obs)
              else if DoneAt(goal, obs + [o]).Some? && Fresh(slack, o.lag) then Some(o) else None
    ensures TrailingIdle(obs + [o]) == if StageOf(o.status) != Idle then 0 else 1 + TrailingIdle(obs)
  {
    InitOf(obs, o);
  }

  lemma {:induction false} HeadAfterDone(goal: Option<int>, slack: real, obs: seq<Obs>)
    requires HeadAt(goal, slack, obs).Some?
    ensures DoneAt(goal, obs).Some?
  {
    if HeadAt(goal, slack, Init(obs)).Some? { HeadAfterDone(goal, slack, Init(obs)); }
  }

  // ---- the stream read declaratively ----------------------------------------------------------------------------

  /** The first sighting is the first: it is the time of a sample in that stage, and no earlier sample
      is in it. */
  lemma {:induction false} FirstIsFirst(obs: seq<Obs>, st: Stage)
    ensures FirstAt(obs, st).None? <==> forall i | 0 <= i < |obs| :: StageOf(obs[i].status) != st
    ensures FirstAt(obs, st).Some? ==>
        exists i | 0 <= i < |obs| :: SightedAt(obs, st, i) && FirstAt(obs, st) == Some(obs[i].t)
  {
    if obs != [] {
      var n := |obs| - 1;
      FirstIsFirst(Init(obs), st);
      if FirstAt(Init(obs), st).Some? {
        var i :| 0 <= i < n && SightedAt(Init(obs), st, i) && FirstAt(Init(obs), st) == Some(Init(obs)[i].t);
        assert SightedAt(obs, st, i);
      } else if StageOf(obs[n].status) == st {
        assert forall j | 0 <= j < n :: StageOf(Init(obs)[j].status) != st && Init(obs)[j] == obs[j];
        assert SightedAt(obs, st, n);
      }
    }
  }

  ghost predicate SightedAt(obs: seq<Obs>, st: Stage, i: nat) {
    i < |obs| && StageOf(obs[i].status) == st && forall j | 0 <= j < i :: StageOf(obs[j].status) != st
  }

  /** Completion is the first finishing sample after a sighted catchpoint. */
  ghost predicate Finishing(goal: Option<int>, obs: seq<Obs>, i: nat) {
    && i < |obs| && StageOf(obs[i].status) == Idle && Finished(goal, obs[i].status)
    && exists j | 0 <= j < i :: StageOf(obs[j].status) != Idle
  }

  lemma {:induction false} SeenMeans(obs: seq<Obs>)
    ensures Seen(obs) <==> exists j | 0 <= j < |obs| :: StageOf(obs[j].status) != Idle
  {
    if obs != [] {
      SeenMeans(Init(obs));
      if j :| 0 <= j < |obs| && StageOf(obs[j].status) != Idle {
        if j < |obs| - 1 { assert Init(obs)[j] == obs[j]; }
      }
    }
  }

  lemma FinishingInit(goal: Option<int>, obs: seq<Obs>, i: nat)
    requires obs != [] && i < |obs| - 1
    ensures Finishing(goal, Init(obs), i) <==> Finishing(goal, obs, i)
  {
    if Finishing(goal, obs, i) {
      var j :| 0 <= j < i && StageOf(obs[j].status) != Idle;
      assert Init(obs)[j] == obs[j];
    }
  }

  lemma {:induction false} DoneIsFirst(goal: Option<int>, obs: seq<Obs>)
    ensures DoneAt(goal, obs).None? <==> forall i: nat :: !Finishing(goal, obs, i)
    ensures DoneAt(goal, obs).Some? ==> exists i: nat ::
              && Finishing(goal, obs, i) && DoneAt(goal, obs) == Some(obs[i])
              && forall k: nat | k < i :: !Finishing(goal, obs, k)
  {
    if obs != [] {
      var n := |obs| - 1;
      var init := Init(obs);
      DoneIsFirst(goal, init);
      SeenMeans(init);
      forall i: nat | i < n
        ensures Finishing(goal, init, i) <==> Finishing(goal, obs, i)
      {
        FinishingInit(goal, obs, i);
      }
      LastFinishing(goal, obs);
      if DoneAt(goal, init).Some? {
        var i: nat :| Finishing(goal, init, i) && DoneAt(goal, init) == Some(init[i])
                      && forall k: nat | k < i :: !Finishing(goal, init, k);
        assert Finishing(goal, obs, i) && init[i] == obs[i];
      } else if DoneAt(goal, obs).Some? {
        assert Finishing(goal, obs, n);
      }
    }
  }

  lemma LastFinishing(goal: Option<int>, obs: seq<Obs>)
    requires obs != []
    ensures Finishing(goal, obs, |obs| - 1) <==>
              Seen(Init(obs)) && StageOf(Last(obs).status) == Idle && Finished(goal, Last(obs).status)
  {
    SeenMeans(Init(obs));
    if Seen(Init(obs)) {
      var j :| 0 <= j < |Init(obs)| && StageOf(Init(obs)[j].status) != Idle;
      assert obs[j] == Init(obs)[j];
    }
  }

  // ---- streams that only go forward --------------------------------------------------------------------------------

  function Rank(st: Stage): nat {
    match st case Idle => 0 case Ledger => 1 case Verify => 2 case Blocks => 3 case Done => 4
  }

  /** Neither the clock nor the stages go back, and nothing starts again after completion. */
  ghost predicate Forward(t0: real, goal: Option<int>, obs: seq<Obs>) {
    && (forall i | 0 <= i < |obs| :: t0 <= obs[i].t)
    && (forall i, j | 0 <= i < j < |obs| :: obs[i].t <= obs[j].t)
    && (forall i, j | 0 <= i < j < |obs| && StageOf(obs[i].status) != Idle && StageOf(obs[j].status) != Idle ::
          Rank(StageOf(obs[i].status)) <= Rank(StageOf(obs[j].status)))
    && (forall i: nat, j | i < j < |obs| && Finishing(goal, obs, i) :: StageOf(obs[j].status) == Idle)
  }

  /** In such a stream the sightings come in the order of the stages, all before completion. */
  lemma Sightings(t0: real, goal: Option<int>, obs: seq<Obs>)
    requires Forward(t0, goal, obs)
    ensures var v, b, d := FirstAt(obs, Verify), FirstAt(obs, Blocks), DoneAt(goal, obs);
      && (v.Some? ==> t0 <= v.value) && (b.Some? ==> t0 <= b.value) && (d.Some? ==> t0 <= d.value.t)
      && (v.Some? && b.Some? ==> v.value <= b.value)
      && (v.Some? && d.Some? ==> v.value <= d.value.t)
      && (b.Some? && d.Some? ==> b.value <= d.value.t)
  {
    hide FirstAt, DoneAt, Finished;
    FirstIsFirst(obs, Verify);
    FirstIsFirst(obs, Blocks);
    DoneIsFirst(goal, obs);
    if FirstAt(obs, Verify).Some? {
      var i :| 0 <= i < |obs| && SightedAt(obs, Verify, i) && FirstAt(obs, Verify) == Some(obs[i].t);
      StageBeforeDone(t0, goal, obs, i);
      if FirstAt(obs, Blocks).Some? {
        var j :| 0 <= j < |obs| && SightedAt(obs, Blocks, j) && FirstAt(obs, Blocks) == Some(obs[j].t);
        assert j < i ==> Rank(StageOf(obs[j].status)) <= Rank(StageOf(obs[i].status));
      }
    }
    if FirstAt(obs, Blocks).Some? {
      var j :| 0 <= j < |obs| && SightedAt(obs, Blocks, j) && FirstAt(obs, Blocks) == Some(obs[j].t);
      StageBeforeDone(t0, goal, obs, j);
    }
  }

  lemma StageBeforeDone(t0: real, goal: Option<int>, obs: seq<Obs>, i: nat)
    requires Forward(t0, goal, obs) && i < |obs| && StageOf(obs[i].status) != Idle
    ensures DoneAt(goal, obs).Some? ==> obs[i].t <= DoneAt(goal, obs).value.t
  {
    hide DoneAt, Finished, StageOf;
    DoneIsFirst(goal, obs);
    if DoneAt(goal, obs).Some? {
      var k: nat :| Finishing(goal, obs, k) && DoneAt(goal, obs) == Some(obs[k]);
      assert i < k;
    }
  }

  lemma {:induction false} HeadNotBefore(t0: real, goal: Option<int>, slack: real, obs: seq<Obs>)
    requires Forward(t0, goal, obs) && HeadAt(goal, slack, obs).Some? && DoneAt(goal, obs).Some?
    ensures DoneAt(goal, obs).value.t <= HeadAt(goal, slack, obs).value.t
  {
    hide Finished, StageOf;
    if HeadAt(goal, slack, Init(obs)).Some? {
      HeadAfterDone(goal, slack, Init(obs));
      ForwardInit(t0, goal, obs);
      HeadNotBefore(t0, goal, slack, Init(obs));
    } else {
      DoneIsFirst(goal, obs);
      var k: nat :| Finishing(goal, obs, k) && DoneAt(goal, obs) == Some(obs[k]);
      assert k < |obs| - 1 ==> obs[k].t <= obs[|obs| - 1].t;
    }
  }

  lemma ForwardInit(t0: real, goal: Option<int>, obs: seq<Obs>)
    requires obs != [] && Forward(t0, goal, obs)
    ensures Forward(t0, goal, Init(obs))
  {
    hide Finished, StageOf;
    var init := Init(obs);
    assert forall i | 0 <= i < |init| :: init[i] == obs[i];
    forall i: nat, j | i < j < |init| && Finishing(goal, init, i)
      ensures StageOf(init[j].status) == Idle
    {
      FinishingInit(goal, obs, i);
      assert StageOf(obs[j].status) == Idle;
    }
  }
}

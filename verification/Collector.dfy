/** The live collector of ops/mainnet-soak/monitor.py: `collect` over every possible stream of polls. */
module Collector {
  import opened Optional
  import opened Monitor

  const TIP_SLACK_ROUNDS: int := 2

  /** One iteration's observations: whether the process was still alive, the sample taken if it was,
      and the time read afterwards. */
  datatype Poll = Poll(alive: bool, sample: Sample, now: real)

  /** `at_tip`. */
  predicate AtTip(s: Sample) {
    && s.node.ok && s.node.catchpoint == "" && s.peer.ok && s.peer.lastRound.Some? && s.node.lastRound.Some?
    && s.peer.lastRound.value - s.node.lastRound.value <= TIP_SLACK_ROUNDS
  }

  /** A sample whose window is known to starve the node's responder. */
  predicate Slow(s: Sample) {
    IsVerifying(s) || IsDownloading(s) || IsPostVerify(s)
  }

  datatype Settings = Settings(start: real, duration: real, follow: real, allow: Allowances, grace: real)

  const GONE: Node := Node(false, "", Counters(None, None, None, None, None, None, None, None), None, None)

  /** The sample that is recorded: for a dead process the collector writes the node's part itself. */
  function Taken(p: Poll): Sample {
    if p.alive then p.sample else p.sample.(node := GONE)
  }

  // ---- the trace reading of the collector's state ---------------------------------------------------------

  /** Alive but not answering. */
  predicate Down(p: Poll) {
    p.alive && !p.sample.node.ok
  }

  /** The unreachable spell that lasts through poll k began at poll b. */
  ghost predicate Spell(polls: seq<Poll>, b: nat, k: nat) {
    b <= k < |polls| && (forall j | b <= j <= k :: Down(polls[j])) && (b > 0 ==> !Down(polls[b - 1]))
  }

  /** Whether the last answered poll before k was in a slow window. */
  function WasSlow(polls: seq<Poll>, k: nat): bool
    requires k <= |polls|
  {
    if k == 0 then false
    else if polls[k - 1].alive && polls[k - 1].sample.node.ok then Slow(polls[k - 1].sample)
    else WasSlow(polls, k - 1)
  }

  function Grace(c: Settings, slow: bool): real {
    (if slow then c.allow.verify else c.grace) * 60.0
  }

  /** Poll k is in a spell that is younger than its grace. */
  ghost predicate Tolerated(c: Settings, polls: seq<Poll>, k: nat) {
    k < |polls| && exists b: nat :: Spell(polls, b, k) && polls[k].now - polls[b].now < Grace(c, WasSlow(polls, k))
  }

  function Samples(polls: seq<Poll>): (r: seq<Sample>)
    ensures |r| == |polls|
  {
    seq(|polls|, (i: nat) requires i < |polls| => Taken(polls[i]))
  }

  lemma StartsOnce(polls: seq<Poll>, b: nat, k: nat)
    requires Spell(polls, b, k)
    ensures forall x | b < x <= k :: !Spell(polls, x, k)
  {
    forall x | b < x <= k
      ensures !Spell(polls, x, k)
    {
      assert Down(polls[x - 1]);
    }
  }

  lemma SpellUnique(polls: seq<Poll>, b: nat, d: nat, k: nat)
    requires Spell(polls, b, k) && Spell(polls, d, k)
    ensures b == d
  {
    StartsOnce(polls, b, k);
    StartsOnce(polls, d, k);
  }

  /** `unreachable_since` after k polls: the time read in the first poll of the spell. */
  ghost predicate Since(polls: seq<Poll>, k: nat, since: Option<real>)
    requires k <= |polls|
  {
    if k > 0 && Down(polls[k - 1]) then exists b: nat :: Spell(polls, b, k - 1) && since == Some(polls[b].now)
    else since.None?
  }

  lemma SinceNext(polls: seq<Poll>, k: nat, since: Option<real>)
    requires k < |polls| && Since(polls, k, since)
    ensures Since(polls, k + 1, if !Down(polls[k]) then None else if since.Some? then since else Some(polls[k].now))
  {
    if Down(polls[k]) {
      if since.Some? {
        var b: nat :| Spell(polls, b, k - 1) && since == Some(polls[b].now);
        assert Spell(polls, b, k);
      } else {
        assert Spell(polls, k, k);
      }
    }
  }

  lemma SinceTells(c: Settings, polls: seq<Poll>, k: nat, since: real)
    requires k < |polls| && Down(polls[k]) && Since(polls, k + 1, Some(since))
    ensures Tolerated(c, polls, k) <==> polls[k].now - since < Grace(c, WasSlow(polls, k))
  {
    hide WasSlow;
    var b: nat :| Spell(polls, b, k) && since == polls[b].now;
    forall d: nat | Spell(polls, d, k)
      ensures d == b
    {
      SpellUnique(polls, b, d, k);
    }
  }

  /** The first time the node was seen at the tip. */
  ghost predicate FollowEnd(c: Settings, polls: seq<Poll>, k: nat, end: Option<real>)
    requires k <= |polls|
  {
    if c.follow <= 0.0 || forall j | 0 <= j < k :: !AtTip(Taken(polls[j])) then end.None?
    else
      exists j | 0 <= j < k ::
        AtTip(Taken(polls[j])) && end == Some(Taken(polls[j]).ts + c.follow) && !TippedBefore(polls, j)
  }

  ghost predicate TippedBefore(polls: seq<Poll>, j: nat)
    requires j <= |polls|
  {
    exists i | 0 <= i < j :: AtTip(Taken(polls[i]))
  }

  lemma FollowNext(c: Settings, polls: seq<Poll>, k: nat, end: Option<real>)
    requires k < |polls| && FollowEnd(c, polls, k, end)
    ensures FollowEnd(c, polls, k + 1,
                      if c.follow > 0.0 && end.None? && AtTip(Taken(polls[k]))
                      then Some(Taken(polls[k]).ts + c.follow) else end)
  {
    if c.follow > 0.0 && end.None? && AtTip(Taken(polls[k])) {
      assert !TippedBefore(polls, k);
    }
  }

  // ---- the collector -----------------------------------------------------------------------------------------

  /** The run may end at poll k: the budget is spent, or the follow window is over. */
  ghost predicate Expired(c: Settings, polls: seq<Poll>, k: nat) {
    k < |polls| &&
    (|| polls[k].now - c.start >= c.duration
     || exists end :: FollowEnd(c, polls, k + 1, Some(end)) && polls[k].now >= end)
  }

  /** What the run may report after poll k. */
  ghost predicate Reports(c: Settings, polls: seq<Poll>, k: nat, v: Verdict) {
    k < |polls| &&
    if Tolerated(c, polls, k) then v == Verdict(Ok, None, None, None) && polls[k].now - c.start >= c.duration
    else v == Classified(Samples(polls[..k + 1]), c.allow) && (v.status != Ok || Expired(c, polls, k))
  }

  /** `collect`. The polls are whatever the two endpoints and the clock yield; the last of them is at
      or past the cap, so the loop has to end. */
  method Collect(c: Settings, polls: seq<Poll>) returns (k: nat, v: Verdict)
    requires polls != [] && polls[|polls| - 1].now - c.start >= c.duration
    ensures Reports(c, polls, k, v)
    ensures forall j, u | 0 <= j < k :: !Reports(c, polls, j, u)
  {
    hide Classified, WasSlow, FollowEnd, Since, Tolerated;
    var samples: seq<Sample> := [];
    var since: Option<real>, followEnd: Option<real> := None, None;
    var lastSlow := false;
    k := 0;
    Begin(c, polls);
    while true
      invariant k < |polls| && samples == Samples(polls[..k])
      invariant Since(polls, k, since) && FollowEnd(c, polls, k, followEnd) && lastSlow == WasSlow(polls, k)
      invariant forall j, u | 0 <= j < k :: !Reports(c, polls, j, u)
      decreases |polls| - k
    {
      var p := polls[k];
      var taken := Taken(p);
      samples := samples + [taken];
      assert samples == Samples(polls[..k + 1]);
      FollowNext(c, polls, k, followEnd);
      if c.follow > 0.0 && followEnd.None? && AtTip(taken) {
        followEnd := Some(taken.ts + c.follow);
      }
      SinceNext(polls, k, since);
      ghost var slowBefore := lastSlow;
      SlowNext(polls, k);
      if !p.alive {
        since := None;
        NotDown(c, polls, k);
      } else if p.sample.node.ok {
        since := None;
        lastSlow := Slow(p.sample);
        NotDown(c, polls, k);
      } else {
        if since.None? {
          since := Some(p.now);
        }
        SinceTells(c, polls, k, since.value);
        if p.now - since.value < Grace(c, lastSlow) {
          if p.now - c.start >= c.duration {
            return k, Verdict(Ok, None, None, None);
          }
          assert forall u :: !Reports(c, polls, k, u);
          k := k + 1;
          continue;
        }
      }
      v := Classify(samples, c.allow);
      if v.status != Ok {
        return;
      }
      if p.now - c.start >= c.duration {
        return;
      }
      if followEnd.Some? && p.now >= followEnd.value {
        return;
      }
      NotExpired(c, polls, k, followEnd);
      assert forall u :: !Reports(c, polls, k, u);
      k := k + 1;
    }
  }

  lemma Begin(c: Settings, polls: seq<Poll>)
    ensures Since(polls, 0, None) && FollowEnd(c, polls, 0, None) && !WasSlow(polls, 0)
  {
  }

  lemma SlowNext(polls: seq<Poll>, k: nat)
    requires k < |polls|
    ensures WasSlow(polls, k + 1) ==
              if polls[k].alive && polls[k].sample.node.ok then Slow(polls[k].sample) else WasSlow(polls, k)
  {
  }

  lemma NotDown(c: Settings, polls: seq<Poll>, k: nat)
    requires k < |polls| && !Down(polls[k])
    ensures !Tolerated(c, polls, k)
  {
  }

  lemma NotExpired(c: Settings, polls: seq<Poll>, k: nat, end: Option<real>)
    requires k < |polls| && FollowEnd(c, polls, k + 1, end)
    requires polls[k].now - c.start < c.duration && (end.Some? ==> polls[k].now < end.value)
    ensures !Expired(c, polls, k)
  {
    if e :| FollowEnd(c, polls, k + 1, Some(e)) && polls[k].now >= e {
      FollowUnique(c, polls, k + 1, end, Some(e));
    }
  }

  lemma FollowUnique(c: Settings, polls: seq<Poll>, k: nat, x: Option<real>, y: Option<real>)
    requires k <= |polls| && FollowEnd(c, polls, k, x) && FollowEnd(c, polls, k, y)
    ensures x == y
  {
    if x.Some? && y.Some? {
      var i :| 0 <= i < k && AtTip(Taken(polls[i])) && x == Some(Taken(polls[i]).ts + c.follow)
               && !TippedBefore(polls, i);
      var j :| 0 <= j < k && AtTip(Taken(polls[j])) && y == Some(Taken(polls[j]).ts + c.follow)
               && !TippedBefore(polls, j);
      assert i == j;
    }
  }

  // ---- what a report can mean -----------------------------------------------------------------------------------

  /** The first report of the stream, which is the one `collect` returns. */
  ghost predicate Result(c: Settings, polls: seq<Poll>, k: nat, v: Verdict) {
    Reports(c, polls, k, v) && forall j, u | 0 <= j < k :: !Reports(c, polls, j, u)
  }

  /** A node failure is reported only for a dead process or for a spell that has outlived its grace. */
  lemma FailureIsReal(c: Settings, polls: seq<Poll>, k: nat, v: Verdict)
    requires Result(c, polls, k, v) && v.status == NodeFailure
    ensures
      || !polls[k].alive
      || (Down(polls[k])
          && exists b: nat :: Spell(polls, b, k) && polls[k].now - polls[b].now >= Grace(c, WasSlow(polls, k)))
  {
    hide WasSlow, Classified;
    StatusMeans(Samples(polls[..k + 1]), c.allow);
    if polls[k].alive {
      assert Down(polls[k]);
      var b := FindSpell(polls, k);
    }
  }

  lemma {:induction false} FindSpell(polls: seq<Poll>, k: nat) returns (b: nat)
    requires k < |polls| && Down(polls[k])
    ensures Spell(polls, b, k)
  {
    if k > 0 && Down(polls[k - 1]) {
      b := FindSpell(polls, k - 1);
    } else {
      b := k;
    }
  }

  /** A confirmed death ends the run in the same iteration, as a node failure. */
  lemma DeathIsFinal(c: Settings, polls: seq<Poll>, k: nat, v: Verdict, d: nat)
    requires Result(c, polls, k, v) && d < |polls| && !polls[d].alive
    ensures k <= d
    ensures k == d ==> v.status == NodeFailure
  {
    hide Classified, WasSlow;
    var u := Classified(Samples(polls[..d + 1]), c.allow);
    StatusMeans(Samples(polls[..d + 1]), c.allow);
    NotDown(c, polls, d);
    assert u.status == NodeFailure;
    assert Reports(c, polls, d, u);
  }

  /** The loop returns no later than the first iteration at or past the duration cap. */
  lemma CapEnds(c: Settings, polls: seq<Poll>, k: nat, v: Verdict, d: nat)
    requires Result(c, polls, k, v) && d < |polls| && polls[d].now - c.start >= c.duration
    ensures k <= d
  {
    hide Classified, WasSlow, Tolerated;
    if Tolerated(c, polls, d) {
      assert Reports(c, polls, d, Verdict(Ok, None, None, None));
    } else {
      assert Expired(c, polls, d);
      assert Reports(c, polls, d, Classified(Samples(polls[..d + 1]), c.allow));
    }
  }
}

/** The liveness verdict of ops/mainnet-soak/monitor.py: `classify` over a stream of samples. */
module Monitor {
  import opened Optional

  datatype Counters = Counters(
    totalBlocks: Option<int>, totalAccounts: Option<int>, totalKvs: Option<int>,
    acquiredBlocks: Option<int>, processedAccounts: Option<int>, processedKvs: Option<int>,
    verifiedAccounts: Option<int>, verifiedKvs: Option<int>)

  /** `stall` is the round of the block the node says it cannot apply. */
  datatype Node = Node(ok: bool, catchpoint: string, counters: Counters, lastRound: Option<int>, stall: Option<int>)

  datatype Peer = Peer(ok: bool, lastRound: Option<int>)

  datatype Sample = Sample(ts: real, node: Node, peer: Peer)

  datatype Phase = Catchup | Follow

  /** What must move for the node to count as making progress. */
  datatype Sig =
    | Importing(blocks: Option<int>, accounts: Option<int>, kvs: Option<int>, vAccounts: Option<int>, vKvs: Option<int>)
    | Following(round: Option<int>)

  function PhaseOf(s: Sig): Phase {
    if s.Importing? then Catchup else Follow
  }

  function RoundOf(s: Sig): Option<int> {
    if s.Importing? then s.blocks else s.round
  }

  /** `node_signature`. */
  function Signature(s: Sample): Option<Sig> {
    var n, c := s.node, s.node.counters;
    if !n.ok then None
    else if n.catchpoint != "" then
      Some(Importing(c.acquiredBlocks, c.processedAccounts, c.processedKvs, c.verifiedAccounts, c.verifiedKvs))
    else Some(Following(n.lastRound))
  }

  predicate Done(total: Option<int>, val: Option<int>) {
    total.Some? && val.Some? && val.value >= total.value
  }

  predicate InCatchup(s: Sample) {
    s.node.ok && s.node.catchpoint != ""
  }

  predicate Imported(c: Counters) {
    && Done(c.totalBlocks, c.acquiredBlocks) && Done(c.totalAccounts, c.processedAccounts)
    && Done(c.totalKvs, c.processedKvs)
  }

  predicate Verified(c: Counters) {
    Done(c.totalAccounts, c.verifiedAccounts) && Done(c.totalKvs, c.verifiedKvs)
  }

  predicate IsVerifying(s: Sample) {
    InCatchup(s) && Imported(s.node.counters) && !Verified(s.node.counters)
  }

  predicate IsPostVerify(s: Sample) {
    var c := s.node.counters;
    InCatchup(s) && c.totalBlocks.Some? && c.totalBlocks.value > 0 && Imported(c) && Verified(c)
  }

  predicate IsDownloading(s: Sample) {
    var c, z := s.node.counters, Some(0);
    InCatchup(s) && c == Counters(z, z, z, z, z, z, z, z)
  }

  /** The three windows in which nothing visible moves exclude each other. */
  lemma WindowsExclusive(s: Sample)
    ensures !(IsPostVerify(s) && (IsVerifying(s) || IsDownloading(s)))
    ensures !(IsVerifying(s) && IsDownloading(s))
  {
  }

  // ---- the verdict ---------------------------------------------------------------------------------------

  datatype Status = Ok | Stuck | SourceOutage | NodeFailure | InvalidBlockStall

  datatype Verdict = Verdict(status: Status, phase: Option<Phase>, round: Option<int>, stalledFor: Option<real>)

  /** Minutes that a signature may stay frozen. */
  datatype Allowances = Allowances(halt: real, verify: real, postVerify: real)

  /** The allowance that the last sample calls for, in seconds. */
  function Allowed(a: Allowances, last: Sample): real {
    if IsVerifying(last) || IsDownloading(last) then a.verify * 60.0
    else if IsPostVerify(last) then (if a.postVerify < a.halt then a.halt else a.postVerify) * 60.0
    else a.halt * 60.0
  }

  /** The signature that holds and the sample at which it was first seen. */
  datatype Track = Track(sig: Option<Sig>, idx: nat)

  function Advance(t: Track, s: Sample, i: nat): Track {
    if Signature(s).None? || Signature(s) == t.sig then t else Track(Signature(s), i)
  }

  function Walk(samples: seq<Sample>): (t: Track)
    ensures t.sig.Some? ==> t.idx < |samples|
  {
    if samples == [] then Track(None, 0)
    else Advance(Walk(samples[..|samples| - 1]), samples[|samples| - 1], |samples| - 1)
  }

  function PeerRound(s: Sample): Option<int> {
    if s.peer.ok then s.peer.lastRound else None
  }

  ghost predicate Apart(a: Sample, b: Sample) {
    PeerRound(a).Some? && PeerRound(b).Some? && PeerRound(a) != PeerRound(b)
  }

  /** The peer was seen at two different rounds. */
  ghost predicate PeerMoved(w: seq<Sample>) {
    exists i, j | 0 <= i < j < |w| :: Apart(w[i], w[j])
  }

  /** The last round the node was seen at. */
  function LastKnown(samples: seq<Sample>): Option<int> {
    if samples == [] then None
    else
      var s := samples[|samples| - 1];
      if s.node.ok && s.node.lastRound.Some? then s.node.lastRound else LastKnown(samples[..|samples| - 1])
  }

  function LastPhase(samples: seq<Sample>): Option<Phase> {
    if samples == [] then None
    else
      var s := samples[|samples| - 1];
      if Signature(s).Some? then Some(PhaseOf(Signature(s).value)) else LastPhase(samples[..|samples| - 1])
  }

  /** The first sample of the unbroken run of stalled samples at the end. */
  function StallStart(samples: seq<Sample>): (i: nat)
    requires samples != []
    ensures i < |samples|
  {
    if |samples| == 1 || samples[|samples| - 2].node.stall.None? then |samples| - 1
    else StallStart(samples[..|samples| - 1])
  }

  ghost function Classified(samples: seq<Sample>, a: Allowances): Verdict {
    if samples == [] then Verdict(Ok, None, None, None)
    else
      var last := samples[|samples| - 1];
      if last.node.stall.Some? then
        Verdict(InvalidBlockStall, LastPhase(samples), last.node.stall, Some(last.ts - samples[StallStart(samples)].ts))
      else if !last.node.ok then Verdict(NodeFailure, None, LastKnown(samples), None)
      else
        var t := Walk(samples);
        var sig := t.sig.value;
        var frozen := last.ts - samples[t.idx].ts;
        if frozen < Allowed(a, last) then Verdict(Ok, Some(PhaseOf(sig)), None, None)
        else
          Verdict(if PeerMoved(samples[t.idx..]) then Stuck else SourceOutage, Some(PhaseOf(sig)), RoundOf(sig),
                  Some(frozen))
  }

  // ---- the declarative reading ----------------------------------------------------------------------------

  /** Some reachable sample strictly between b and c shows another signature. */
  ghost predicate Broken(samples: seq<Sample>, b: nat, c: nat, sig: Sig)
    requires c <= |samples|
  {
    exists k | b < k < c :: Signature(samples[k]).Some? && Signature(samples[k]) != Some(sig)
  }

  /** Every reachable sample from c on shows `sig`, and c is the earliest such point. */
  ghost predicate FrozenSince(samples: seq<Sample>, c: nat, sig: Sig) {
    && c < |samples| && Signature(samples[c]) == Some(sig)
    && (forall i | c <= i < |samples| :: Signature(samples[i]).None? || Signature(samples[i]) == Some(sig))
    && (forall b | 0 <= b < c && Signature(samples[b]) == Some(sig) :: Broken(samples, b, c, sig))
  }

  lemma FrozenUnique(samples: seq<Sample>, c: nat, d: nat, sig: Sig)
    requires FrozenSince(samples, c, sig) && FrozenSince(samples, d, sig)
    ensures c == d
  {
    assert c < d ==> !Broken(samples, c, d, sig);
    assert d < c ==> !Broken(samples, d, c, sig);
  }

  lemma {:induction false} WalkFrozen(samples: seq<Sample>)
    ensures Walk(samples).sig.None? <==> forall i | 0 <= i < |samples| :: Signature(samples[i]).None?
    ensures Walk(samples).sig.Some? ==> FrozenSince(samples, Walk(samples).idx, Walk(samples).sig.value)
  {
    if samples != [] {
      var n := |samples| - 1;
      var init := samples[..n];
      WalkFrozen(init);
      var t := Walk(init);
      var s := Signature(samples[n]);
      if s.None? || s == t.sig {
        if t.sig.Some? { FrozenExtends(init, samples[n], t.idx, t.sig.value); }
        assert init + [samples[n]] == samples;
      } else {
        FrozenAnew(samples, t);
      }
    }
  }

  lemma FrozenExtends(init: seq<Sample>, s: Sample, c: nat, sig: Sig)
    requires FrozenSince(init, c, sig) && (Signature(s).None? || Signature(s) == Some(sig))
    ensures FrozenSince(init + [s], c, sig)
  {
    var all := init + [s];
    forall b | 0 <= b < c && Signature(all[b]) == Some(sig)
      ensures Broken(all, b, c, sig)
    {
      assert Broken(init, b, c, sig);
      var k :| b < k < c && Signature(init[k]).Some? && Signature(init[k]) != Some(sig);
      assert all[k] == init[k];
    }
  }

  lemma FrozenAnew(samples: seq<Sample>, t: Track)
    requires samples != [] && Signature(samples[|samples| - 1]).Some? && Signature(samples[|samples| - 1]) != t.sig
    requires t.sig.None? ==> forall i | 0 <= i < |samples| - 1 :: Signature(samples[i]).None?
    requires t.sig.Some? ==> FrozenSince(samples[..|samples| - 1], t.idx, t.sig.value)
    ensures FrozenSince(samples, |samples| - 1, Signature(samples[|samples| - 1]).value)
  {
    var n := |samples| - 1;
    var sig := Signature(samples[n]).value;
    var init := samples[..n];
    assert forall i | 0 <= i < n :: init[i] == samples[i];
    if t.sig.Some? {
      assert Signature(init[t.idx]) == t.sig;
      assert forall i | t.idx <= i < n :: Signature(init[i]) != Some(sig);
    }
    forall b | 0 <= b < n && Signature(samples[b]) == Some(sig)
      ensures Broken(samples, b, n, sig)
    {
      assert Signature(init[b]) == Some(sig);
      assert t.sig.Some? && b < t.idx < n;
      assert samples[t.idx] == init[t.idx];
    }
  }

  /** Since when, for how long, and whether the network moved meanwhile. */
  ghost predicate HeldFrom(samples: seq<Sample>, a: Allowances, c: nat) {
    && samples != []
    && var last := samples[|samples| - 1];
       && Signature(last).Some? && FrozenSince(samples, c, Signature(last).value)
       && last.ts - samples[c].ts >= Allowed(a, last)
  }

  ghost predicate Reached(samples: seq<Sample>) {
    samples != [] && samples[|samples| - 1].node.ok && samples[|samples| - 1].node.stall.None?
  }

  lemma LastSignature(samples: seq<Sample>)
    requires Reached(samples)
    ensures Walk(samples).sig == Signature(samples[|samples| - 1]) && Walk(samples).sig.Some?
  {
  }

  /** The five statuses, read off the trace: in particular `stuck` means exactly that the last sample
      is reachable and unstalled, that all reachable samples since some point show its signature and
      the point lies at least the allowance back, and that the peer was seen to move since then. */
  lemma StatusMeans(samples: seq<Sample>, a: Allowances)
    ensures var st := Classified(samples, a).status;
      && (st == InvalidBlockStall <==> samples != [] && samples[|samples| - 1].node.stall.Some?)
      && (st == NodeFailure <==>
          samples != [] && samples[|samples| - 1].node.stall.None? && !samples[|samples| - 1].node.ok)
      && (st == Stuck <==> Reached(samples) && exists c: nat :: HeldFrom(samples, a, c) && PeerMoved(samples[c..]))
      && (st == SourceOutage <==>
          Reached(samples) && exists c: nat :: HeldFrom(samples, a, c) && !PeerMoved(samples[c..]))
      && (st == Ok <==> samples == [] || (Reached(samples) && forall c: nat :: !HeldFrom(samples, a, c)))
  {
    hide PeerMoved, FrozenSince, Walk, Signature, Allowed;
    if Reached(samples) {
      LastSignature(samples);
      WalkFrozen(samples);
      var c0 := Walk(samples).idx;
      var sig := Walk(samples).sig.value;
      forall c: nat | HeldFrom(samples, a, c)
        ensures c == c0
      {
        FrozenUnique(samples, c, c0, sig);
      }
      var last := samples[|samples| - 1];
      assert HeldFrom(samples, a, c0) <==> last.ts - samples[c0].ts >= Allowed(a, last);
    }
  }

  /** Raising allowances never turns `ok` into a halt. */
  lemma LenientIsSafe(samples: seq<Sample>, a: Allowances, b: Allowances)
    requires a.halt <= b.halt && a.verify <= b.verify && a.postVerify <= b.postVerify
    requires Classified(samples, a).status == Ok
    ensures Classified(samples, b).status == Ok
  {
    if samples != [] {
      assert Allowed(a, samples[|samples| - 1]) <= Allowed(b, samples[|samples| - 1]);
    }
  }

  // ---- samples without information -------------------------------------------------------------------------

  /** Neither the node nor the peer answered. */
  ghost predicate Silent(x: Sample) {
    !x.node.ok && PeerRound(x).None?
  }

  function Inserted<T>(s: seq<T>, p: nat, x: T): seq<T>
    requires p <= |s|
  {
    s[..p] + [x] + s[p..]
  }

  function Shifted(t: Track, p: nat): Track {
    if t.sig.Some? && t.idx >= p then t.(idx := t.idx + 1) else t
  }

  lemma {:induction false} WalkInserted(samples: seq<Sample>, p: nat, x: Sample)
    requires p <= |samples| && Silent(x)
    ensures Walk(Inserted(samples, p, x)) == Shifted(Walk(samples), p)
    decreases |samples|
  {
    var all := Inserted(samples, p, x);
    var n := |samples|;
    if p == n {
      assert all[..n] == samples && all[n] == x;
    } else {
      WalkInserted(samples[..n - 1], p, x);
      assert all[..n] == Inserted(samples[..n - 1], p, x);
      assert all[n] == samples[n - 1];
    }
  }

  lemma PeerMovedInserted(w: seq<Sample>, p: nat, x: Sample)
    requires p <= |w| && PeerRound(x).None?
    ensures PeerMoved(Inserted(w, p, x)) <==> PeerMoved(w)
  {
    var all := Inserted(w, p, x);
    if PeerMoved(w) {
      var i, j :| 0 <= i < j < |w| && Apart(w[i], w[j]);
      var i', j' := if i < p then i else i + 1, if j < p then j else j + 1;
      assert all[i'] == w[i] && all[j'] == w[j];
    }
    if PeerMoved(all) {
      var i, j :| 0 <= i < j < |all| && Apart(all[i], all[j]);
      var i', j' := if i < p then i else i - 1, if j < p then j else j - 1;
      assert i != p && j != p;
      assert w[i'] == all[i] && w[j'] == all[j];
    }
  }

  lemma {:induction false} LastKnownInserted(samples: seq<Sample>, p: nat, x: Sample)
    requires p <= |samples| && Silent(x)
    ensures LastKnown(Inserted(samples, p, x)) == LastKnown(samples)
    decreases |samples|
  {
    var all := Inserted(samples, p, x);
    var n := |samples|;
    if p == n {
      assert all[..n] == samples && all[n] == x;
    } else {
      LastKnownInserted(samples[..n - 1], p, x);
      assert all[..n] == Inserted(samples[..n - 1], p, x);
      assert all[n] == samples[n - 1];
    }
  }

  /** A poll in which nothing answered, anywhere before the last sample, changes nothing about the
      verdict unless the stream ends stalled. */
  lemma SilenceIgnored(samples: seq<Sample>, p: nat, x: Sample, a: Allowances)
    requires p < |samples| && Silent(x) && samples[|samples| - 1].node.stall.None?
    ensures Classified(Inserted(samples, p, x), a) == Classified(samples, a)
  {
    hide Walk, LastKnown, PeerMoved, Allowed;
    var all := Inserted(samples, p, x);
    var n := |samples|;
    assert all[n] == samples[n - 1];
    if !samples[n - 1].node.ok {
      LastKnownInserted(samples, p, x);
    } else {
      LastSignature(samples);
      LastSignature(all);
      WalkInserted(samples, p, x);
      var c, c' := Walk(samples).idx, Walk(all).idx;
      assert all[c'] == samples[c];
      if p <= c {
        assert all[c'..] == samples[c..];
      } else {
        assert all[c'..] == Inserted(samples[c..], p - c, x);
        PeerMovedInserted(samples[c..], p - c, x);
      }
    }
  }

  // ---- the function as the source runs it --------------------------------------------------------------------

  /** `peer_advancing_between`: the rounds seen, and whether the largest exceeds the smallest. */
  method PeerAdvancing(samples: seq<Sample>, start: nat) returns (r: bool)
    requires start <= |samples|
    ensures r <==> PeerMoved(samples[start..])
  {
    var w := samples[start..];
    var seen, lo, hi := 0, 0, 0;
    for i := 0 to |w|
      invariant seen == 0 <==> forall k | 0 <= k < i :: PeerRound(w[k]).None?
      invariant seen > 0 ==> exists k | 0 <= k < i :: PeerRound(w[k]) == Some(lo)
      invariant seen > 0 ==> exists k | 0 <= k < i :: PeerRound(w[k]) == Some(hi)
      invariant forall k | 0 <= k < i && PeerRound(w[k]).Some? :: lo <= PeerRound(w[k]).value <= hi
      invariant seen < 2 ==> lo == hi
    {
      var p := PeerRound(w[i]);
      if p.Some? {
        if seen == 0 {
          lo, hi := p.value, p.value;
        } else if p.value < lo {
          lo := p.value;
        } else if p.value > hi {
          hi := p.value;
        }
        seen := seen + 1;
      }
    }
    r := seen >= 2 && hi > lo;
    if r {
      var i :| 0 <= i < |w| && PeerRound(w[i]) == Some(lo);
      var j :| 0 <= j < |w| && PeerRound(w[j]) == Some(hi);
      assert Apart(w[i], w[j]) && Apart(w[j], w[i]);
    }
  }

  /** The loop that follows the signature. */
  method FollowSignature(samples: seq<Sample>) returns (t: Track)
    ensures t == Walk(samples)
  {
    t := Track(None, 0);
    for i := 0 to |samples|
      invariant t == Walk(samples[..i])
    {
      assert samples[..i + 1][..i] == samples[..i];
      var sig := Signature(samples[i]);
      if sig.None? {
        continue;
      }
      if sig != t.sig {
        t := Track(sig, i);
      }
    }
    assert samples[..|samples|] == samples;
  }

  method FindStallStart(samples: seq<Sample>) returns (first: nat)
    requires samples != []
    ensures first == StallStart(samples)
  {
    first := |samples| - 1;
    assert samples[..|samples|] == samples;
    while first > 0 && samples[first - 1].node.stall.Some?
      invariant first < |samples| && StallStart(samples) == StallStart(samples[..first + 1])
    {
      assert samples[..first + 1][..first] == samples[..first];
      first := first - 1;
    }
  }

  /** `classify`. */
  method Classify(samples: seq<Sample>, a: Allowances) returns (v: Verdict)
    ensures v == Classified(samples, a)
  {
    hide Walk, PeerMoved, StallStart;
    if samples == [] {
      return Verdict(Ok, None, None, None);
    }
    var last := samples[|samples| - 1];
    if last.node.stall.Some? {
      var first := FindStallStart(samples);
      return Verdict(InvalidBlockStall, LastPhase(samples), last.node.stall, Some(last.ts - samples[first].ts));
    }
    if !last.node.ok {
      return Verdict(NodeFailure, None, LastKnown(samples), None);
    }
    LastSignature(samples);
    var t := FollowSignature(samples);
    var stalledFor := last.ts - samples[t.idx].ts;
    var sig := t.sig.value;
    var verifying := sig.Importing? && (IsVerifying(last) || IsDownloading(last));
    var postVerify := !verifying && sig.Importing? && IsPostVerify(last);
    var halt := if verifying then a.verify * 60.0
                else if postVerify then (if a.postVerify < a.halt then a.halt else a.postVerify) * 60.0
                else a.halt * 60.0;
    if stalledFor < halt {
      return Verdict(Ok, Some(PhaseOf(sig)), None, None);
    }
    var advancing := PeerAdvancing(samples, t.idx);
    v := Verdict(if advancing then Stuck else SourceOutage, Some(PhaseOf(sig)), RoundOf(sig), Some(stalledFor));
  }

  // ---- "advancing" as documented ------------------------------------------------------------------------------

  /** The peer was seen at a round and later at a higher one. */
  ghost predicate Rose(w: seq<Sample>) {
    exists i, j | 0 <= i < j < |w| ::
      PeerRound(w[i]).Some? && PeerRound(w[j]).Some? && PeerRound(w[i]).value < PeerRound(w[j]).value
  }

  /** The peer's rounds in the order they were seen. */
  function Seen(w: seq<Sample>): seq<int> {
    if w == [] then []
    else (if PeerRound(w[0]).Some? then [PeerRound(w[0]).value] else []) + Seen(w[1..])
  }

  /** No round seen is above the one seen before it, and the last is below the first. */
  predicate OnlyFell(w: seq<Sample>) {
    var rs := Seen(w);
    rs != [] && (forall k | 0 <= k < |rs| - 1 :: rs[k + 1] <= rs[k]) && rs[|rs| - 1] < rs[0]
  }

  /** How many rounds were seen before sample i. */
  ghost function Rank(w: seq<Sample>, i: nat): nat
    requires i < |w|
  {
    if i == 0 then 0 else (if PeerRound(w[0]).Some? then 1 else 0) + Rank(w[1..], i - 1)
  }

  lemma {:induction false} SeenThere(w: seq<Sample>, i: nat)
    requires i < |w| && PeerRound(w[i]).Some?
    ensures Rank(w, i) < |Seen(w)| && Seen(w)[Rank(w, i)] == PeerRound(w[i]).value
  {
    if i > 0 { SeenThere(w[1..], i - 1); }
  }

  lemma {:induction false} RankRises(w: seq<Sample>, i: nat, j: nat)
    requires i < j < |w| && PeerRound(w[i]).Some?
    ensures Rank(w, i) < Rank(w, j)
  {
    if i > 0 { RankRises(w[1..], i - 1, j - 1); }
  }

  /** Where the k-th round seen was seen. */
  ghost function SeenAt(w: seq<Sample>, k: nat): (i: nat)
    requires k < |Seen(w)|
    ensures i < |w| && PeerRound(w[i]) == Some(Seen(w)[k])
  {
    if PeerRound(w[0]).None? then SeenAt(w[1..], k) + 1
    else if k == 0 then 0
    else SeenAt(w[1..], k - 1) + 1
  }

  lemma {:induction false} SeenInOrder(w: seq<Sample>, x: nat, y: nat)
    requires x < y < |Seen(w)|
    ensures SeenAt(w, x) < SeenAt(w, y)
  {
    if PeerRound(w[0]).None? {
      SeenInOrder(w[1..], x, y);
    } else if x > 0 {
      SeenInOrder(w[1..], x - 1, y - 1);
    }
  }

  lemma {:induction false} Descends(rs: seq<int>, x: nat, y: nat)
    requires x <= y < |rs| && forall k | 0 <= k < |rs| - 1 :: rs[k + 1] <= rs[k]
    ensures rs[y] <= rs[x]
    decreases y
  {
    if x < y { Descends(rs, x, y - 1); }
  }

  /** "Advancing" and "increased" part exactly on a peer that was seen to fall and never to rise. */
  lemma MovedIsRose(w: seq<Sample>)
    ensures (PeerMoved(w) <==> Rose(w)) <==> !OnlyFell(w)
  {
    hide Seen, OnlyFell;
    if OnlyFell(w) { FellMoved(w); }
    if Rose(w) {
      var i, j :| 0 <= i < j < |w| && PeerRound(w[i]).Some? && PeerRound(w[j]).Some?
                  && PeerRound(w[i]).value < PeerRound(w[j]).value;
      assert Apart(w[i], w[j]);
      RoseNotFell(w, i, j);
    } else if PeerMoved(w) {
      var i, j :| 0 <= i < j < |w| && Apart(w[i], w[j]);
      FellOnly(w, i, j);
    }
  }

  lemma FellMoved(w: seq<Sample>)
    requires OnlyFell(w)
    ensures PeerMoved(w)
  {
    hide Seen, SeenAt;
    var last := |Seen(w)| - 1;
    SeenInOrder(w, 0, last);
    assert Apart(w[SeenAt(w, 0)], w[SeenAt(w, last)]);
  }

  lemma RoseNotFell(w: seq<Sample>, i: nat, j: nat)
    requires i < j < |w| && PeerRound(w[i]).Some? && PeerRound(w[j]).Some?
    requires PeerRound(w[i]).value < PeerRound(w[j]).value
    ensures !OnlyFell(w)
  {
    hide Seen, Rank;
    SeenThere(w, i);
    SeenThere(w, j);
    RankRises(w, i, j);
    var rs := Seen(w);
    if forall k | 0 <= k < |rs| - 1 :: rs[k + 1] <= rs[k] { Descends(rs, Rank(w, i), Rank(w, j)); }
  }

  lemma FellOnly(w: seq<Sample>, i: nat, j: nat)
    requires i < j < |w| && Apart(w[i], w[j]) && !Rose(w)
    ensures OnlyFell(w)
  {
    hide Seen, Rank, SeenAt;
    var rs := Seen(w);
    forall k | 0 <= k < |rs| - 1
      ensures rs[k + 1] <= rs[k]
    {
      SeenInOrder(w, k, k + 1);
    }
    SeenThere(w, i);
    SeenThere(w, j);
    RankRises(w, i, j);
    Descends(rs, 0, Rank(w, i));
    Descends(rs, Rank(w, j), |rs| - 1);
    assert PeerRound(w[i]).value > PeerRound(w[j]).value;
  }

  lemma HeldInside(samples: seq<Sample>, a: Allowances, c: nat)
    requires HeldFrom(samples, a, c)
    ensures c < |samples|
  {
  }

  /** `stuck` as its documentation puts it. */
  ghost predicate StuckAsDocumented(samples: seq<Sample>, a: Allowances) {
    Reached(samples) && exists c: nat :: HeldFrom(samples, a, c) && Rose(samples[c..])
  }

  /** The verdict is the documented one unless, since the signature froze, the peer only fell. */
  lemma StuckIsDocumented(samples: seq<Sample>, a: Allowances)
    ensures (Classified(samples, a).status == Stuck <==> StuckAsDocumented(samples, a)) <==>
              !(Reached(samples) && exists c: nat :: HeldFrom(samples, a, c) && OnlyFell(samples[c..]))
  {
    hide Classified, PeerMoved, Rose, OnlyFell, FrozenSince, Signature, Allowed;
    StatusMeans(samples, a);
    if Reached(samples) && exists c: nat :: HeldFrom(samples, a, c) {
      var c: nat :| HeldFrom(samples, a, c);
      forall d: nat | HeldFrom(samples, a, d)
        ensures d == c
      {
        FrozenUnique(samples, c, d, Signature(samples[|samples| - 1]).value);
      }
      HeldInside(samples, a, c);
      MovedIsRose(samples[c..]);
    }
  }

  function Polled(ts: real, peerRound: int): Sample {
    Sample(ts, Node(true, "", Counters(None, None, None, None, None, None, None, None), Some(10), None),
           Peer(true, Some(peerRound)))
  }

  /** A node held at round 10 for an hour while the peer went from 7 to 5: `stuck`, though the peer
      never rose. */
  lemma FallingPeerCounts()
    ensures var samples := [Polled(0.0, 7), Polled(3600.0, 5)];
      && Classified(samples, Allowances(10.0, 30.0, 30.0)).status == Stuck
      && !StuckAsDocumented(samples, Allowances(10.0, 30.0, 30.0))
  {
    var x, y := Polled(0.0, 7), Polled(3600.0, 5);
    var samples, a := [x, y], Allowances(10.0, 30.0, 30.0);
    FrozenSpan(x, y);
    assert HeldFrom(samples, a, 0);
    assert samples[0..] == samples;
    assert Apart(samples[0], samples[1]);
    StatusMeans(samples, a);
  }

  lemma FrozenSpan(x: Sample, y: Sample)
    requires Signature(x).Some? && Signature(x) == Signature(y)
    ensures FrozenSince([x, y], 0, Signature(y).value)
  {
  }
}

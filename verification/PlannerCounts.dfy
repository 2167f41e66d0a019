/** The counting part of the planner's invariant: sums over records, and why the admin's units never
    run out. */
module PlannerCounts {
  import opened Ledger
  import opened Planner
  import opened PlannerInv

  lemma {:induction false} SumBalUpdate(accts: seq<Acct>, i: nat, a: Acct)
    requires i < |accts|
    ensures accts[i].balA <= SumBal(accts)
    ensures SumBal(accts[i := a]) == SumBal(accts) - accts[i].balA + a.balA
  {
    if i == 0 {
      assert accts[0 := a][1..] == accts[1..];
    } else {
      SumBalUpdate(accts[1..], i - 1, a);
      assert accts[i := a][1..] == accts[1..][i - 1 := a];
    }
  }

  /** Two accounts together hold no more than all of them. */
  lemma SumBalPair(accts: seq<Acct>, i: nat, j: nat)
    requires i < |accts| && j < |accts| && i != j
    ensures accts[i].balA + accts[j].balA <= SumBal(accts)
  {
    var without := accts[i := accts[i].(balA := 0)];
    SumBalUpdate(accts, i, accts[i].(balA := 0));
    SumBalUpdate(without, j, without[j]);
  }

  lemma {:induction false} EphUpdate(eph: seq<Eph>, e: nat, p: Phase)
    requires e < |eph|
    ensures InFlight(eph[e := eph[e].(phase := p)]) ==
      InFlight(eph) - (if eph[e].phase.Granted? then 1 else 0) + (if p.Granted? then 1 else 0)
    ensures forall r: nat :: OpenedIn(eph[e := eph[e].(phase := p)], r) == OpenedIn(eph, r)
  {
    var x := eph[e].(phase := p);
    if e == 0 {
      assert eph[0 := x][1..] == eph[1..];
    } else {
      EphUpdate(eph[1..], e - 1, p);
      assert eph[e := x][1..] == eph[1..][e - 1 := x];
    }
  }

  lemma {:induction false} EphAppend(eph: seq<Eph>, x: Eph)
    ensures InFlight(eph + [x]) == InFlight(eph) + (if x.phase.Granted? then 1 else 0)
    ensures forall r: nat :: OpenedIn(eph + [x], r) == OpenedIn(eph, r) + (if x.start == r then 1 else 0)
  {
    if eph == [] {
      assert [x][1..] == [];
    } else {
      EphAppend(eph[1..], x);
      assert (eph + [x])[1..] == eph[1..] + [x];
    }
  }

  /** Units are held for one round, so only two rounds' ephemerals can hold them at a time. */
  lemma {:induction false} InFlightBound(eph: seq<Eph>, a: nat, b: nat)
    requires forall e | 0 <= e < |eph| && eph[e].phase.Granted? :: eph[e].start == a || eph[e].start == b
    ensures InFlight(eph) <= OpenedIn(eph, a) + OpenedIn(eph, b)
  {
    if eph != [] {
      forall e | 0 <= e < |eph[1..]| && eph[1..][e].phase.Granted?
        ensures eph[1..][e].start == a || eph[1..][e].start == b
      {
        assert eph[1..][e] == eph[e + 1];
      }
      InFlightBound(eph[1..], a, b);
    }
  }

  lemma {:induction false} RangeCard(xs: set<nat>, n: nat)
    requires forall x | x in xs :: 0 < x <= n
    ensures |xs| <= n
  {
    if n == 0 {
      assert xs == {};
    } else {
      RangeCard(xs - {n}, n - 1);
      if n in xs { assert |xs| == |xs - {n}| + 1; } else { assert xs - {n} == xs; }
    }
  }

  /** uint64 arithmetic does not wrap below the asset's total. */
  lemma NoWrap(a: nat, b: nat)
    ensures a + b <= ASSET_A_TOTAL ==> Add64(a, b) == a + b
    ensures b <= a <= ASSET_A_TOTAL ==> Sub64(a, b) == a - b
  {
  }

  // ---- keeping the counts ------------------------------------------------------------------------

  /** More accounts busy, everything counted unchanged. */
  lemma BusyCounts(g: Gen, g': Gen, xs: set<nat>)
    requires Counts(g) && (forall x | x in xs :: 0 < x < |g.accts|)
    requires g'.busy == g.busy + xs && g'.rounds == g.rounds && g'.round == g.round && g'.granted == g.granted
    requires g'.eph == g.eph && g'.inners == g.inners && |g'.accts| == |g.accts|
    requires g'.accts[0].balA == g.accts[0].balA && SumBal(g'.accts) == SumBal(g.accts)
    ensures Counts(g')
  {
    CardGrows(g.busy, xs);
  }

  lemma CardGrows(a: set<nat>, b: set<nat>)
    ensures |a| <= |a + b|
    ensures a !! b ==> |a + b| == |a| + |b|
  {
    assert |a + b| == |a| + |b - a|;
    if a !! b { assert b - a == b; }
  }

  /** One more unit from the main application to account a. */
  lemma InnerCounts(g: Gen, g': Gen, a: nat)
    requires Counts(g) && 0 < a < |g.accts| && a !in g.busy && g.inners < APP_ASSET_FUND
    requires g' == g.(busy := g.busy + {a}, inners := g.inners + 1, accts := g'.accts, noteCtr := g'.noteCtr)
    requires |g'.accts| == |g.accts| && g'.accts[0].balA == g.accts[0].balA && SumBal(g'.accts) == SumBal(g.accts) + 1
    ensures Counts(g')
  {
    CardGrows(g.busy, {a});
  }

  /** Within the bounds, the main application has a unit for one more account of the round. */
  lemma InnerSupply(g: Gen, a: nat)
    requires Counts(g) && 0 < a < |g.accts| && a !in g.busy && Fits(|g.accts|, g.rounds)
    ensures g.inners < APP_ASSET_FUND
  {
    var n := |g.accts| - 1;
    CardGrows(g.busy, {a});
    RangeCard(g.busy + {a}, n);
    assert g.inners + 1 <= (g.round - 1) * n + n == g.round * n;
    assert g.round * n <= g.rounds * n by { MulMono(g.round, g.rounds, n); }
  }

  lemma MulMono(a: nat, b: nat, n: nat)
    requires a <= b
    ensures a * n <= b * n
  {
  }

  lemma OpenCounts(g: Gen, g': Gen, f: nat)
    requires Counts(g) && 0 < f < |g.accts| && f !in g.busy
    requires g'.busy == g.busy + {f} && g'.eph == g.eph + [Eph(g.round, f, Opened)]
    requires g'.rounds == g.rounds && g'.round == g.round && g'.granted == g.granted && g'.inners == g.inners
    requires g'.accts == g.accts
    ensures Counts(g')
  {
    CardGrows(g.busy, {f});
    RangeCard(g'.busy, |g.accts| - 1);
    EphAppend(g.eph, Eph(g.round, f, Opened));
  }

  /** Ephemerals that hold units close them in the round after the grant. */
  ghost predicate ClosingSoon(g: Gen) {
    forall e | 0 <= e < |g.eph| && g.eph[e].phase.Granted? :: g.round <= g.eph[e].start + 3
  }

  /** Within the bounds, the admin has the units for one more opt-in grant. */
  lemma GrantSupply(g: Gen, x: nat)
    requires Counts(g) && 0 < x < |g.accts| && x !in g.granted && ClosingSoon(g) && Fits(|g.accts|, g.rounds)
    ensures OPT_IN_GRANT <= g.accts[0].balA
  {
    var n := |g.accts| - 1;
    InFlightNow(g);
    CardGrows(g.granted, {x});
    RangeCard(g.granted + {x}, n);
    Supply(|g.granted + {x}|, InFlight(g.eph), n);
  }

  lemma GrantCounts(g: Gen, g': Gen, x: nat)
    requires Counts(g) && 0 < x < |g.accts| && x !in g.granted && OPT_IN_GRANT <= g.accts[0].balA
    requires g'.granted == g.granted + {x} && g'.busy == g.busy && g'.rounds == g.rounds && g'.round == g.round
    requires g'.eph == g.eph && g'.inners == g.inners && |g'.accts| == |g.accts|
    requires g'.accts[0].balA == g.accts[0].balA - OPT_IN_GRANT && SumBal(g'.accts) == SumBal(g.accts)
    ensures Counts(g')
  {
    CardGrows(g.granted, {x});
  }

  /** Within the bounds, the admin has the units for one more ephemeral account. */
  lemma EphSupply(g: Gen, e: nat)
    requires Counts(g) && ClosingSoon(g) && e < |g.eph| && g.eph[e].phase.OptedIn? && g.eph[e].start + 2 == g.round
    requires Fits(|g.accts|, g.rounds)
    ensures EPHEMERAL_UNITS <= g.accts[0].balA
  {
    var n := |g.accts| - 1;
    var after := g.(eph := g.eph[e := g.eph[e].(phase := Granted)]);
    EphUpdate(g.eph, e, Granted);
    var a, b := if g.round >= 3 then g.round - 3 else 0, g.round - 2;
    InFlightBound(after.eph, a, b);
    assert OpenedIn(g.eph, a) <= n && OpenedIn(g.eph, b) <= n;
    RangeCard(g.granted, n);
    Supply(|g.granted|, InFlight(g.eph) + 1, n);
  }

  /** A phase change, with the admin's balance following the units. */
  lemma PhaseCounts(g: Gen, g': Gen, e: nat, p: Phase)
    requires Counts(g) && e < |g.eph| && g'.eph == g.eph[e := g.eph[e].(phase := p)]
    requires g'.granted == g.granted && g'.busy == g.busy && g'.rounds == g.rounds && g'.round == g.round
    requires g'.inners == g.inners && |g'.accts| == |g.accts|
    requires p.Granted? ==> g.eph[e].start + 2 <= g.round
    requires OPT_IN_GRANT * |g.granted| + EPHEMERAL_UNITS * InFlight(g'.eph) <= ASSET_A_TOTAL - APP_ASSET_FUND
    requires g'.accts[0].balA ==
        g.accts[0].balA - EPHEMERAL_UNITS * InFlight(g'.eph) + EPHEMERAL_UNITS * InFlight(g.eph)
    requires SumBal(g'.accts) - SumBal(g.accts) == g'.accts[0].balA - g.accts[0].balA
    ensures Counts(g')
  {
    EphUpdate(g.eph, e, p);
    forall r: nat
      ensures OpenedIn(g'.eph, r) <= |g'.accts| - 1
    {
      assert OpenedIn(g'.eph, r) == OpenedIn(g.eph, r);
    }
    forall x | 0 <= x < |g'.eph|
      ensures g'.eph[x].start <= g'.round && g'.eph[x].funder < |g'.accts|
      ensures g'.eph[x].phase.Granted? ==> g'.eph[x].start + 2 <= g'.round
    {
      assert g.eph[x].start <= g.round;
    }
  }

  /** The supply suffices for n grants and 2n ephemerals in flight. */
  lemma Supply(a: nat, b: nat, n: nat)
    requires a <= n && b <= 2 * n && n * (OPT_IN_GRANT + 2 * EPHEMERAL_UNITS) <= ASSET_A_TOTAL - APP_ASSET_FUND
    ensures OPT_IN_GRANT * a + EPHEMERAL_UNITS * b <= ASSET_A_TOTAL - APP_ASSET_FUND
  {
  }

  lemma InFlightNow(g: Gen)
    requires Counts(g) && ClosingSoon(g)
    ensures InFlight(g.eph) <= 2 * (|g.accts| - 1)
  {
    var a, b := if g.round >= 3 then g.round - 3 else 0, if g.round >= 2 then g.round - 2 else 0;
    InFlightBound(g.eph, a, b);
    assert OpenedIn(g.eph, a) <= |g.accts| - 1 && OpenedIn(g.eph, b) <= |g.accts| - 1;
  }
}

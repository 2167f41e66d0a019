/** Which parts of the agreement between generator and ledger a change can touch. */
module PlannerMatch {
  import opened Optional
  import opened Ledger
  import opened Planner
  import opened PlannerInv

  ghost predicate HoldsSame(s: State, s': State, k: (Addr, nat)) {
    (k in s'.hold <==> k in s.hold) && (k in s.hold ==> s'.hold[k] == s.hold[k])
  }

  /** The ledger treats account i as before, and so does the generator. */
  ghost predicate SameRecord(g: Gen, s: State, g': Gen, s': State, i: nat)
    requires i < |g.accts| == |g'.accts|
  {
    var me := Account(i);
    && g'.accts[i].(reserved := 0) == g.accts[i].(reserved := 0) && (i in g'.frozen <==> i in g.frozen)
    && (me in s.live ==> me in s'.live)
    && (me in s'.auth <==> me in s.auth) && (me in s.auth ==> s'.auth[me] == s.auth[me])
    && HoldsSame(s, s', (me, g.assetA))
    && ((me, g.mainApp) in s'.local <==> (me, g.mainApp) in s.local)
    && (me in s'.online <==> me in s.online)
  }

  lemma AccountsFrame(g: Gen, s: State, g': Gen, s': State, xs: set<nat>)
    requires Accounts(g, s) && |g'.accts| == |g.accts| && g'.assetA == g.assetA && g'.mainApp == g.mainApp
    requires forall i | 0 <= i < |g.accts| && i !in xs :: SameRecord(g, s, g', s', i)
    requires forall i | i in xs && 0 <= i < |g.accts| :: AcctMatch(g', s', i)
    ensures Accounts(g', s')
  {
    forall i | 0 <= i < |g'.accts|
      ensures AcctMatch(g', s', i)
    {
      if i !in xs {
        assert AcctMatch(g, s, i) && SameRecord(g, s, g', s', i);
      }
    }
  }

  lemma BoxesFrame(g: Gen, s: State, g': Gen, s': State)
    requires Boxes(g, s) && g'.boxes == g.boxes && g'.boxCtr == g.boxCtr && s'.boxes == s.boxes
    ensures Boxes(g', s')
  {
  }

  /** Nothing in the books moves but the notes. */
  lemma BooksFrame(g: Gen, s: State, g': Gen, s': State)
    requires Books(g, s) && |g'.accts| == |g.accts|
    requires g'.accts[0].optA && g'.accts[0].auth.None? && 0 !in g'.frozen
    requires g'.assetA == g.assetA && g'.mainApp == g.mainApp && g'.calleeApp == g.calleeApp
    requires g'.inners == g.inners && g'.nextId == g.nextId
    requires s'.assets == s.assets && s'.apps == s.apps && s'.nextId == s.nextId
    requires AppAddr(g.mainApp) in s'.live && HoldsSame(s, s', (AppAddr(g.mainApp), g.assetA))
    requires g.noteCtr <= g'.noteCtr && UpTo(s'.notes, g'.noteCtr)
    ensures Books(g', s')
  {
  }

  ghost predicate SameEph(g: Gen, s: State, g': Gen, s': State, e: nat)
    requires e < |g.eph| && e < |g'.eph|
  {
    && g'.eph[e].phase == g.eph[e].phase
    && (Ephemeral(e) in s.live ==> Ephemeral(e) in s'.live) && HoldsSame(s, s', (Ephemeral(e), g.assetA))
  }

  lemma EphsFrame(g: Gen, s: State, g': Gen, s': State, es: set<nat>)
    requires Ephs(g, s) && |g'.eph| == |g.eph| && g'.assetA == g.assetA
    requires forall e | 0 <= e < |g.eph| && e !in es :: SameEph(g, s, g', s', e)
    requires forall e | e in es && 0 <= e < |g.eph| :: EphMatch(g', s', e)
    requires forall e: nat | |g.eph| <= e :: (Ephemeral(e), g.assetA) !in s'.hold
    requires forall a | a in s'.auth :: a.Account?
    requires forall k | k in s'.hold && k !in s.hold && k.0.Ephemeral? :: k.1 == g.assetA
    requires forall k | k in s'.local :: k.0.Account?
    ensures Ephs(g', s')
  {
    forall e | 0 <= e < |g'.eph|
      ensures EphMatch(g', s', e)
    {
      if e !in es {
        assert EphMatch(g, s, e) && SameEph(g, s, g', s', e);
      }
    }
  }

  lemma ThrowsFrame(g: Gen, s: State, g': Gen, s': State)
    requires Throws(g, s) && g'.throws == g.throws && |g'.accts| == |g.accts| && g'.round == g.round
    requires g'.assetA == g.assetA && g'.calleeApp == g.calleeApp
    requires s'.apps == s.apps && s'.assets == s.assets && s'.nextId == s.nextId
    requires forall i: nat, id: nat | id != g.assetA :: HoldsSame(s, s', (Account(i), id))
    ensures Throws(g', s')
  {
    forall t | 0 <= t < |g'.throws|
      ensures ThrowMatch(g', s', t)
    {
      assert ThrowMatch(g, s, t);
      assert HoldsSame(s, s', (Account(g.throws[t].creator), g.throws[t].actual)) || g.throws[t].actual == g.assetA;
    }
  }

  /** A transaction that changes nothing but the set of notes. */
  lemma QuietMatches(g: Gen, s: State, g': Gen, s': State)
    requires Matches(g, s) && s' == s.(notes := s'.notes)
    requires g' == g.(busy := g'.busy, todo := g'.todo, sched := g'.sched, noteCtr := g'.noteCtr, accts := g'.accts)
    requires |g'.accts| == |g.accts|
    requires forall i | 0 <= i < |g.accts| :: g'.accts[i].(reserved := 0) == g.accts[i].(reserved := 0)
    requires g.noteCtr <= g'.noteCtr && UpTo(s'.notes, g'.noteCtr)
    ensures Matches(g', s')
  {
    hide Boxes, Accounts, Ephs, Throws;
    AccountsFrame(g, s, g', s', {});
    BoxesFrame(g, s, g', s');
    BooksFrame(g, s, g', s');
    EphsQuiet(g, s, g', s');
    ThrowsFrame(g, s, g', s');
  }

  lemma EphsQuiet(g: Gen, s: State, g': Gen, s': State)
    requires Ephs(g, s) && g'.eph == g.eph && g'.assetA == g.assetA
    requires s'.live >= s.live && s'.hold == s.hold && s'.auth.Keys <= s.auth.Keys && s'.local <= s.local
    ensures Ephs(g', s')
  {
    EphsFrame(g, s, g', s', {});
  }
}

/** Looking back in history: the pre-state finder and the doubling windows of
    scripts/capture_mainnet_corpus.py, and the newest-first box scan of benchmarks/go-replay/state.go. */
module History {
  import opened Optional
  import opened Binomial

  // ---- find_account -----------------------------------------------------------------------------------------

  type Address = nat

  datatype Record = Record(addr: Address, data: nat)

  /** The account records that each round wrote. */
  type Deltas = int -> seq<Record>

  const PRESCAN: int := 40

  /** The first record for an address in a list. */
  function FirstFor(recs: seq<Record>, a: Address): Option<Record> {
    if recs == [] then None else if recs[0].addr == a then Some(recs[0]) else FirstFor(recs[1..], a)
  }

  predicate Wrote(deltas: Deltas, r: int, a: Address) {
    FirstFor(deltas(r), a).Some?
  }

  /** The newest round below `before` and not below `from` that wrote the account is r. */
  ghost predicate NewestIn(deltas: Deltas, a: Address, from: int, before: int, r: int) {
    from <= r < before && Wrote(deltas, r, a) && forall q | r < q < before :: !Wrote(deltas, q, a)
  }

  /** What a cache of the rounds [from, before) must hold for one account. */
  ghost predicate CachedFor(deltas: Deltas, from: int, before: int, m: map<Address, Record>, a: Address) {
    if a in m then exists r :: NewestIn(deltas, a, from, before, r) && FirstFor(deltas(r), a) == Some(m[a])
    else forall q | from <= q < before :: !Wrote(deltas, q, a)
  }

  ghost predicate Caches(deltas: Deltas, from: int, before: int, m: map<Address, Record>) {
    forall a :: CachedFor(deltas, from, before, m, a)
  }

  /** One delta's records, older than everything cached so far: the cached ones stay. */
  method AddRecords(recs: seq<Record>, m: map<Address, Record>) returns (m': map<Address, Record>)
    ensures forall a :: a in m' <==> a in m || FirstFor(recs, a).Some?
    ensures forall a | a in m' :: m'[a] == if a in m then m[a] else FirstFor(recs, a).value
  {
    m' := m;
    for i := 0 to |recs|
      invariant forall a :: a in m' <==> a in m || FirstFor(recs[..i], a).Some?
      invariant forall a | a in m' :: m'[a] == if a in m then m[a] else FirstFor(recs[..i], a).value
    {
      FirstForNext(recs, i);
      if recs[i].addr !in m' {
        m' := m'[recs[i].addr := recs[i]];
      }
    }
    assert recs[..|recs|] == recs;
  }

  lemma FirstForNext(recs: seq<Record>, i: nat)
    requires i < |recs|
    ensures forall a :: FirstFor(recs[..i + 1], a) ==
              if FirstFor(recs[..i], a).Some? then FirstFor(recs[..i], a)
              else if recs[i].addr == a then Some(recs[i]) else None
  {
    forall a
      ensures FirstFor(recs[..i + 1], a) ==
              if FirstFor(recs[..i], a).Some? then FirstFor(recs[..i], a)
              else if recs[i].addr == a then Some(recs[i]) else None
    {
      assert recs[..i + 1] == recs[..i] + [recs[i]];
      FirstForAppend(recs[..i], recs[i], a);
    }
  }

  lemma {:induction false} FirstForAppend(recs: seq<Record>, x: Record, a: Address)
    ensures FirstFor(recs + [x], a) ==
              if FirstFor(recs, a).Some? then FirstFor(recs, a) else if x.addr == a then Some(x) else None
  {
    if recs == [] {
      assert recs + [x] == [x] && [x][1..] == [];
    } else {
      assert (recs + [x])[1..] == recs[1..] + [x];
      FirstForAppend(recs[1..], x, a);
    }
  }

  lemma CachesMore(deltas: Deltas, from: int, before: int, m: map<Address, Record>, m': map<Address, Record>)
    requires from <= before && Caches(deltas, from, before, m)
    requires forall a :: a in m' <==> a in m || FirstFor(deltas(from - 1), a).Some?
    requires forall a | a in m' :: m'[a] == if a in m then m[a] else FirstFor(deltas(from - 1), a).value
    ensures Caches(deltas, from - 1, before, m')
  {
    hide FirstFor;
    var lo := from - 1;
    forall a
      ensures CachedFor(deltas, lo, before, m', a)
    {
      assert CachedFor(deltas, from, before, m, a);
      if a in m {
        var r :| NewestIn(deltas, a, from, before, r) && FirstFor(deltas(r), a) == Some(m[a]);
        assert NewestIn(deltas, a, from - 1, before, r);
      } else if a in m' {
        assert NewestIn(deltas, a, from - 1, before, from - 1);
      } else {
        assert !Wrote(deltas, from - 1, a);
      }
    }
  }

  ghost predicate Descending(rs: seq<int>) {
    forall i, j | 0 <= i < j < |rs| :: rs[i] > rs[j]
  }

  /** The candidate rounds are usable: newest first, and none that wrote the account before the window
      is missing. Candidates inside the window, or that wrote something else, do no harm. */
  ghost predicate Complete(deltas: Deltas, a: Address, before: int, rounds: seq<int>) {
    Descending(rounds) && forall r | r < before - PRESCAN && Wrote(deltas, r, a) :: r in rounds
  }

  class Finder {
    const deltas: Deltas
    var cache: map<int, map<Address, Record>>

    constructor (deltas: Deltas)
      ensures Valid() && this.deltas == deltas && cache == map[]
    {
      this.deltas, cache := deltas, map[];
    }

    ghost predicate Valid()
      reads this
    {
      forall b | b in cache :: Caches(deltas, b - PRESCAN, b, cache[b])
    }

    /** `prescan`: the latest record per account over the last PRESCAN rounds. */
    method Prescan(before: int) returns (accts: map<Address, Record>)
      ensures Caches(deltas, before - PRESCAN, before, accts)
    {
      accts := map[];
      var rr := before;
      while rr > before - PRESCAN
        invariant before - PRESCAN <= rr <= before && Caches(deltas, rr, before, accts)
      {
        ghost var m := accts;
        accts := AddRecords(deltas(rr - 1), accts);
        CachesMore(deltas, rr, before, m, accts);
        rr := rr - 1;
      }
    }

    /** `find_account`, exact: the record of the newest round below `before` that wrote the account,
        and none exactly when no round below `before` wrote it; whatever was cached by earlier calls. */
    method FindAccount(a: Address, before: int, rounds: seq<int>) returns (rec: Option<Record>)
      requires Valid() && Complete(deltas, a, before, rounds)
      modifies this`cache
      ensures Valid() && old(cache.Keys) + {before} == cache.Keys
      ensures rec.None? <==> forall q | q < before :: !Wrote(deltas, q, a)
      ensures rec.Some? ==> exists r :: r < before && NewestIn(deltas, a, r, before, r) && FirstFor(deltas(r), a) == rec
    {
      hide FirstFor;
      if before !in cache {
        var m := Prescan(before);
        cache := cache[before := m];
      }
      var hit := cache[before];
      assert CachedFor(deltas, before - PRESCAN, before, hit, a);
      if a in hit {
        ghost var r :| NewestIn(deltas, a, before - PRESCAN, before, r) && FirstFor(deltas(r), a) == Some(hit[a]);
        assert NewestIn(deltas, a, r, before, r);
        return Some(hit[a]);
      }
      for i := 0 to |rounds|
        invariant forall j | 0 <= j < i && rounds[j] < before - PRESCAN :: !Wrote(deltas, rounds[j], a)
      {
        var r := rounds[i];
        if r >= before - PRESCAN {
          continue;
        }
        var found := FirstFor(deltas(r), a);
        if found.Some? {
          NothingNewer(deltas, a, before, rounds, i);
          assert NewestIn(deltas, a, r, before, r);
          return found;
        }
      }
      return None;
    }
  }

  lemma NothingNewer(deltas: Deltas, a: Address, before: int, rounds: seq<int>, i: nat)
    requires Complete(deltas, a, before, rounds) && i < |rounds| && rounds[i] < before - PRESCAN
    requires forall q | before - PRESCAN <= q < before :: !Wrote(deltas, q, a)
    requires forall j | 0 <= j < i && rounds[j] < before - PRESCAN :: !Wrote(deltas, rounds[j], a)
    ensures forall q | rounds[i] < q < before :: !Wrote(deltas, q, a)
  {
    hide Wrote;
    forall q | rounds[i] < q < before
      ensures !Wrote(deltas, q, a)
    {
      if q in rounds && q < before - PRESCAN {
        var j :| 0 <= j < |rounds| && rounds[j] == q;
        assert j < i;
      }
    }
  }

  // ---- global_rounds ------------------------------------------------------------------------------------------

  /** The rounds of [lo, hi] with a matching transaction, newest first. */
  function Matching(has: int -> bool, lo: int, hi: int): seq<int>
    decreases hi - lo
  {
    if hi < lo then [] else (if has(hi) then [hi] else []) + Matching(has, lo, hi - 1)
  }

  /** Every matching round exactly once, in strictly descending order. */
  lemma {:induction false} MatchingAll(has: int -> bool, lo: int, hi: int)
    ensures forall r :: r in Matching(has, lo, hi) <==> lo <= r <= hi && has(r)
    ensures Descending(Matching(has, lo, hi))
    decreases hi - lo
  {
    hide Descending;
    if lo <= hi {
      MatchingAll(has, lo, hi - 1);
      FrontDescending(hi, Matching(has, lo, hi - 1));
      assert [] + Matching(has, lo, hi - 1) == Matching(has, lo, hi - 1);
    } else {
      NoneDescending();
    }
  }

  lemma NoneDescending()
    ensures Descending([])
  {
  }

  lemma FrontDescending(x: int, s: seq<int>)
    requires Descending(s) && forall y | y in s :: y < x
    ensures Descending([x] + s)
  {
    assert forall i | 0 < i < |[x] + s| :: ([x] + s)[i] == s[i - 1] && s[i - 1] in s;
  }

  lemma {:induction false} MatchingSplit(has: int -> bool, lo: int, mid: int, hi: int)
    requires lo <= mid <= hi + 1
    ensures Matching(has, lo, hi) == Matching(has, mid, hi) + Matching(has, lo, mid - 1)
    decreases hi - lo
  {
    if mid <= hi {
      MatchingSplit(has, lo, mid, hi - 1);
      var x := if has(hi) then [hi] else [];
      assert x + (Matching(has, mid, hi - 1) + Matching(has, lo, mid - 1))
          == x + Matching(has, mid, hi - 1) + Matching(has, lo, mid - 1);
    } else {
      assert Matching(has, mid, hi) == [];
    }
  }

  datatype Window = Window(lo: int, hi: int)

  /** Windows that follow one another downwards from `top` without gap or overlap, each of the doubled
      size unless it is cut off at `bottom`. */
  ghost predicate Tiles(ws: seq<Window>, bottom: int, top: int) {
    && (ws != [] ==> ws[0].hi == top)
    && (forall k | 0 <= k < |ws| ::
          bottom <= ws[k].lo <= ws[k].hi && (ws[k].lo == bottom || ws[k].hi - ws[k].lo + 1 == Pow2(k + 1)))
    && (forall k | 0 < k < |ws| :: ws[k].hi == ws[k - 1].lo - 1)
  }

  /** k windows that stop short of the bottom have covered 2^(k + 1) - 2 rounds. */
  lemma {:induction false} Covered(ws: seq<Window>, bottom: int, top: int, k: nat)
    requires Tiles(ws, bottom, top) && 0 < k <= |ws| && ws[k - 1].lo > bottom
    ensures top - ws[k - 1].lo + 1 == Pow2(k + 1) - 2
    decreases k
  {
    assert Pow2(2) == 4 && Pow2(k + 1) == 2 * Pow2(k);
    if k > 1 {
      assert ws[k - 1].hi == ws[k - 2].lo - 1;
      Covered(ws, bottom, top, k - 1);
    }
  }

  // ---- the indexer's pages -------------------------------------------------------------------------------------

  /** One page of transactions, given by their rounds, and the token for the next page. */
  datatype Page = Page(rounds: seq<int>, next: Option<nat>)

  /** The pages of a window, by its bounds and a token. */
  type Query = (int, int, Option<nat>) -> Page

  /** Following the tokens from `token` spells out `list`: a page without a token or without
      transactions is the last one. */
  ghost predicate Lists(q: Query, lo: int, hi: int, token: Option<nat>, list: seq<int>)
    decreases |list|
  {
    var p := q(lo, hi, token);
    && p.rounds <= list
    && if p.next.None? || p.rounds == [] then list == p.rounds else Lists(q, lo, hi, p.next, list[|p.rounds|..])
  }

  ghost predicate Listed(q: Query, has: int -> bool, lo: int, hi: int) {
    exists list :: Lists(q, lo, hi, None, list) && forall r :: r in list <==> lo <= r <= hi && has(r)
  }

  /** The indexer lists, for every window, the transactions of the rounds in which there is one. */
  ghost predicate Indexes(q: Query, has: int -> bool) {
    forall lo, hi :: Listed(q, has, lo, hi)
  }

  /** The inner loop: the rounds of one window, page by page. */
  method WindowRounds(q: Query, lo: int, hi: int, ghost has: int -> bool) returns (rounds: set<int>)
    requires Listed(q, has, lo, hi)
    ensures forall r :: r in rounds <==> lo <= r <= hi && has(r)
  {
    ghost var list :| Lists(q, lo, hi, None, list) && forall r :: r in list <==> lo <= r <= hi && has(r);
    rounds := {};
    var token := None;
    ghost var left, done: seq<int> := list, [];
    assert list == done + left;
    while true
      invariant Lists(q, lo, hi, token, left) && list == done + left
      invariant forall r :: r in rounds <==> r in done
      decreases |left|
    {
      var p := q(lo, hi, token);
      rounds := rounds + set r | r in p.rounds;
      ghost var rest := left[|p.rounds|..];
      assert left == p.rounds + rest;
      done := done + p.rounds;
      if p.next.None? || p.rounds == [] {
        assert done == list;
        assert forall r :: r in rounds <==> r in list;
        return;
      }
      token, left := p.next, rest;
    }
  }

  /** Two descending lists with the same elements are the same: `sorted` of a window's rounds. */
  lemma {:induction false} DescendingUnique(a: seq<int>, b: seq<int>)
    requires Descending(a) && Descending(b) && forall x :: x in a <==> x in b
    ensures a == b
    decreases |a|
  {
    BothEmpty(a, b);
    if a != [] {
      var x, y := a[0], b[0];
      assert x in a && y in b;
      TopFirst(a, y);
      TopFirst(b, x);
      forall z
        ensures z in a[1..] <==> z in b[1..]
      {
        BelowTop(a, z);
        BelowTop(b, z);
      }
      DescendingUnique(a[1..], b[1..]);
      assert a == [x] + a[1..] && b == [y] + b[1..];
    }
  }

  lemma BothEmpty(a: seq<int>, b: seq<int>)
    requires forall x :: x in a <==> x in b
    ensures a == [] <==> b == []
  {
    if a != [] {
      var x := a[0];
      assert x in a;
    }
    if b != [] {
      var x := b[0];
      assert x in b;
    }
  }

  lemma TopFirst(s: seq<int>, x: int)
    requires Descending(s) && x in s
    ensures x <= s[0]
  {
  }

  lemma BelowTop(s: seq<int>, x: int)
    requires s != [] && Descending(s)
    ensures x in s[1..] <==> x in s && x != s[0]
    ensures Descending(s[1..])
  {
    if x in s[1..] {
      var i :| 0 <= i < |s[1..]| && s[1..][i] == x;
      assert s[i + 1] == x;
    }
  }

  /** `sorted(rounds, reverse=True)` for rounds of the window [lo, hi]. */
  function Sorted(rounds: set<int>, lo: int, hi: int): seq<int> {
    Matching((r: int) => r in rounds, lo, hi)
  }

  lemma SortedRounds(rounds: set<int>, has: int -> bool, lo: int, hi: int)
    requires forall r :: r in rounds <==> lo <= r <= hi && has(r)
    ensures Sorted(rounds, lo, hi) == Matching(has, lo, hi)
  {
    MatchingAll(has, lo, hi);
    MatchingAll((r: int) => r in rounds, lo, hi);
    DescendingUnique(Sorted(rounds, lo, hi), Matching(has, lo, hi));
  }

  /** `global_rounds`: what it yields, and the windows it asked for. */
  method GlobalRounds(q: Query, ghost has: int -> bool, before: int, createdAt: int)
    returns (out: seq<int>, ghost ws: seq<Window>)
    requires Indexes(q, has)
    ensures out == Matching(has, createdAt, before - 1)
    ensures Tiles(ws, createdAt, before - 1)
    ensures if createdAt <= before - 1 then ws != [] && ws[|ws| - 1].lo == createdAt else ws == []
  {
    hide Matching, Tiles, Pow2, Listed, Sorted;
    var hi, w := before - 1, 2;
    out, ws := [], [];
    NoTiles(createdAt, before - 1);
    while hi >= createdAt
      invariant w == Pow2(|ws| + 1) && w >= 2
      invariant out + Matching(has, createdAt, hi) == Matching(has, createdAt, before - 1)
      invariant Tiles(ws, createdAt, before - 1)
      invariant if ws == [] then hi == before - 1
                else hi == ws[|ws| - 1].lo - 1 && createdAt - 1 <= hi && createdAt < before
      decreases hi - createdAt
    {
      var lo := if createdAt > hi - w + 1 then createdAt else hi - w + 1;
      assert Listed(q, has, lo, hi);
      var rounds := WindowRounds(q, lo, hi, has);
      SortedRounds(rounds, has, lo, hi);
      MatchingSplit(has, createdAt, lo, hi);
      TilesMore(ws, createdAt, before - 1, lo, hi);
      Regroup(out, Matching(has, lo, hi), Matching(has, createdAt, lo - 1));
      out := out + Sorted(rounds, lo, hi);
      ws := ws + [Window(lo, hi)];
      hi := lo - 1;
      w := w * 2;
    }
    assert Matching(has, createdAt, hi) == [] by { NoneMatching(has, createdAt, hi); }
  }

  // ---- account_rounds ---------------------------------------------------------------------------------------------

  ghost predicate NonIncreasing(rs: seq<int>) {
    forall i, j | 0 <= i < j < |rs| :: rs[i] >= rs[j]
  }

  /** `out` has the rounds of `done` once each, newest first, and ends where `done` ends. */
  ghost predicate Distinct(done: seq<int>, out: seq<int>) {
    && Descending(out) && (forall r :: r in out <==> r in done)
    && (done != [] ==> out != [] && out[|out| - 1] == done[|done| - 1])
    && (done == [] ==> out == [])
  }

  lemma DistinctNext(list: seq<int>, done: seq<int>, out: seq<int>, r: int)
    requires NonIncreasing(list) && |done| < |list| && list[..|done|] == done && list[|done|] == r
    requires Distinct(done, out)
    ensures Distinct(done + [r], if out == [] || out[|out| - 1] != r then out + [r] else out)
  {
    var n := |done|;
    if out != [] {
      assert done != [] && list[n - 1] == done[n - 1] >= r;
      assert forall x | x in out :: x >= out[|out| - 1];
    }
  }

  /** The transactions of one page. */
  method TakePage(page: seq<int>, out: seq<int>, ghost list: seq<int>, ghost done: seq<int>) returns (more: seq<int>)
    requires NonIncreasing(list) && done + page <= list && Distinct(done, out)
    ensures Distinct(done + page, more)
  {
    hide Distinct, NonIncreasing;
    more := out;
    assert done + page[..0] == done;
    for i := 0 to |page|
      invariant Distinct(done + page[..i], more)
    {
      var r := page[i];
      ghost var sofar := done + page[..i];
      assert list[..|sofar|] == sofar && list[|sofar|] == r;
      assert done + page[..i + 1] == sofar + [r];
      DistinctNext(list, sofar, more, r);
      if more == [] || more[|more| - 1] != r {
        more := more + [r];
      }
    }
    assert page[..|page|] == page;
  }

  /** `account_rounds`: an account's transactions come newest first, page by page; each round is
      yielded once. */
  method AccountRounds(q: Query, hi: int, ghost list: seq<int>) returns (out: seq<int>)
    requires Lists(q, 0, hi, None, list) && NonIncreasing(list)
    ensures Descending(out) && forall r :: r in out <==> r in list
  {
    hide NonIncreasing, Distinct;
    out := [];
    var token := None;
    ghost var left, done: seq<int> := list, [];
    assert list == done + left;
    NothingDistinct();
    while true
      invariant Lists(q, 0, hi, token, left) && list == done + left
      invariant Distinct(done, out)
      decreases |left|
    {
      var p := q(0, hi, token);
      ghost var rest := left[|p.rounds|..];
      assert list == done + p.rounds + rest;
      out := TakePage(p.rounds, out, list, done);
      done := done + p.rounds;
      if p.next.None? || p.rounds == [] {
        assert done == list;
        DistinctMeans(done, out);
        return;
      }
      token, left := p.next, rest;
    }
  }

  lemma NothingDistinct()
    ensures Distinct([], [])
  {
  }

  lemma DistinctMeans(done: seq<int>, out: seq<int>)
    requires Distinct(done, out)
    ensures Descending(out) && forall r :: r in out <==> r in done
  {
  }

  lemma NoneMatching(has: int -> bool, lo: int, hi: int)
    requires hi < lo
    ensures Matching(has, lo, hi) == []
  {
  }

  lemma Regroup(a: seq<int>, b: seq<int>, c: seq<int>)
    ensures a + (b + c) == a + b + c
  {
  }

  lemma NoTiles(bottom: int, top: int)
    ensures Tiles([], bottom, top) && Pow2(1) == 2
  {
    assert Pow2(0) == 1;
  }

  lemma TilesMore(ws: seq<Window>, bottom: int, top: int, lo: int, hi: int)
    requires Tiles(ws, bottom, top) && bottom <= lo <= hi
    requires if ws == [] then hi == top else hi == ws[|ws| - 1].lo - 1
    requires lo == bottom || hi - lo + 1 == Pow2(|ws| + 1)
    ensures Tiles(ws + [Window(lo, hi)], bottom, top) && Pow2(|ws| + 2) == 2 * Pow2(|ws| + 1)
  {
    var us := ws + [Window(lo, hi)];
    assert forall k | 0 <= k < |ws| :: us[k] == ws[k];
  }

  // ---- boxKeys ----------------------------------------------------------------------------------------------------

  type Key = nat

  /** One round's changes: a value is set, or the key is deleted. */
  type Mods = map<Key, Option<nat>>

  /** The keys of one delta with the box prefix. */
  predicate Touches(box: Key -> bool, d: Mods, k: Key) {
    k in d && box(k)
  }

  /** The live boxes after applying the deltas oldest to newest. */
  ghost predicate Live(box: Key -> bool, ds: seq<Mods>, k: Key) {
    ds != [] &&
    var d := ds[|ds| - 1];
    if Touches(box, d, k) then d[k].Some? else Live(box, ds[..|ds| - 1], k)
  }

  /** What a newest-first walk has decided once it has seen the deltas from i on. */
  ghost predicate Decided(box: Key -> bool, ds: seq<Mods>, i: nat, state: map<Key, bool>)
    requires i <= |ds|
  {
    forall k ::
      if k in state then exists j | i <= j < |ds| :: LastTouch(box, ds, j, k) && state[k] == ds[j][k].Some?
      else forall j | i <= j < |ds| :: !Touches(box, ds[j], k)
  }

  ghost predicate LastTouch(box: Key -> bool, ds: seq<Mods>, j: nat, k: Key) {
    j < |ds| && Touches(box, ds[j], k) && forall x | j < x < |ds| :: !Touches(box, ds[x], k)
  }

  /** One delta of the walk: keys already seen keep their newer verdict. */
  method FoldDelta(box: Key -> bool, d: Mods, state: map<Key, bool>) returns (state': map<Key, bool>)
    ensures forall k :: k in state' <==> k in state || Touches(box, d, k)
    ensures forall k | k in state' :: state'[k] == if k in state then state[k] else k in d && d[k].Some?
  {
    state' := state;
    var todo := d.Keys;
    while todo != {}
      invariant todo <= d.Keys
      invariant forall k :: k in state' <==> k in state || (Touches(box, d, k) && k !in todo)
      invariant forall k | k in state' :: state'[k] == if k in state then state[k] else k in d && d[k].Some?
    {
      var k :| k in todo;
      todo := todo - {k};
      if k !in state' && box(k) {
        state' := state'[k := d[k].Some?];
      }
    }
  }

  lemma DecidedMore(box: Key -> bool, ds: seq<Mods>, i: nat, state: map<Key, bool>, state': map<Key, bool>)
    requires 0 < i <= |ds| && Decided(box, ds, i, state)
    requires forall k :: k in state' <==> k in state || Touches(box, ds[i - 1], k)
    requires forall k | k in state' ::
               state'[k] == if k in state then state[k] else k in ds[i - 1] && ds[i - 1][k].Some?
    ensures Decided(box, ds, i - 1, state')
  {
    forall k
      ensures if k in state'
              then exists j | i - 1 <= j < |ds| :: LastTouch(box, ds, j, k) && state'[k] == ds[j][k].Some?
              else forall j | i - 1 <= j < |ds| :: !Touches(box, ds[j], k)
    {
      if k in state {
        var j :| i <= j < |ds| && LastTouch(box, ds, j, k) && state[k] == ds[j][k].Some?;
      } else if k in state' {
        assert LastTouch(box, ds, i - 1, k);
      }
    }
  }

  /** The walk and the forward fold agree: a key is live exactly when the last delta to touch it set it. */
  lemma {:induction false} LiveByLast(box: Key -> bool, ds: seq<Mods>, k: Key)
    ensures Live(box, ds, k) <==> exists j | 0 <= j < |ds| :: LastTouch(box, ds, j, k) && ds[j][k].Some?
  {
    if ds != [] {
      var n := |ds| - 1;
      var init := ds[..n];
      LiveByLast(box, init, k);
      if Touches(box, ds[n], k) {
        assert LastTouch(box, ds, n, k);
      } else {
        forall j: nat | j < n
          ensures LastTouch(box, init, j, k) <==> LastTouch(box, ds, j, k)
        {
          assert forall x | 0 <= x < n :: init[x] == ds[x];
        }
      }
    }
  }

  ghost predicate EachOnce(s: seq<Key>) {
    forall i, j | 0 <= i < j < |s| :: s[i] != s[j]
  }

  /** The keys whose verdict is "set". */
  method SetKeys(state: map<Key, bool>) returns (keys: seq<Key>)
    ensures EachOnce(keys) && forall k :: k in keys <==> k in state && state[k]
  {
    keys := [];
    var todo := state.Keys;
    while todo != {}
      invariant todo <= state.Keys && EachOnce(keys)
      invariant forall k :: k in keys <==> k in state && state[k] && k !in todo
    {
      var k :| k in todo;
      todo := todo - {k};
      if state[k] {
        keys := keys + [k];
      }
    }
  }

  /** The ledger's own answer: the keys, a stale database round, or another error. */
  datatype Lookup = Keys(keys: seq<Key>) | Stale | Failed

  /** `boxKeys`. `rows` is the number of committed KV rows if it could be counted; `deltas` are the
      rounds after the committed one, oldest first, None for one that cannot be read. The scan is used
      only on an empty committed store, and then yields exactly the live boxes, each once. */
  method BoxKeys(box: Key -> bool, lookup: Lookup, rows: Option<nat>, deltas: seq<Option<Mods>>)
    returns (r: Option<seq<Key>>)
    ensures lookup.Keys? ==> r == Some(lookup.keys)
    ensures lookup.Failed? ==> r.None?
    ensures lookup.Stale? ==> (r.Some? <==> rows == Some(0) && forall i | 0 <= i < |deltas| :: deltas[i].Some?)
    ensures lookup.Stale? && r.Some? ==> EachOnce(r.value) && forall k :: k in r.value <==> Live(box, Values(deltas), k)
  {
    if lookup.Keys? {
      return Some(lookup.keys);
    }
    if lookup.Failed? || rows != Some(0) {
      return None;
    }
    ghost var ds := Values(deltas);
    var state: map<Key, bool> := map[];
    var i := |deltas|;
    while i > 0
      invariant 0 <= i <= |deltas| && (forall j | i <= j < |deltas| :: deltas[j].Some?) && Decided(box, ds, i, state)
    {
      if deltas[i - 1].None? {
        return None;
      }
      ghost var before := state;
      state := FoldDelta(box, deltas[i - 1].value, state);
      DecidedMore(box, ds, i, before, state);
      i := i - 1;
    }
    var keys := SetKeys(state);
    forall k
      ensures k in keys <==> Live(box, ds, k)
    {
      LiveByLast(box, ds, k);
      DecidedTells(box, ds, state, k);
    }
    return Some(keys);
  }

  lemma DecidedTells(box: Key -> bool, ds: seq<Mods>, state: map<Key, bool>, k: Key)
    requires Decided(box, ds, 0, state)
    ensures k in state && state[k] <==> exists j | 0 <= j < |ds| :: LastTouch(box, ds, j, k) && ds[j][k].Some?
  {
    if k in state {
      var j :| 0 <= j < |ds| && LastTouch(box, ds, j, k) && state[k] == ds[j][k].Some?;
      forall x | 0 <= x < |ds| && x != j
        ensures !LastTouch(box, ds, x, k)
      {
        assert if x < j then Touches(box, ds[j], k) else !Touches(box, ds[x], k);
      }
    }
  }

  ghost function Values(deltas: seq<Option<Mods>>): (r: seq<Mods>)
    ensures |r| == |deltas|
  {
    seq(|deltas|, (i: nat) requires i < |deltas| => if deltas[i].Some? then deltas[i].value else map[])
  }
}

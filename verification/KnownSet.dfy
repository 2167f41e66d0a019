/** The account set that the replay tool rebuilds from the blocks alone (benchmarks/go-replay/state.go). */
module KnownSets {
  import opened Ledger
  import opened PlannerInv
  import opened PlannerRun

  const KNOWN_APPS: nat := 2

  /** The accounts of the first `room` applications that a payset creates. */
  function FirstApps(ts: seq<Signed>, ads: seq<nat>, room: nat): (r: set<Addr>)
    requires |ads| == |ts|
  {
    if ts == [] || room == 0 then {}
    else if ts[0].tx.AppCreate? then {AppAddr(ads[0])} + FirstApps(ts[1..], ads[1..], room - 1)
    else FirstApps(ts[1..], ads[1..], room)
  }

  /** The applications a payset creates. */
  function Creations(ts: seq<Signed>): nat {
    if ts == [] then 0 else (if ts[0].tx.AppCreate? then 1 else 0) + Creations(ts[1..])
  }

  lemma PayStep(ts: seq<Signed>)
    requires ts != []
    ensures Receivers(ts) == (if ts[0].tx.Pay? then {ts[0].tx.receiver} else {}) + Receivers(ts[1..])
  {
    forall a | a in Receivers(ts)
      ensures a in (if ts[0].tx.Pay? then {ts[0].tx.receiver} else {}) + Receivers(ts[1..])
    {
      var t :| t in ts && t.tx.Pay? && t.tx.receiver == a;
      assert t == ts[0] || t in ts[1..];
    }
  }

  lemma NoReceivers()
    ensures Receivers([]) == {}
  {
  }

  class KnownSet {
    var seen: set<Addr>
    var apps: nat
    var addrs: seq<Addr>

    /** The list holds the seen addresses, each once. */
    ghost predicate Valid()
      reads this
    {
      apps <= KNOWN_APPS && NoDup(addrs) && Elems(addrs) == seen
    }

    /** `newKnownSet` from the genesis allocations. */
    constructor (allocation: seq<Addr>)
      ensures Valid() && seen == Elems(allocation) && apps == 0
    {
      seen, apps, addrs := {}, 0, [];
      new;
      for i := 0 to |allocation|
        invariant Valid() && seen == Elems(allocation[..i]) && apps == 0
      {
        assert allocation[..i + 1] == allocation[..i] + [allocation[i]];
        KnownPlus(allocation[..i], allocation[i]);
        Add(allocation[i]);
      }
      assert allocation[..|allocation|] == allocation;
    }

    method Add(a: Addr)
      requires Valid()
      modifies this`seen, this`addrs
      ensures Valid() && seen == old(seen) + {a} && old(addrs) <= addrs
    {
      if a !in seen {
        KnownPlus(addrs, a);
        seen, addrs := seen + {a}, addrs + [a];
      }
    }

    /** `addBlock`: the receivers of the block's payments and its first applications, up to the
        second one overall. */
    method AddBlock(ts: seq<Signed>, ads: seq<nat>)
      requires Valid() && |ads| == |ts|
      modifies this
      ensures Valid() && seen == old(seen) + Receivers(ts) + FirstApps(ts, ads, KNOWN_APPS - old(apps))
      ensures apps == if old(apps) + Creations(ts) < KNOWN_APPS then old(apps) + Creations(ts) else KNOWN_APPS
    {
      hide Receivers, Elems, NoDup;
      ghost var all := seen + Receivers(ts) + FirstApps(ts, ads, KNOWN_APPS - apps);
      for i := 0 to |ts|
        invariant Valid()
        invariant seen + Receivers(ts[i..]) + FirstApps(ts[i..], ads[i..], KNOWN_APPS - apps) == all
        invariant (apps + Creations(ts[i..]) < KNOWN_APPS) == (old(apps) + Creations(ts) < KNOWN_APPS)
        invariant apps + Creations(ts[i..]) < KNOWN_APPS ==> apps + Creations(ts[i..]) == old(apps) + Creations(ts)
      {
        ghost var rest, adsRest := ts[i..], ads[i..];
        PayStep(rest);
        assert rest[1..] == ts[i + 1..] && adsRest[1..] == ads[i + 1..] && rest[0] == ts[i] && adsRest[0] == ads[i];
        if ts[i].tx.Pay? {
          Add(ts[i].tx.receiver);
        } else if ts[i].tx.AppCreate? && apps < KNOWN_APPS {
          apps := apps + 1;
          Add(AppAddr(ads[i]));
        }
      }
      NoReceivers();
    }
  }
}

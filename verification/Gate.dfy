/** The response-equality gate of scripts/bench/rest_lib.py. */
module Gates {
  import opened Optional
  import opened Bytes
  import opened MsgPack
  import opened JsonDiffs
  import opened DocPaths

  datatype BodyKind = Json | Msgpack | Opaque

  datatype Request = Request(name: string, kind: BodyKind)

  /** A response; `media` is its content type without parameters. */
  datatype Response = Response(status: int, media: string, body: bytes)

  /** What the gate takes from elsewhere: the key order and the text of keys, the JSON parser, and
      the table of volatile fields. */
  datatype Tools = Tools(ord: Order, show: Value -> string, json: bytes -> Option<Value>,
                         volatile: string -> seq<string>)

  /** An allowlist entry; the issue number and the reason are not looked at here. */
  datatype Allow = Allow(endpoint: string, path: string, kind: Kind, rustValue: Option<Value>, corpus: Option<string>)

  /** `_decode_body`. */
  function DecodeBody(tools: Tools, kind: BodyKind, body: bytes): Option<Value> {
    match kind
    case Json => tools.json(body)
    case Msgpack => (match Decode(body) case Ok(v) => Some(v) case Err(_) => None)
    case Opaque => None
  }

  function Pseudo(path: string, kind: Kind): Entry {
    Entry([], path, kind, None, None)
  }

  function BodyDiffs(tools: Tools, req: Request, go: bytes, rust: bytes): seq<Entry> {
    var g, r := DecodeBody(tools, req.kind, go), DecodeBody(tools, req.kind, rust);
    if g.Some? && r.Some? then
      var vol := if req.kind == Json then tools.volatile(req.name) else [];
      var found := Diff(tools.ord, tools.show, DropAll(g.value, vol), DropAll(r.value, vol), "");
      if found == [] && req.kind == Msgpack && go != rust then [Pseudo("<encoding>", Encoding)] else found
    else if go != rust then [Pseudo("<body>", Body)]
    else []
  }

  /** `_diffs`. */
  function Diffs(tools: Tools, req: Request, go: Response, rust: Response): seq<Entry> {
    (if go.status != rust.status then [Pseudo("<status>", Status)] else []) +
    (if go.media != rust.media then [Pseudo("<content-type>", ContentType)] else []) +
    BodyDiffs(tools, req, go.body, rust.body)
  }

  /** The two bodies agree: JSON bodies as documents without the volatile fields, everything else
      byte for byte. */
  ghost predicate BodiesAgree(tools: Tools, req: Request, go: bytes, rust: bytes) {
    var g, r := DecodeBody(tools, req.kind, go), DecodeBody(tools, req.kind, rust);
    if req.kind == Json && g.Some? && r.Some?
    then DropAll(g.value, tools.volatile(req.name)) == DropAll(r.value, tools.volatile(req.name))
    else go == rust
  }

  lemma DiffsSpec(tools: Tools, req: Request, go: Response, rust: Response)
    requires Enumerates(tools.ord)
    ensures Diffs(tools, req, go, rust) == [] <==>
              go.status == rust.status && go.media == rust.media && BodiesAgree(tools, req, go.body, rust.body)
  {
    hide Diff, Enumerates, Decode, DropAll;
    var g, r := DecodeBody(tools, req.kind, go.body), DecodeBody(tools, req.kind, rust.body);
    if g.Some? && r.Some? {
      var vol := if req.kind == Json then tools.volatile(req.name) else [];
      EmptyIffEqual(tools.ord, tools.show, DropAll(g.value, vol), DropAll(r.value, vol), "");
    }
  }

  // ---- excuses --------------------------------------------------------------------------------------

  /** Python's `==` takes True for 1 and False for 0, at any depth. */
  function Loose(v: Value): Value {
    match v
    case Bool(b) => Int(if b then 1 else 0)
    case Arr(xs) => Arr(seq(|xs|, (i: nat) requires i < |xs| => Loose(xs[i])))
    case Dict(m) => Dict(map k | k in m :: Loose(m[k]))
    case _ => v
  }

  /** `_excuses`. */
  predicate Excuses(e: Allow, endpoint: string, d: Entry) {
    && e.endpoint == endpoint && e.kind == d.kind && PathMatches(e.path, d.path)
    && (e.rustValue.None? || (d.rust.Some? && Loose(d.rust.value) == Loose(e.rustValue.value)))
  }

  predicate Excused(active: seq<Allow>, endpoint: string, d: Entry) {
    exists i | 0 <= i < |active| :: Excuses(active[i], endpoint, d)
  }

  /** Entry i excuses some difference between the two responses. */
  ghost predicate Earns(tools: Tools, e: Allow, req: Request, go: Response, rust: Response) {
    exists d | d in Diffs(tools, req, go, rust) :: Excuses(e, req.name, d)
  }

  predicate InForce(e: Allow, corpus: Option<string>) {
    e.corpus.None? || e.corpus == corpus
  }

  function Active(allow: seq<Allow>, corpus: Option<string>): seq<Allow> {
    if allow == [] then []
    else (if InForce(allow[0], corpus) then [allow[0]] else []) + Active(allow[1..], corpus)
  }

  datatype Problem =
    | Unrequested(rustSide: bool, name: string)
    | NoResponse(rustSide: bool, name: string)
    | Unexcused(name: string, d: Entry)
    | Idle(entry: Allow)

  datatype Round = Round(requests: seq<Request>, go: map<string, Response>, rust: map<string, Response>)

  function Names(rs: seq<Request>): set<string> {
    set r | r in rs :: r.name
  }

  predicate Answered(t: Round, n: string) {
    n in t.go && n in t.rust
  }

  /** Some answered request of the set for which the entry excuses a difference. */
  ghost predicate Useful(tools: Tools, t: Round, e: Allow) {
    exists r | r in t.requests :: Answered(t, r.name) && Earns(tools, e, r, t.go[r.name], t.rust[r.name])
  }

  /** A difference of a named request that nothing excuses. */
  ghost predicate Found(tools: Tools, t: Round, active: seq<Allow>, n: string, d: Entry) {
    && Answered(t, n) && !Excused(active, n, d)
    && exists r | r in t.requests :: r.name == n && d in Diffs(tools, r, t.go[n], t.rust[n])
  }

  /** When each error is due. */
  ghost predicate Due(tools: Tools, t: Round, active: seq<Allow>, p: Problem) {
    match p
    case Unrequested(rustSide, n) => n in (if rustSide then t.rust else t.go) && n !in Names(t.requests)
    case NoResponse(rustSide, n) => n in Names(t.requests) && n !in (if rustSide then t.rust else t.go)
    case Unexcused(n, d) => Found(tools, t, active, n, d)
    case Idle(e) => e in active && e.endpoint in Names(t.requests) && !Useful(tools, t, e)
  }

  /** What passing the gate means. */
  ghost predicate Passes(tools: Tools, t: Round, active: seq<Allow>) {
    && t.go.Keys == Names(t.requests) == t.rust.Keys
    && (forall r, d | r in t.requests && d in Diffs(tools, r, t.go[r.name], t.rust[r.name]) ::
          Excused(active, r.name, d))
    && (forall e | e in active && e.endpoint in Names(t.requests) :: Useful(tools, t, e))
  }

  /** No error is due exactly when the gate should pass. */
  lemma NothingDue(tools: Tools, t: Round, active: seq<Allow>)
    ensures (forall p :: !Due(tools, t, active, p)) <==> Passes(tools, t, active)
  {
    hide Diffs, Excused, Useful;
    if forall p :: !Due(tools, t, active, p) {
      forall n
        ensures n in t.go.Keys <==> n in Names(t.requests)
        ensures n in t.rust.Keys <==> n in Names(t.requests)
      {
        assert !Due(tools, t, active, Unrequested(false, n)) && !Due(tools, t, active, NoResponse(false, n));
        assert !Due(tools, t, active, Unrequested(true, n)) && !Due(tools, t, active, NoResponse(true, n));
      }
      forall r, d | r in t.requests && d in Diffs(tools, r, t.go[r.name], t.rust[r.name])
        ensures Excused(active, r.name, d)
      {
        assert !Due(tools, t, active, Unexcused(r.name, d));
      }
      forall e | e in active && e.endpoint in Names(t.requests)
        ensures Useful(tools, t, e)
      {
        assert !Due(tools, t, active, Idle(e));
      }
    }
    if Passes(tools, t, active) {
      forall p
        ensures !Due(tools, t, active, p)
      {
        match p
        case Unrequested(rustSide, n) => assert n in t.go.Keys <==> n in Names(t.requests);
        case NoResponse(rustSide, n) => assert n in t.go.Keys <==> n in Names(t.requests);
        case _ =>
      }
    }
  }

  // ---- the gate as the source runs it -----------------------------------------------------------------

  method Filter(allow: seq<Allow>, corpus: Option<string>) returns (active: seq<Allow>)
    ensures active == Active(allow, corpus)
  {
    active := [];
    for i := 0 to |allow|
      invariant active + Active(allow[i..], corpus) == Active(allow, corpus)
    {
      assert allow[i..][1..] == allow[i + 1..];
      if InForce(allow[i], corpus) {
        active := active + [allow[i]];
      }
    }
  }

  /** Responses that nobody asked for. */
  method Extras(rustSide: bool, resps: set<string>, names: set<string>) returns (errors: seq<Problem>)
    ensures forall p :: p in errors <==> p.Unrequested? && p.rustSide == rustSide && p.name in resps - names
  {
    errors := [];
    var todo := resps - names;
    while todo != {}
      invariant todo <= resps - names
      invariant forall p :: p in errors <==> p.Unrequested? && p.rustSide == rustSide && p.name in resps - names - todo
    {
      var n :| n in todo;
      todo := todo - {n};
      errors := errors + [Unrequested(rustSide, n)];
    }
  }

  /** The places in the allowlist whose entries excuse d. */
  method Hits(active: seq<Allow>, endpoint: string, d: Entry) returns (hit: set<nat>)
    ensures hit == set i: nat | i < |active| && Excuses(active[i], endpoint, d)
  {
    hit := set i: nat | i < |active| && Excuses(active[i], endpoint, d);
  }

  ghost predicate Hit(active: seq<Allow>, i: nat, endpoint: string, ds: seq<Entry>) {
    i < |active| && exists d | d in ds :: Excuses(active[i], endpoint, d)
  }

  /** One answered request: its unexcused differences, and which entries were used. */
  method Judge(active: seq<Allow>, name: string, ds: seq<Entry>) returns (errors: seq<Problem>, used: set<nat>)
    ensures forall p :: p in errors <==> p.Unexcused? && p.name == name && p.d in ds && !Excused(active, name, p.d)
    ensures forall i: nat :: i in used <==> Hit(active, i, name, ds)
  {
    hide Excuses;
    errors, used := [], {};
    for j := 0 to |ds|
      invariant forall p :: p in errors <==>
          p.Unexcused? && p.name == name && p.d in ds[..j] && !Excused(active, name, p.d)
      invariant forall i: nat :: i in used <==> Hit(active, i, name, ds[..j])
    {
      var d := ds[j];
      assert ds[..j + 1] == ds[..j] + [d];
      var hit := Hits(active, name, d);
      HitNext(active, name, ds[..j], d);
      if hit != {} {
        var w :| w in hit;
        assert Excused(active, name, d);
        used := used + hit;
      } else {
        assert !Excused(active, name, d) by { NoHits(active, name, d, hit); }
        errors := errors + [Unexcused(name, d)];
      }
    }
    assert ds[..|ds|] == ds;
  }

  lemma NoHits(active: seq<Allow>, name: string, d: Entry, hit: set<nat>)
    requires hit == {} && hit == set i: nat | i < |active| && Excuses(active[i], name, d)
    ensures !Excused(active, name, d)
  {
    forall i | 0 <= i < |active|
      ensures !Excuses(active[i], name, d)
    {
      assert i !in hit;
    }
  }

  lemma HitNext(active: seq<Allow>, name: string, ds: seq<Entry>, d: Entry)
    ensures forall i: nat :: Hit(active, i, name, ds + [d]) <==>
              Hit(active, i, name, ds) || (i < |active| && Excuses(active[i], name, d))
  {
    hide Excuses;
    assert d in ds + [d];
    forall i: nat | Hit(active, i, name, ds)
      ensures Hit(active, i, name, ds + [d])
    {
      var x :| x in ds && Excuses(active[i], name, x);
      assert x in ds + [d];
    }
  }

  /** The requests seen so far, as a round of their own. */
  function Seen(t: Round, j: nat): Round
    requires j <= |t.requests|
  {
    t.(requests := t.requests[..j])
  }

  /** The errors of the request loop. */
  ghost predicate RequestError(tools: Tools, t: Round, active: seq<Allow>, p: Problem) {
    (p.NoResponse? || p.Unexcused?) && Due(tools, t, active, p)
  }

  /** Errors of one more request. */
  ghost predicate NewError(tools: Tools, t: Round, active: seq<Allow>, r: Request, p: Problem) {
    || (p.NoResponse? && p.name == r.name && r.name !in (if p.rustSide then t.rust else t.go))
    || (&& p.Unexcused? && p.name == r.name && Answered(t, r.name)
        && p.d in Diffs(tools, r, t.go[r.name], t.rust[r.name]) && !Excused(active, r.name, p.d))
  }

  lemma SeenNext(tools: Tools, t: Round, active: seq<Allow>, j: nat)
    requires j < |t.requests|
    ensures forall p :: RequestError(tools, Seen(t, j + 1), active, p) <==>
              RequestError(tools, Seen(t, j), active, p) || NewError(tools, t, active, t.requests[j], p)
    ensures forall e :: Useful(tools, Seen(t, j + 1), e) <==>
              || Useful(tools, Seen(t, j), e)
              || (var r := t.requests[j]; Answered(t, r.name) && Earns(tools, e, r, t.go[r.name], t.rust[r.name]))
  {
    hide Diffs, Excused, Earns;
    var r := t.requests[j];
    var a, b := Seen(t, j), Seen(t, j + 1);
    assert b.requests == a.requests + [r];
    assert forall x :: x in b.requests <==> x in a.requests || x == r;
    assert Names(b.requests) == Names(a.requests) + {r.name} by {
      assert r in b.requests;
      forall x | x in a.requests ensures x.name in Names(b.requests) { assert x in b.requests; }
    }
  }

  /** One request of the loop. */
  method OneRequest(tools: Tools, t: Round, active: seq<Allow>, r: Request)
    returns (errors: seq<Problem>, used: set<nat>)
    ensures forall p :: p in errors <==> NewError(tools, t, active, r, p)
    ensures forall i: nat :: i in used <==>
              i < |active| && Answered(t, r.name) && Earns(tools, active[i], r, t.go[r.name], t.rust[r.name])
  {
    hide Diffs, Excused, Excuses;
    errors, used := [], {};
    if r.name !in t.go {
      errors := errors + [NoResponse(false, r.name)];
    }
    if r.name !in t.rust {
      errors := errors + [NoResponse(true, r.name)];
    }
    if errors == [] {
      var ds := Diffs(tools, r, t.go[r.name], t.rust[r.name]);
      errors, used := Judge(active, r.name, ds);
    }
  }

  /** The request loop: `errors` and `used`. */
  method Requests(tools: Tools, t: Round, active: seq<Allow>) returns (errors: seq<Problem>, used: set<nat>)
    ensures forall p :: p in errors <==> RequestError(tools, t, active, p)
    ensures forall i: nat :: i in used <==> i < |active| && Useful(tools, t, active[i])
  {
    hide RequestError, Useful, NewError, Earns, Diffs, Due;
    errors, used := [], {};
    NothingSeen(tools, t, active);
    for j := 0 to |t.requests|
      invariant forall p :: p in errors <==> RequestError(tools, Seen(t, j), active, p)
      invariant forall i: nat :: i in used <==> i < |active| && Useful(tools, Seen(t, j), active[i])
    {
      SeenNext(tools, t, active, j);
      var errs, hit := OneRequest(tools, t, active, t.requests[j]);
      errors, used := errors + errs, used + hit;
    }
    assert Seen(t, |t.requests|) == t;
  }

  lemma NothingSeen(tools: Tools, t: Round, active: seq<Allow>)
    ensures forall p :: !RequestError(tools, Seen(t, 0), active, p)
    ensures forall e :: !Useful(tools, Seen(t, 0), e)
  {
    hide Diffs, Excused;
  }

  /** Entries for requested endpoints that excused nothing. */
  method Idles(active: seq<Allow>, used: set<nat>, names: set<string>) returns (errors: seq<Problem>)
    ensures forall p :: p in errors <==>
              p.Idle? && exists i: nat | i < |active| :: i !in used && active[i] == p.entry && p.entry.endpoint in names
  {
    errors := [];
    for i := 0 to |active|
      invariant forall p :: p in errors <==>
                  p.Idle? && exists k: nat | k < i :: k !in used && active[k] == p.entry && p.entry.endpoint in names
    {
      if i !in used && active[i].endpoint in names {
        errors := errors + [Idle(active[i])];
      }
    }
  }

  /** `gate`: every error it returns is due and every due error is returned, so it returns none
      exactly when the responses pass. */
  method Gate(tools: Tools, t: Round, allow: seq<Allow>, corpus: Option<string>) returns (errors: seq<Problem>)
    ensures forall p :: p in errors <==> Due(tools, t, Active(allow, corpus), p)
    ensures errors == [] <==> Passes(tools, t, Active(allow, corpus))
  {
    hide Diffs, Excused, Useful, Active, Passes;
    var active := Filter(allow, corpus);
    var names := Names(t.requests);
    var e1 := Extras(false, t.go.Keys, names);
    var e2 := Extras(true, t.rust.Keys, names);
    var e3, used := Requests(tools, t, active);
    var e4 := Idles(active, used, names);
    errors := e1 + e2 + e3 + e4;
    AllDue(tools, t, active, errors, e1, e2, e3, e4, used);
    NothingDue(tools, t, active);
    assert errors == [] <==> forall p :: p !in errors by {
      if errors != [] { assert errors[0] in errors; }
    }
  }

  lemma AllDue(tools: Tools, t: Round, active: seq<Allow>, errors: seq<Problem>, e1: seq<Problem>, e2: seq<Problem>,
               e3: seq<Problem>, e4: seq<Problem>, used: set<nat>)
    requires errors == e1 + e2 + e3 + e4
    requires forall p :: p in e1 <==> p.Unrequested? && p.rustSide == false && p.name in t.go.Keys - Names(t.requests)
    requires forall p :: p in e2 <==> p.Unrequested? && p.rustSide == true && p.name in t.rust.Keys - Names(t.requests)
    requires forall p :: p in e3 <==> RequestError(tools, t, active, p)
    requires forall i: nat :: i in used <==> i < |active| && Useful(tools, t, active[i])
    requires forall p :: p in e4 <==>
               && p.Idle?
               && exists i: nat | i < |active| ::
                    i !in used && active[i] == p.entry && p.entry.endpoint in Names(t.requests)
    ensures forall p :: p in errors <==> Due(tools, t, active, p)
  {
    hide Diffs, Excused, Useful, Found, Names;
    forall p
      ensures p in errors <==> Due(tools, t, active, p)
    {
      if p.Idle? && p.entry in active {
        var i: nat :| i < |active| && active[i] == p.entry;
        assert i in used <==> Useful(tools, t, p.entry);
      }
    }
  }
}

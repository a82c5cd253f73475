/**
 * processDNSRequest: the per-name decision of the dns command. A name is scoped to a
 * root domain, rejected early when out of scope, blacklisted or under a dynamic
 * wildcard, then resolved type by type in the configured order (stopping after a CNAME
 * that produced answers), and finally dropped when it has no records or matches a
 * wildcard. Exactly one value is sent on the answer channel on every path.
 */
module Resolution {
  import opened DnsTypes
  import opened Settings

  /** What the pool's Resolve returns: the answers, and whether an error came with them. */
  datatype Lookup = Lookup(answers: seq<Answer>, failed: bool)

  /**
   * The pool operations processDNSRequest relies on. The resolver pool itself is not part
   * of this model, so each operation is an arbitrary function of its inputs.
   */
  datatype Oracles = Oracles(
    subdomainToDomain: string -> string,
    wildcardType: (string, string) -> WildcardType,
    resolve: (string, string, Priority) -> Lookup,
    matchesWildcard: Request -> bool)

  /** One call made on the pool, in the order made. */
  datatype PoolCall =
    | SubdomainToDomainCall(name: string)
    | GetWildcardTypeCall(name: string, domain: string)
    | ResolveCall(name: string, rrType: string, priority: Priority)
    | MatchesWildcardCall(req: Request)

  /** The value sent on the answer channel (None is Go's nil) and the pool calls made. */
  datatype Outcome = Outcome(sent: Option<Request>, calls: seq<PoolCall>)

  /** The answers one lookup adds: none when Resolve reported an error. */
  function Contribution(o: Oracles, name: string, t: string): seq<Answer>
  {
    var lookup := o.resolve(name, t, PriorityLow);
    if lookup.failed then [] else lookup.answers
  }

  /** The answers accumulated over the queried types ts, in query order. */
  function Collected(o: Oracles, name: string, ts: seq<string>): seq<Answer>
  {
    if ts == [] then [] else Contribution(o, name, ts[0]) + Collected(o, name, ts[1..])
  }

  /** The loop breaks after type ts[j]: it is CNAME and answers have accumulated by then. */
  predicate StopsAfter(o: Oracles, name: string, ts: seq<string>, j: nat)
    requires j < |ts|
  {
    ts[j] == "CNAME" && Collected(o, name, ts[..j + 1]) != []
  }

  /** How many types, counting from i, the loop queries before it ends. */
  function QueriedFrom(o: Oracles, name: string, ts: seq<string>, i: nat): (k: nat)
    requires i <= |ts|
    ensures i <= k <= |ts|
    ensures forall j :: i <= j < k - 1 ==> !StopsAfter(o, name, ts, j)
    ensures k < |ts| ==> i < k && StopsAfter(o, name, ts, k - 1)
    decreases |ts| - i
  {
    if i == |ts| then |ts|
    else if StopsAfter(o, name, ts, i) then i + 1
    else QueriedFrom(o, name, ts, i + 1)
  }

  /**
   * The number of configured types that are queried: one past the first CNAME after which
   * answers have accumulated, or all of them.
   */
  function QueriedCount(o: Oracles, name: string, ts: seq<string>): (k: nat)
    ensures k <= |ts|
    ensures forall j :: 0 <= j < k - 1 ==> !StopsAfter(o, name, ts, j)
    ensures k < |ts| ==> 0 < k && StopsAfter(o, name, ts, k - 1)
  {
    QueriedFrom(o, name, ts, 0)
  }

  function ResolveCalls(name: string, ts: seq<string>): seq<PoolCall>
  {
    seq(|ts|, k requires 0 <= k < |ts| => ResolveCall(name, ts[k], PriorityLow))
  }

  /** The record types of the Resolve calls in a call log, in order. */
  function Queries(calls: seq<PoolCall>): seq<string>
  {
    if calls == [] then []
    else (if calls[0].ResolveCall? then [calls[0].rrType] else []) + Queries(calls[1..])
  }

  /** processDNSRequest as a function of the request, cfg.RecordTypes, cfg.Blacklisted and the pool. */
  function Process(req: Option<Request>, types: seq<string>, blacklisted: string -> bool, o: Oracles): Outcome
  {
    if req.None? || req.value.name == "" then Outcome(None, [])
    else
      var name := req.value.name;
      var domain := o.subdomainToDomain(name);
      var scoped := [SubdomainToDomainCall(name)];
      if domain == "" || blacklisted(name) then Outcome(None, scoped)
      else
        var classified := scoped + [GetWildcardTypeCall(name, domain)];
        if o.wildcardType(name, domain) == WildcardTypeDynamic then Outcome(None, classified)
        else
          var queried := types[..QueriedCount(o, name, types)];
          var r := req.value.(domain := domain, records := Collected(o, name, queried));
          var resolved := classified + ResolveCalls(name, queried);
          if r.records == [] then Outcome(None, resolved)
          else
            var matched := resolved + [MatchesWildcardCall(r)];
            if o.matchesWildcard(r) then Outcome(None, matched) else Outcome(Some(r), matched)
  }

  /** sys.Pool(): the oracles, and a log of the calls made on it. */
  class Pool {
    const oracles: Oracles
    ghost var log: seq<PoolCall>

    constructor (o: Oracles)
      ensures oracles == o && log == []
    {
      oracles := o;
      log := [];
    }

    method SubdomainToDomain(name: string) returns (domain: string)
      modifies this`log
      ensures domain == oracles.subdomainToDomain(name)
      ensures log == old(log) + [SubdomainToDomainCall(name)]
    {
      domain := oracles.subdomainToDomain(name);
      log := log + [SubdomainToDomainCall(name)];
    }

    method GetWildcardType(name: string, domain: string) returns (w: WildcardType)
      modifies this`log
      ensures w == oracles.wildcardType(name, domain)
      ensures log == old(log) + [GetWildcardTypeCall(name, domain)]
    {
      w := oracles.wildcardType(name, domain);
      log := log + [GetWildcardTypeCall(name, domain)];
    }

    method Resolve(name: string, rrType: string, priority: Priority) returns (lookup: Lookup)
      modifies this`log
      ensures lookup == oracles.resolve(name, rrType, priority)
      ensures log == old(log) + [ResolveCall(name, rrType, priority)]
    {
      lookup := oracles.resolve(name, rrType, priority);
      log := log + [ResolveCall(name, rrType, priority)];
    }

    method MatchesWildcard(req: Request) returns (matches: bool)
      modifies this`log
      ensures matches == oracles.matchesWildcard(req)
      ensures log == old(log) + [MatchesWildcardCall(req)]
    {
      matches := oracles.matchesWildcard(req);
      log := log + [MatchesWildcardCall(req)];
    }
  }

  /** The answers channel: everything sent on it, in order. */
  class AnswerStream {
    var sent: seq<Option<Request>>

    constructor ()
      ensures sent == []
    {
      sent := [];
    }

    method Send(v: Option<Request>)
      modifies this
      ensures sent == old(sent) + [v]
    {
      sent := sent + [v];
    }
  }

  /** cfg.SemMaxDNSQueries: the number of tickets currently held. */
  class Semaphore {
    var held: nat

    constructor (initiallyHeld: nat)
      ensures held == initiallyHeld
    {
      held := initiallyHeld;
    }

    method Release()
      requires held > 0
      modifies this
      ensures held == old(held) - 1
    {
      held := held - 1;
    }
  }

  lemma {:induction false} CollectedSnoc(o: Oracles, name: string, ts: seq<string>, t: string)
    ensures Collected(o, name, ts + [t]) == Collected(o, name, ts) + Contribution(o, name, t)
    decreases |ts|
  {
    if ts != [] {
      assert (ts + [t])[1..] == ts[1..] + [t];
      CollectedSnoc(o, name, ts[1..], t);
    }
  }

  /**
   * The loop over cfg.RecordTypes: each type is resolved at low priority in order, failed
   * lookups add nothing, and the loop ends after a CNAME once answers have accumulated.
   */
  method ResolveTypes(name: string, types: array<string>, pool: Pool) returns (answers: seq<Answer>)
    modifies pool`log
    ensures var queried := types[..QueriedCount(pool.oracles, name, types[..])];
      answers == Collected(pool.oracles, name, queried)
      && pool.log == old(pool.log) + ResolveCalls(name, queried)
  {
    ghost var o := pool.oracles;
    ghost var before := pool.log;
    answers := [];
    var i := 0;
    while i < types.Length
      invariant 0 <= i <= types.Length
      invariant answers == Collected(o, name, types[..i])
      invariant pool.log == before + ResolveCalls(name, types[..i])
      invariant QueriedFrom(o, name, types[..], i) == QueriedCount(o, name, types[..])
    {
      var t := types[i];
      var lookup := pool.Resolve(name, t, PriorityLow);
      if !lookup.failed {
        answers := answers + lookup.answers;
      }
      CollectedSnoc(o, name, types[..i], t);
      assert types[..i + 1] == types[..i] + [t];
      assert ResolveCalls(name, types[..i + 1]) == ResolveCalls(name, types[..i]) + [ResolveCall(name, t, PriorityLow)];
      i := i + 1;
      if t == "CNAME" && |answers| > 0 {
        break;
      }
    }
    assert i == QueriedCount(o, name, types[..]);
    assert types[..][..i] == types[..i];
  }

  /** A send on the answer channel followed by the deferred release of the ticket. */
  method Finish(c: AnswerStream, sem: Semaphore, v: Option<Request>)
    requires sem.held > 0
    modifies c, sem
    ensures c.sent == old(c.sent) + [v] && sem.held == old(sem.held) - 1
  {
    c.Send(v);
    sem.Release();
  }

  /**
   * processDNSRequest: the caller holds a ticket of the semaphore; exactly one value is
   * sent, the ticket is released, and the pool sees exactly the calls of Process.
   */
  method ProcessDNSRequest(req: Option<Request>, cfg: Config, blacklisted: string -> bool,
                           pool: Pool, c: AnswerStream, sem: Semaphore)
    requires sem.held > 0
    modifies pool`log, c, sem
    ensures c.sent == old(c.sent) + [Process(req, cfg.recordTypes[..], blacklisted, pool.oracles).sent]
    ensures pool.log == old(pool.log) + Process(req, cfg.recordTypes[..], blacklisted, pool.oracles).calls
    ensures sem.held == old(sem.held) - 1
  {
    ghost var out := Process(req, cfg.recordTypes[..], blacklisted, pool.oracles);
    ghost var o, log0 := pool.oracles, pool.log;
    if req.None? || req.value.name == "" {
      assert out == Outcome(None, []);
      Finish(c, sem, None);
      return;
    }
    var name := req.value.name;
    var domain := pool.SubdomainToDomain(name);
    if domain == "" {
      assert out == Outcome(None, [SubdomainToDomainCall(name)]);
      Finish(c, sem, None);
      return;
    }
    if blacklisted(name) {
      assert out == Outcome(None, [SubdomainToDomainCall(name)]);
      Finish(c, sem, None);
      return;
    }
    var wildcard := pool.GetWildcardType(name, domain);
    ghost var classified := [SubdomainToDomainCall(name)] + [GetWildcardTypeCall(name, domain)];
    assert pool.log == log0 + classified;
    if wildcard == WildcardTypeDynamic {
      assert out == Outcome(None, classified);
      Finish(c, sem, None);
      return;
    }

    var answers := ResolveTypes(name, cfg.recordTypes, pool);
    ghost var resolved := classified + ResolveCalls(name, cfg.recordTypes[..QueriedCount(o, name, cfg.recordTypes[..])]);
    assert pool.log == log0 + resolved;
    var r := req.value.(domain := domain, records := answers);
    if |r.records| == 0 {
      assert out == Outcome(None, resolved);
      Finish(c, sem, None);
      return;
    }
    var matches := pool.MatchesWildcard(r);
    assert pool.log == log0 + (resolved + [MatchesWildcardCall(r)]);
    if matches {
      assert out == Outcome(None, resolved + [MatchesWildcardCall(r)]);
      Finish(c, sem, None);
      return;
    }
    assert out == Outcome(Some(r), resolved + [MatchesWildcardCall(r)]);
    Finish(c, sem, Some(r));
  }

  /** Accumulation distributes over consecutive runs of queried types. */
  lemma {:induction false} CollectedAppend(o: Oracles, name: string, a: seq<string>, b: seq<string>)
    ensures Collected(o, name, a + b) == Collected(o, name, a) + Collected(o, name, b)
    decreases |a|
  {
    if a == [] {
      assert a + b == b;
    } else {
      assert (a + b)[0] == a[0] && (a + b)[1..] == a[1..] + b;
      CollectedAppend(o, name, a[1..], b);
    }
  }

  /** A lookup that reports an error contributes no answers, whatever it returned with the error. */
  lemma {:induction false} FailedLookupAddsNothing(o: Oracles, name: string, ts: seq<string>, i: nat)
    requires i < |ts| && o.resolve(name, ts[i], PriorityLow).failed
    ensures Collected(o, name, ts) == Collected(o, name, ts[..i] + ts[i + 1..])
  {
    assert ts == ts[..i] + ([ts[i]] + ts[i + 1..]);
    CollectedAppend(o, name, ts[..i], [ts[i]] + ts[i + 1..]);
    CollectedAppend(o, name, ts[..i], ts[i + 1..]);
    assert Collected(o, name, [ts[i]] + ts[i + 1..]) == Contribution(o, name, ts[i]) + Collected(o, name, ts[i + 1..]);
  }

  lemma {:induction false} QueriesAppend(a: seq<PoolCall>, b: seq<PoolCall>)
    ensures Queries(a + b) == Queries(a) + Queries(b)
    decreases |a|
  {
    if a == [] {
      assert a + b == b;
    } else {
      assert (a + b)[0] == a[0] && (a + b)[1..] == a[1..] + b;
      QueriesAppend(a[1..], b);
    }
  }

  /** The Resolve calls of the loop ask for exactly the types given, in their order. */
  lemma {:induction false} QueriesOfResolveCalls(name: string, ts: seq<string>)
    ensures Queries(ResolveCalls(name, ts)) == ts
    decreases |ts|
  {
    if ts != [] {
      assert ResolveCalls(name, ts)[1..] == ResolveCalls(name, ts[1..]);
      QueriesOfResolveCalls(name, ts[1..]);
    }
  }

  /** A nil request or an empty name yields nil and makes no pool call. */
  lemma InvalidRequestSendsNil(req: Option<Request>, types: seq<string>, blacklisted: string -> bool, o: Oracles)
    requires req.None? || req.value.name == ""
    ensures Process(req, types, blacklisted, o) == Outcome(None, [])
  {
  }

  /**
   * An out-of-scope, blacklisted or dynamically wildcarded name yields nil and Resolve is
   * never called for it.
   */
  lemma {:induction false} EarlyRejectionNeverResolves(req: Option<Request>, types: seq<string>, blacklisted: string -> bool, o: Oracles)
    requires req.Some? && req.value.name != ""
    requires var name := req.value.name; var domain := o.subdomainToDomain(name);
      domain == "" || blacklisted(name) || o.wildcardType(name, domain) == WildcardTypeDynamic
    ensures Process(req, types, blacklisted, o).sent == None
    ensures Queries(Process(req, types, blacklisted, o).calls) == []
  {
    var name := req.value.name;
    var domain := o.subdomainToDomain(name);
    var calls := Process(req, types, blacklisted, o).calls;
    assert Queries([SubdomainToDomainCall(name)][1..]) == [];
    if !(domain == "" || blacklisted(name)) {
      assert calls == [SubdomainToDomainCall(name)] + [GetWildcardTypeCall(name, domain)];
      QueriesAppend([SubdomainToDomainCall(name)], [GetWildcardTypeCall(name, domain)]);
      assert Queries([GetWildcardTypeCall(name, domain)][1..]) == [];
    }
  }

  /**
   * For a name that passes the early checks, the types queried are a prefix of the
   * configured list, in its order, one call each, all at low priority.
   */
  lemma {:induction false} ResolvesInConfiguredOrder(req: Option<Request>, types: seq<string>, blacklisted: string -> bool, o: Oracles)
    requires req.Some? && req.value.name != ""
    requires var name := req.value.name; var domain := o.subdomainToDomain(name);
      domain != "" && !blacklisted(name) && o.wildcardType(name, domain) != WildcardTypeDynamic
    ensures Queries(Process(req, types, blacklisted, o).calls) == types[..QueriedCount(o, req.value.name, types)]
    ensures forall c :: c in Process(req, types, blacklisted, o).calls && c.ResolveCall? ==>
      c.name == req.value.name && c.priority == PriorityLow
  {
    var name := req.value.name;
    var domain := o.subdomainToDomain(name);
    var queried := types[..QueriedCount(o, name, types)];
    var head := [SubdomainToDomainCall(name), GetWildcardTypeCall(name, domain)];
    var out := Process(req, types, blacklisted, o);
    assert [SubdomainToDomainCall(name)] + [GetWildcardTypeCall(name, domain)] == head;
    assert Queries(head) == [] by {
      assert Queries(head[1..][1..]) == [];
    }
    QueriesOfResolveCalls(name, queried);
    QueriesAppend(head, ResolveCalls(name, queried));
    if out.calls != head + ResolveCalls(name, queried) {
      var r := req.value.(domain := domain, records := Collected(o, name, queried));
      assert out.calls == head + ResolveCalls(name, queried) + [MatchesWildcardCall(r)];
      QueriesAppend(head + ResolveCalls(name, queried), [MatchesWildcardCall(r)]);
      assert Queries([MatchesWildcardCall(r)][1..]) == [];
    }
  }

  /** Once a CNAME lookup leaves the accumulated answers non-empty, no later type is queried. */
  lemma CnameShortCircuit(o: Oracles, name: string, types: seq<string>, j: nat)
    requires j < |types| && types[j] == "CNAME" && Collected(o, name, types[..j + 1]) != []
    ensures QueriedCount(o, name, types) <= j + 1
  {
    assert StopsAfter(o, name, types, j);
  }

  /** Without such a CNAME every configured type is queried. */
  lemma AllTypesQueried(o: Oracles, name: string, types: seq<string>)
    requires forall j :: 0 <= j < |types| ==> !StopsAfter(o, name, types, j)
    ensures QueriedCount(o, name, types) == |types|
  {
  }

  /**
   * A request is sent exactly when the name passes the early checks, some answers
   * accumulated, and they do not match a wildcard; it then carries the root domain and
   * the answers of the successful lookups, in query order.
   */
  lemma SentIff(req: Option<Request>, types: seq<string>, blacklisted: string -> bool, o: Oracles)
    ensures var out := Process(req, types, blacklisted, o);
      out.sent.Some? <==>
        (req.Some? && req.value.name != "" &&
         var name := req.value.name;
         var domain := o.subdomainToDomain(name);
         var r := req.value.(domain := domain, records := Collected(o, name, types[..QueriedCount(o, name, types)]));
         domain != "" && !blacklisted(name) && o.wildcardType(name, domain) != WildcardTypeDynamic &&
         r.records != [] && !o.matchesWildcard(r))
    ensures var out := Process(req, types, blacklisted, o);
      out.sent.Some? ==>
        var name := req.value.name;
        out.sent.value == req.value.(domain := o.subdomainToDomain(name),
                                     records := Collected(o, name, types[..QueriedCount(o, name, types)]))
  {
  }
}

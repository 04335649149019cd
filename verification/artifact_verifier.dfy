/** Checking what a turn's tool calls claim to have changed against the workspace as it is. */
module ArtifactVerification {
  import opened ArtifactEvidence
  import opened Collections

  // ---------- What a history of calls claims ----------

  function Keys(world: World, paths: seq<string>): set<string> {
    set p | p in paths :: world.resolve(p)
  }

  function RequestKeys(world: World, requests: seq<Request>): set<string> {
    set r, p | r in requests && p in r.Paths() :: world.resolve(p)
  }

  predicate DistinctCalls(requests: seq<Request>) {
    forall i, j :: 0 <= i < j < |requests| ==> requests[i].callId == requests[j].callId ==> requests[i].callId == []
  }

  /** No call id is used twice and every patch could be parsed. */
  predicate RequestsClean(requests: seq<Request>) {
    DistinctCalls(requests) && forall r | r in requests :: !(r.firstParty && r.unparsed)
  }

  predicate Answers(request: Request, result: ToolResult) {
    request.callId == result.callId != [] && request.tool == result.tool
  }

  /** A first-party result answers a request with the same call id and tool. */
  predicate ResultRecognized(requests: seq<Request>, result: ToolResult) {
    result.firstParty ==> exists q | q in requests :: Answers(q, result)
  }

  /** ... and reports only paths that request named. */
  predicate PathsAuthorized(world: World, requests: seq<Request>, result: ToolResult) {
    result.firstParty ==>
      forall item | item in result.Items() && item.path.Some? ::
        world.resolve(item.path.value) in AuthorizedFor(world, requests, result)
  }

  function NewClaim(path: string): Claim {
    Claim(path, true, None, None, None, [], false)
  }

  function ClaimFor(claims: map<string, Claim>, world: World, path: string): Claim {
    if world.resolve(path) in claims then claims[world.resolve(path)] else NewClaim(path)
  }

  /** Every claim is filed under the path it was made for. */
  predicate Filed(world: World, claims: map<string, Claim>) {
    forall key | key in claims :: world.resolve(claims[key].requestedPath) == key
  }

  /** The claims of a call's arguments: its targets, with the content of a whole-file write. */
  function Requested(world: World, claims: map<string, Claim>, paths: seq<string>, writes: Option<Bytes>)
    : (r: map<string, Claim>)
    ensures r.Keys == claims.Keys + Keys(world, paths)
  {
    if paths == [] then claims
    else
      var before, path := Requested(world, claims, paths[..|paths| - 1], writes), paths[|paths| - 1];
      var claim := ClaimFor(before, world, path);
      before[world.resolve(path) := if writes.Some? then claim.(content := writes) else claim]
  }

  lemma {:induction false} RequestedKeeps(world: World, claims: map<string, Claim>, paths: seq<string>,
                                          writes: Option<Bytes>)
    requires Early(world, claims)
    ensures Early(world, Requested(world, claims, paths, writes))
  {
    if paths != [] {
      RequestedKeeps(world, claims, paths[..|paths| - 1], writes);
    }
  }

  /** The claims before any expectation is read. */
  predicate Early(world: World, claims: map<string, Claim>) {
    Filed(world, claims) && forall key | key in claims :: Untouched(claims[key])
  }

  /** A claim no expectation has touched yet. */
  predicate Untouched(claim: Claim) {
    claim.criteria == []
  }

  function FirstDigest(a: Option<string>, b: Option<string>): Option<string> {
    if a.Some? then a else b
  }

  function WithItem(claim: Claim, item: Item): Claim {
    claim.(changed := true, before := FirstDigest(item.before, claim.before),
           after := FirstDigest(item.after, claim.after),
           expectedExists := if item.delete then false else claim.expectedExists,
           content := if item.content.Some? then item.content else claim.content)
  }

  datatype Reported = Reported(claims: map<string, Claim>, seen: set<string>, unexpected: seq<string>)

  /** The items of one result in turn: the first report of a path counts, and only if the call may touch it. */
  function ReportItems(world: World, start: map<string, Claim>, authorized: set<string>, items: seq<Item>)
    : (r: Reported)
    ensures start.Keys <= r.claims.Keys <= start.Keys + authorized
    ensures Early(world, start) ==> Early(world, r.claims)
    ensures r.seen == set item | item in items && item.path.Some? :: world.resolve(item.path.value)
    ensures r.unexpected == [] <==> r.seen <= authorized
  {
    if items == [] then Reported(start, {}, [])
    else
      var last := items[|items| - 1];
      var before := ReportItems(world, start, authorized, items[..|items| - 1]);
      assert items == items[..|items| - 1] + [last];
      if last.path.None? || world.resolve(last.path.value) in before.seen then before
      else
        var key := world.resolve(last.path.value);
        var seen := before.seen + {key};
        if key !in authorized then Reported(before.claims, seen, before.unexpected + [last.path.value])
        else Reported(before.claims[key := WithItem(ClaimFor(before.claims, world, last.path.value), last)], seen,
                      before.unexpected)
  }

  function WithExpectation(claim: Claim, e: Expectation): Claim {
    claim.(expectedExists := e.mustExist, after := e.after, content := e.content,
           criteria := Dedup(claim.criteria + e.criteria))
  }

  /** The paths a result may report: those its request named. */
  function AuthorizedFor(world: World, requests: seq<Request>, result: ToolResult): set<string> {
    set q, p | q in requests && Answers(q, result) && p in q.Paths() :: world.resolve(p)
  }

  function RequestClaims(world: World, requests: seq<Request>): map<string, Claim> {
    if requests == [] then map[]
    else
      var last := requests[|requests| - 1];
      Requested(world, RequestClaims(world, requests[..|requests| - 1]), last.Paths(), last.writes)
  }

  function ResultClaims(world: World, requests: seq<Request>, results: seq<ToolResult>): map<string, Claim> {
    if results == [] then RequestClaims(world, requests)
    else
      var before, last := ResultClaims(world, requests, results[..|results| - 1]), results[|results| - 1];
      if !last.firstParty then before
      else ReportItems(world, before, AuthorizedFor(world, requests, last), last.Items()).claims
  }

  function ExpectedClaims(world: World, early: map<string, Claim>, expectations: seq<Expectation>): map<string, Claim> {
    if expectations == [] then early
    else
      var last := expectations[|expectations| - 1];
      var before := ExpectedClaims(world, early, expectations[..|expectations| - 1]);
      if last.path == [] then before
      else before[world.resolve(last.path) := WithExpectation(ClaimFor(before, world, last.path), last)]
  }

  /** The claims a clean history makes: of its requests, as its results report, as the expectations demand. */
  function ClaimsOf(world: World, requests: seq<Request>, results: seq<ToolResult>, expectations: seq<Expectation>)
    : map<string, Claim>
  {
    ExpectedClaims(world, ResultClaims(world, requests, results), expectations)
  }

  /** What the collector knows of the calls it has read, when no request was refused. */
  ghost predicate Knows(world: World, requests: seq<Request>, tools: map<string, string>,
                        authorized: map<(string, string), set<string>>)
  {
    && (forall r | r in requests && r.callId != [] ::
          r.callId in tools && tools[r.callId] == r.tool
          && (r.callId, r.tool) in authorized && authorized[(r.callId, r.tool)] == Keys(world, r.Paths()))
    && (forall id | id in tools :: exists r :: r in requests && r.callId == id != [])
    && (forall id, tool :: (id, tool) in authorized ==> id in tools && tools[id] == tool)
  }

  class Collector {
    const world: World
    var claims: map<string, Claim>
    var tools: map<string, string>
    var authorized: map<(string, string), set<string>>
    var unexpected: seq<(string, string)>
    var errors: seq<ExtractionError>

    constructor (world: World)
      ensures this.world == world && claims == map[] && tools == map[] && authorized == map[]
      ensures unexpected == [] && errors == []
    {
      this.world := world;
      claims, tools, authorized, unexpected, errors := map[], map[], map[], [], [];
    }

    /** Whether the call id was already used, under this tool or another. */
    predicate Repeats(request: Request)
      reads this
    {
      && request.callId != []
      && ((request.callId in tools && tools[request.callId] != request.tool)
          || (request.callId, request.tool) in authorized)
    }

    method AddRequest(request: Request)
      modifies this
      ensures unexpected == old(unexpected)
      ensures errors == old(errors) + (if request.firstParty && request.unparsed then [UnparsedPatch] else [])
                          + (if old(Repeats(request)) then [DuplicateCallId(request.callId)] else [])
      ensures tools == if request.callId != [] && request.callId !in old(tools)
                       then old(tools)[request.callId := request.tool] else old(tools)
      ensures old(Repeats(request)) ==> claims == old(claims) && authorized == old(authorized)
      ensures !old(Repeats(request)) ==>
        && claims == Requested(world, old(claims), request.Paths(), request.writes)
        && authorized == if request.callId == [] then old(authorized)
                         else old(authorized)[(request.callId, request.tool) := Keys(world, request.Paths())]
    {
      hide Requested;
      if request.firstParty && request.unparsed {
        errors := errors + [UnparsedPatch];
      }
      if request.callId != [] {
        if request.callId !in tools {
          tools := tools[request.callId := request.tool];
        }
        if tools[request.callId] != request.tool || (request.callId, request.tool) in authorized {
          errors := errors + [DuplicateCallId(request.callId)];
          return;
        }
        authorized := authorized[(request.callId, request.tool) := Keys(world, request.Paths())];
      }
      ClaimPaths(request.Paths(), request.writes);
    }

    method ClaimPaths(paths: seq<string>, writes: Option<Bytes>)
      modifies `claims
      ensures claims == Requested(world, old(claims), paths, writes)
    {
      for k := 0 to |paths|
        invariant claims == Requested(world, old(claims), paths[..k], writes)
      {
        assert paths[..k + 1][..k] == paths[..k];
        var claim := ClaimFor(claims, world, paths[k]);
        claims := claims[world.resolve(paths[k]) := if writes.Some? then claim.(content := writes) else claim];
      }
      assert paths[..|paths|] == paths;
    }

    function Authorized(result: ToolResult): set<string>
      reads this
    {
      AuthorizedIn(authorized, result)
    }

    function RecognitionErrors(result: ToolResult): seq<ExtractionError>
      reads this
    {
      if result.callId !in tools then [UnrecognizedResult(result.callId)]
      else if tools[result.callId] != result.tool
        then [ToolMismatch(result.callId, tools[result.callId], result.tool)]
      else []
    }

    method AddResult(result: ToolResult)
      modifies this
      ensures tools == old(tools) && authorized == old(authorized)
      ensures !result.firstParty ==> claims == old(claims) && errors == old(errors) && unexpected == old(unexpected)
      ensures result.firstParty ==> errors == old(errors) + old(RecognitionErrors(result))
      ensures result.firstParty ==>
        var reported := ReportItems(world, old(claims), old(Authorized(result)), result.Items());
        && claims == reported.claims
        && unexpected == old(unexpected) + Labelled(result.callId, reported.unexpected)
    {
      hide ReportItems, Labelled;
      if !result.firstParty {
        return;
      }
      var allowed := Authorized(result);
      errors := errors + RecognitionErrors(result);
      ReportAll(result.callId, allowed, result.Items());
    }

    method ReportAll(callId: string, allowed: set<string>, items: seq<Item>)
      modifies `claims, `unexpected
      ensures var reported := ReportItems(world, old(claims), allowed, items);
        && claims == reported.claims && unexpected == old(unexpected) + Labelled(callId, reported.unexpected)
    {
      hide ReportItems, WithItem, ClaimFor;
      ghost var added: seq<string> := [];
      var seen := {};
      ReportNothing(world, claims, allowed);
      assert items[..0] == [];
      for k := 0 to |items|
        invariant Reported(claims, seen, added) == ReportItems(world, old(claims), allowed, items[..k])
        invariant unexpected == old(unexpected) + Labelled(callId, added)
      {
        var item := items[k];
        ReportStep(world, old(claims), allowed, items, k);
        if item.path.Some? && world.resolve(item.path.value) !in seen {
          var key := world.resolve(item.path.value);
          seen := seen + {key};
          if key !in allowed {
            unexpected := unexpected + [(callId, item.path.value)];
            added := added + [item.path.value];
          } else {
            claims := claims[key := WithItem(ClaimFor(claims, world, item.path.value), item)];
          }
        }
      }
      assert items[..|items|] == items;
    }

    method AddExpectation(e: Expectation)
      modifies this
      ensures tools == old(tools) && authorized == old(authorized) && unexpected == old(unexpected)
      ensures e.path == [] ==> claims == old(claims) && errors == old(errors) + [BlankExpectation]
      ensures e.path != [] ==>
        && errors == old(errors)
        && claims == old(claims)[world.resolve(e.path) := WithExpectation(ClaimFor(old(claims), world, e.path), e)]
    {
      if e.path == [] {
        errors := errors + [BlankExpectation];
        return;
      }
      var claim := ClaimFor(claims, world, e.path);
      claims := claims[world.resolve(e.path) := WithExpectation(claim, e)];
    }
  }

  function Labelled(callId: string, paths: seq<string>): (r: seq<(string, string)>)
    ensures |r| == |paths|
  {
    seq(|paths|, k requires 0 <= k < |paths| => (callId, paths[k]))
  }

  lemma ReportNothing(world: World, start: map<string, Claim>, authorized: set<string>)
    ensures ReportItems(world, start, authorized, []) == Reported(start, {}, [])
  {
  }

  lemma ReportStep(world: World, start: map<string, Claim>, authorized: set<string>, items: seq<Item>, k: nat)
    requires k < |items|
    ensures var before, item := ReportItems(world, start, authorized, items[..k]), items[k];
      ReportItems(world, start, authorized, items[..k + 1]) ==
        if item.path.None? || world.resolve(item.path.value) in before.seen then before
        else if world.resolve(item.path.value) !in authorized
          then Reported(before.claims, before.seen + {world.resolve(item.path.value)},
                        before.unexpected + [item.path.value])
        else Reported(before.claims[world.resolve(item.path.value) :=
                        WithItem(ClaimFor(before.claims, world, item.path.value), item)],
                      before.seen + {world.resolve(item.path.value)}, before.unexpected)
  {
    assert items[..k + 1][..k] == items[..k];
  }

  // ---------- The three passes ----------

  ghost predicate ReadRequests(world: World, requests: seq<Request>, claims: map<string, Claim>,
                               tools: map<string, string>, authorized: map<(string, string), set<string>>,
                               clean: bool)
  {
    && (clean <==> RequestsClean(requests))
    && (clean ==> Knows(world, requests, tools, authorized) && claims == RequestClaims(world, requests))
    && Early(world, claims)
    && forall pair | pair in authorized :: authorized[pair] <= claims.Keys
  }

  lemma RepeatsIffUsed(world: World, requests: seq<Request>, tools: map<string, string>,
                       authorized: map<(string, string), set<string>>, request: Request)
    requires Knows(world, requests, tools, authorized) && request.callId != []
    ensures (request.callId in tools && tools[request.callId] != request.tool)
            || (request.callId, request.tool) in authorized
      <==> exists r :: r in requests && r.callId == request.callId
  {
  }

  lemma CleanStep(requests: seq<Request>, request: Request)
    ensures RequestsClean(requests + [request]) <==>
      && RequestsClean(requests) && !(request.firstParty && request.unparsed)
      && (request.callId != [] ==> !exists r :: r in requests && r.callId == request.callId)
  {
    var all := requests + [request];
    if RequestsClean(all) {
      forall r | r in requests
        ensures !(r.firstParty && r.unparsed) && (request.callId != [] ==> r.callId != request.callId)
      {
        var i :| 0 <= i < |requests| && requests[i] == r;
        assert all[i] == r && all[|requests|] == request && r in all;
      }
      assert request in all;
      assert forall i, j :: 0 <= i < j < |requests| ==> all[i] == requests[i] && all[j] == requests[j];
    }
  }

  lemma KnowsStep(world: World, requests: seq<Request>, tools: map<string, string>,
                  authorized: map<(string, string), set<string>>, request: Request)
    requires Knows(world, requests, tools, authorized)
    requires request.callId != [] ==> !exists r :: r in requests && r.callId == request.callId
    ensures Knows(world, requests + [request],
      if request.callId != [] && request.callId !in tools then tools[request.callId := request.tool] else tools,
      if request.callId == [] then authorized
      else authorized[(request.callId, request.tool) := Keys(world, request.Paths())])
  {
    hide Keys;
  }

  lemma ClaimsStep(world: World, requests: seq<Request>, request: Request)
    ensures RequestClaims(world, requests + [request])
      == Requested(world, RequestClaims(world, requests), request.Paths(), request.writes)
  {
    assert (requests + [request])[..|requests|] == requests;
  }

  method ReadAllRequests(collector: Collector, requests: seq<Request>)
    requires collector.claims == map[] && collector.tools == map[] && collector.authorized == map[]
    requires collector.errors == [] && collector.unexpected == []
    modifies collector
    ensures ReadRequests(collector.world, requests, collector.claims, collector.tools, collector.authorized,
                         collector.errors == [])
    ensures collector.unexpected == []
  {
    hide Knows, Keys, RequestClaims, Requested, Early, RequestsClean;
    NothingRead(collector.world);
    assert requests[..0] == [];
    for k := 0 to |requests|
      invariant ReadRequests(collector.world, requests[..k], collector.claims, collector.tools, collector.authorized,
                             collector.errors == [])
      invariant collector.unexpected == []
    {
      var request := requests[k];
      assert requests[..k + 1] == requests[..k] + [request];
      CleanStep(requests[..k], request);
      RequestedKeeps(collector.world, collector.claims, request.Paths(), request.writes);
      if collector.errors == [] {
        if request.callId != [] {
          RepeatsIffUsed(collector.world, requests[..k], collector.tools, collector.authorized, request);
        }
        if request.callId != [] ==> !exists r :: r in requests[..k] && r.callId == request.callId {
          KnowsStep(collector.world, requests[..k], collector.tools, collector.authorized, request);
        }
        ClaimsStep(collector.world, requests[..k], request);
      }
      collector.AddRequest(request);
    }
    assert requests[..|requests|] == requests;
  }

  lemma NothingRead(world: World)
    ensures ReadRequests(world, [], map[], map[], map[], true)
  {
  }

  predicate AllRecognized(requests: seq<Request>, results: seq<ToolResult>) {
    forall r | r in results :: ResultRecognized(requests, r)
  }

  predicate AllAuthorized(world: World, requests: seq<Request>, results: seq<ToolResult>) {
    forall r | r in results :: PathsAuthorized(world, requests, r)
  }

  function AuthorizedIn(authorized: map<(string, string), set<string>>, result: ToolResult): set<string> {
    if (result.callId, result.tool) in authorized then authorized[(result.callId, result.tool)] else {}
  }

  lemma AuthorizedIsTheRequests(world: World, requests: seq<Request>, tools: map<string, string>,
                                authorized: map<(string, string), set<string>>, result: ToolResult)
    requires Knows(world, requests, tools, authorized) && DistinctCalls(requests)
    ensures result.firstParty ==>
      (ResultRecognized(requests, result) <==> result.callId in tools && tools[result.callId] == result.tool)
    ensures AuthorizedIn(authorized, result) == AuthorizedFor(world, requests, result)
  {
    if result.callId in tools && tools[result.callId] == result.tool {
      var q :| q in requests && q.callId == result.callId != [];
      assert Answers(q, result);
      forall p | p in requests && Answers(p, result) ensures p == q {
        SameCallSameRequest(requests, p, q);
      }
    }
  }

  lemma SameCallSameRequest(requests: seq<Request>, p: Request, q: Request)
    requires DistinctCalls(requests) && p in requests && q in requests && p.callId == q.callId != []
    ensures p == q
  {
    var i :| 0 <= i < |requests| && requests[i] == p;
    var j :| 0 <= j < |requests| && requests[j] == q;
  }

  /** A result's unexpected paths are those its request did not name. */
  lemma ResultVerdict(world: World, requests: seq<Request>, start: map<string, Claim>, result: ToolResult)
    requires result.firstParty
    ensures ReportItems(world, start, AuthorizedFor(world, requests, result), result.Items()).unexpected == []
      <==> PathsAuthorized(world, requests, result)
  {
    var allowed := AuthorizedFor(world, requests, result);
    var reported := ReportItems(world, start, allowed, result.Items());
    hide ReportItems, AuthorizedFor;
    if reported.seen <= allowed {
      forall item | item in result.Items() && item.path.Some? ensures world.resolve(item.path.value) in allowed {
        assert world.resolve(item.path.value) in reported.seen;
      }
    }
  }

  lemma ResultClaimsStep(world: World, requests: seq<Request>, front: seq<ToolResult>, result: ToolResult)
    ensures ResultClaims(world, requests, front + [result]) ==
      var before := ResultClaims(world, requests, front);
      if !result.firstParty then before
      else ReportItems(world, before, AuthorizedFor(world, requests, result), result.Items()).claims
  {
    assert (front + [result])[..|front|] == front;
  }

  ghost predicate ReadResults(world: World, requests: seq<Request>, results: seq<ToolResult>,
                              claims: map<string, Claim>, tools: map<string, string>,
                              authorized: map<(string, string), set<string>>, clean: bool, expected: bool)
  {
    && (clean <==> RequestsClean(requests) && AllRecognized(requests, results))
    && (RequestsClean(requests) ==> Knows(world, requests, tools, authorized)
                                    && claims == ResultClaims(world, requests, results))
    && (clean ==> (expected <==> AllAuthorized(world, requests, results)))
    && Early(world, claims)
    && forall pair | pair in authorized :: authorized[pair] <= claims.Keys
  }

  method ReadAllResults(collector: Collector, requests: seq<Request>, results: seq<ToolResult>)
    requires ReadRequests(collector.world, requests, collector.claims, collector.tools, collector.authorized,
                          collector.errors == [])
    requires collector.unexpected == []
    modifies collector
    ensures ReadResults(collector.world, requests, results, collector.claims, collector.tools, collector.authorized,
                        collector.errors == [], collector.unexpected == [])
  {
    hide Knows, Early, RequestsClean, ReportItems, ResultRecognized, PathsAuthorized,
      RequestClaims, ResultClaims, AuthorizedFor;
    assert results[..0] == [];
    NoResults(collector.world, requests);
    for k := 0 to |results|
      invariant ReadResults(collector.world, requests, results[..k], collector.claims, collector.tools,
                            collector.authorized, collector.errors == [], collector.unexpected == [])
    {
      var result := results[k];
      assert results[..k + 1] == results[..k] + [result];
      if !result.firstParty {
        Unmentioned(collector.world, requests, result);
      }
      if RequestsClean(requests) {
        CleanIsDistinct(requests);
        AuthorizedIsTheRequests(collector.world, requests, collector.tools, collector.authorized, result);
        ResultClaimsStep(collector.world, requests, results[..k], result);
        if result.firstParty {
          ResultVerdict(collector.world, requests, collector.claims, result);
        }
      }
      collector.AddResult(result);
    }
    assert results[..|results|] == results;
  }

  lemma NoResults(world: World, requests: seq<Request>)
    ensures ResultClaims(world, requests, []) == RequestClaims(world, requests)
  {
  }

  lemma CleanIsDistinct(requests: seq<Request>)
    requires RequestsClean(requests)
    ensures DistinctCalls(requests)
  {
  }

  /** Results of other tools claim nothing. */
  lemma Unmentioned(world: World, requests: seq<Request>, result: ToolResult)
    requires !result.firstParty
    ensures ResultRecognized(requests, result) && PathsAuthorized(world, requests, result)
  {
  }

  predicate Targets(world: World, e: Expectation, key: string) {
    e.path != [] && world.resolve(e.path) == key
  }

  /** The expectation that decides existence, digest and content of a target: the last one. */
  function LastFor(world: World, expectations: seq<Expectation>, key: string): (r: Option<Expectation>)
    ensures r.Some? <==> exists e | e in expectations :: Targets(world, e, key)
  {
    if expectations == [] then None
    else
      var front, last := expectations[..|expectations| - 1], expectations[|expectations| - 1];
      assert expectations == front + [last];
      if Targets(world, last, key) then Some(last) else LastFor(world, front, key)
  }

  predicate Wants(world: World, expectations: seq<Expectation>, key: string, c: Criterion) {
    exists e | e in expectations :: Targets(world, e, key) && c in e.criteria
  }

  /** One claim after the expectations: the last one's state, and the criteria of all of them. */
  ghost predicate BoundClaim(world: World, early: map<string, Claim>, expectations: seq<Expectation>, key: string,
                             claim: Claim)
  {
    && world.resolve(claim.requestedPath) == key
    && (match LastFor(world, expectations, key)
        case None => key in early && claim == early[key]
        case Some(e) => claim.expectedExists == e.mustExist && claim.after == e.after && claim.content == e.content)
    && forall c :: c in claim.criteria <==> Wants(world, expectations, key, c)
  }

  ghost predicate Bound(world: World, early: map<string, Claim>, expectations: seq<Expectation>,
                        claims: map<string, Claim>)
  {
    && (forall key :: key in claims <==> key in early || LastFor(world, expectations, key).Some?)
    && forall key | key in claims :: BoundClaim(world, early, expectations, key, claims[key])
  }

  lemma NothingBound(world: World, early: map<string, Claim>)
    requires Early(world, early)
    ensures Bound(world, early, [], early)
  {
  }

  lemma WantsStep(world: World, front: seq<Expectation>, e: Expectation, key: string)
    ensures LastFor(world, front + [e], key) == if Targets(world, e, key) then Some(e) else LastFor(world, front, key)
    ensures forall c :: Wants(world, front + [e], key, c) <==>
      Wants(world, front, key, c) || (Targets(world, e, key) && c in e.criteria)
  {
    assert (front + [e])[..|front|] == front;
    forall c ensures Wants(world, front + [e], key, c) <==>
      Wants(world, front, key, c) || (Targets(world, e, key) && c in e.criteria)
    {
      if Wants(world, front, key, c) {
        var x :| x in front && Targets(world, x, key) && c in x.criteria;
        assert x in front + [e];
      }
      assert e in front + [e];
    }
  }

  lemma BindStep(world: World, early: map<string, Claim>, front: seq<Expectation>, claims: map<string, Claim>,
                 e: Expectation)
    requires Bound(world, early, front, claims)
    ensures Bound(world, early, front + [e],
      if e.path == [] then claims
      else claims[world.resolve(e.path) := WithExpectation(ClaimFor(claims, world, e.path), e)])
  {
    var after := if e.path == [] then claims
                 else claims[world.resolve(e.path) := WithExpectation(ClaimFor(claims, world, e.path), e)];
    forall key ensures key in after <==> key in early || LastFor(world, front + [e], key).Some? {
      WantsStep(world, front, e, key);
    }
    hide LastFor, Wants;
    forall key | key in after ensures BoundClaim(world, early, front + [e], key, after[key]) {
      WantsStep(world, front, e, key);
      if Targets(world, e, key) {
        BindTarget(world, early, front, claims, e);
      } else {
        assert after[key] == claims[key];
        assert BoundClaim(world, early, front, key, claims[key]);
      }
    }
  }

  lemma BindTarget(world: World, early: map<string, Claim>, front: seq<Expectation>, claims: map<string, Claim>,
                   e: Expectation)
    requires Bound(world, early, front, claims) && e.path != []
    ensures var key := world.resolve(e.path);
      BoundClaim(world, early, front + [e], key, WithExpectation(ClaimFor(claims, world, e.path), e))
  {
    var key := world.resolve(e.path);
    WantsStep(world, front, e, key);
    if key in claims {
      assert BoundClaim(world, early, front, key, claims[key]);
    } else {
      NobodyWants(world, front, key);
    }
    hide LastFor, Wants;
    var prior := ClaimFor(claims, world, e.path);
    forall c ensures c in Dedup(prior.criteria + e.criteria) <==> c in prior.criteria || c in e.criteria {
    }
  }

  lemma NobodyWants(world: World, expectations: seq<Expectation>, key: string)
    requires LastFor(world, expectations, key).None?
    ensures forall c :: !Wants(world, expectations, key, c)
  {
  }

  lemma {:induction false} ExpectedAreBound(world: World, early: map<string, Claim>, expectations: seq<Expectation>)
    requires Early(world, early)
    ensures Bound(world, early, expectations, ExpectedClaims(world, early, expectations))
  {
    if expectations == [] {
      NothingBound(world, early);
    } else {
      var front, last := expectations[..|expectations| - 1], expectations[|expectations| - 1];
      ExpectedAreBound(world, early, front);
      assert expectations == front + [last];
      hide Bound;
      BindStep(world, early, front, ExpectedClaims(world, early, front), last);
    }
  }

  method ReadAllExpectations(collector: Collector, expectations: seq<Expectation>)
    modifies collector
    ensures collector.claims == ExpectedClaims(collector.world, old(collector.claims), expectations)
    ensures collector.unexpected == old(collector.unexpected)
    ensures collector.errors == [] <==> old(collector.errors) == [] && forall e | e in expectations :: e.path != []
  {
    for k := 0 to |expectations|
      invariant collector.claims == ExpectedClaims(collector.world, old(collector.claims), expectations[..k])
      invariant collector.unexpected == old(collector.unexpected)
      invariant collector.errors == [] <==>
        old(collector.errors) == [] && forall e | e in expectations[..k] :: e.path != []
    {
      assert expectations[..k + 1] == expectations[..k] + [expectations[k]];
      assert expectations[..k + 1][..k] == expectations[..k];
      collector.AddExpectation(expectations[k]);
    }
    assert expectations[..|expectations|] == expectations;
  }

  // ---------- The verdict ----------

  /** The history contradicts neither itself nor what its requests were allowed to do. */
  predicate Trusted(world: World, requests: seq<Request>, results: seq<ToolResult>, expectations: seq<Expectation>) {
    && RequestsClean(requests) && AllRecognized(requests, results) && AllAuthorized(world, requests, results)
    && forall e | e in expectations :: e.path != []
  }

  /** What an expectation's target must look like: the last expectation of the path says whether it exists. */
  ghost predicate Delivered(world: World, host: Host, expectations: seq<Expectation>, evidence: seq<Evidence>,
                            e: Expectation)
  {
    var path := world.resolve(e.path);
    var last := LastFor(world, expectations, path);
    && last.Some? && world.within(path)
    && if !last.value.mustExist then !world.Exists(path)
       else
         && path in world.files
         && (last.value.content.Some? ==> world.files[path] == last.value.content.value)
         && (last.value.after.Some? ==> world.digest(world.files[path]) == last.value.after.value)
         && forall c | c in e.criteria :: Passes(world, host, c, world.files[path], evidence)
  }

  method VerifyAll(world: World, host: Host, claims: map<string, Claim>, evidence: seq<Evidence>) returns (all: bool)
    ensures all <==> forall key | key in claims :: Verified(world, host, claims[key], evidence)
  {
    all := true;
    var todo := claims.Keys;
    while todo != {}
      invariant todo <= claims.Keys
      invariant all <==> forall key | key in claims.Keys - todo :: Verified(world, host, claims[key], evidence)
    {
      var key :| key in todo;
      todo := todo - {key};
      var errors := VerifyTarget(world, host, claims[key], evidence);
      all := all && errors == [];
    }
  }

  /** When a turn's history counts as a success. */
  predicate Succeeds(world: World, host: Host, requests: seq<Request>, results: seq<ToolResult>,
                     expectations: seq<Expectation>, evidence: seq<Evidence>)
  {
    var claims := ClaimsOf(world, requests, results, expectations);
    && Trusted(world, requests, results, expectations) && AllSucceeded(requests, results)
    && claims != map[] && forall key | key in claims :: Verified(world, host, claims[key], evidence)
  }

  /** The verdict over an arbitrary history of calls. */
  method Verify(world: World, host: Host, turn: string, requests: seq<Request>, results: seq<ToolResult>,
                expectations: seq<Expectation>, evidenceRequests: seq<Request>, evidenceResults: seq<ToolResult>)
    returns (success: bool)
    ensures success <==> Succeeds(world, host, requests, results, expectations,
                                  EvidenceFor(host, turn, evidenceRequests, evidenceResults))
  {
    hide RequestsClean, AllRecognized, AllAuthorized, AllSucceeded, StatusOf, Early, Verified, Knows, RequestClaims,
      ResultClaims, ExpectedClaims, EvidenceFor;
    var status := StatusOf(requests, results);
    StatusMeaning(requests, results);
    var collector := new Collector(world);
    ReadAllRequests(collector, requests);
    ReadAllResults(collector, requests, results);
    ReadAllExpectations(collector, expectations);
    var evidence := CollectEvidence(host, turn, evidenceRequests, evidenceResults);
    var verified := VerifyAll(world, host, collector.claims, evidence);
    success := status.Succeeded? && collector.unexpected == [] && collector.claims != map[] && verified
               && collector.errors == [];
  }

  // ---------- What a success guarantees ----------

  lemma {:induction false} RequestClaimsShape(world: World, requests: seq<Request>)
    ensures RequestClaims(world, requests).Keys == RequestKeys(world, requests)
    ensures Early(world, RequestClaims(world, requests))
  {
    if requests == [] {
    } else {
      var front, last := requests[..|requests| - 1], requests[|requests| - 1];
      assert requests == front + [last];
      RequestClaimsShape(world, front);
      RequestKeysStep(world, front, last);
      RequestedKeeps(world, RequestClaims(world, front), last.Paths(), last.writes);
      hide Early, RequestKeys;
    }
  }

  lemma RequestKeysStep(world: World, requests: seq<Request>, request: Request)
    ensures RequestKeys(world, requests + [request]) == RequestKeys(world, requests) + Keys(world, request.Paths())
  {
  }

  lemma AuthorizedAreRequested(world: World, requests: seq<Request>, result: ToolResult)
    ensures AuthorizedFor(world, requests, result) <= RequestKeys(world, requests)
  {
  }

  /** Results add no targets of their own. */
  lemma {:induction false} ResultClaimsShape(world: World, requests: seq<Request>, results: seq<ToolResult>)
    ensures ResultClaims(world, requests, results).Keys == RequestKeys(world, requests)
    ensures Early(world, ResultClaims(world, requests, results))
  {
    hide Early, RequestKeys, AuthorizedFor;
    if results == [] {
      RequestClaimsShape(world, requests);
    } else {
      ResultClaimsShape(world, requests, results[..|results| - 1]);
      AuthorizedAreRequested(world, requests, results[|results| - 1]);
    }
  }

  /** The targets of a turn: what its requests name and what its expectations name. */
  lemma ClaimKeys(world: World, requests: seq<Request>, results: seq<ToolResult>, expectations: seq<Expectation>,
                  key: string)
    ensures key in ClaimsOf(world, requests, results, expectations) <==>
      key in RequestKeys(world, requests) || LastFor(world, expectations, key).Some?
  {
    ResultClaimsShape(world, requests, results);
    ExpectedAreBound(world, ResultClaims(world, requests, results), expectations);
  }

  /** Every expectation is met: existence, content and digest of the last one, the criteria of all. */
  lemma SuccessDelivers(world: World, host: Host, requests: seq<Request>, results: seq<ToolResult>,
                        expectations: seq<Expectation>, evidence: seq<Evidence>, e: Expectation)
    requires Succeeds(world, host, requests, results, expectations, evidence) && e in expectations
    ensures Delivered(world, host, expectations, evidence, e)
  {
    var early, claims := ResultClaims(world, requests, results), ClaimsOf(world, requests, results, expectations);
    ResultClaimsShape(world, requests, results);
    ExpectedAreBound(world, early, expectations);
    hide Evaluate, LastFor, Early, RequestsClean, AllRecognized, AllAuthorized, AllSucceeded, ExpectedClaims,
      ResultClaims;
    var key := world.resolve(e.path);
    assert Targets(world, e, key);
    assert LastFor(world, expectations, key).Some?;
    assert key in claims && BoundClaim(world, early, expectations, key, claims[key]);
    hide Passes;
    forall c | c in e.criteria
      ensures c in claims[key].criteria
      ensures key in world.files && Evaluate(world, host, c, world.files[key], evidence) == Passed ==>
        Passes(world, host, c, world.files[key], evidence)
    {
      assert Wants(world, expectations, key, c);
      if key in world.files {
        PassesIff(world, host, c, world.files[key], evidence);
      }
    }
  }

  /** The first report of a target among one result's items. */
  function FirstReport(world: World, items: seq<Item>, key: string): (r: Option<Item>)
    ensures r.Some? <==> exists item | item in items :: item.path.Some? && world.resolve(item.path.value) == key
  {
    if items == [] then None
    else
      var front, last := items[..|items| - 1], items[|items| - 1];
      assert items == front + [last];
      var before := FirstReport(world, front, key);
      if before.Some? then before
      else if last.path.Some? && world.resolve(last.path.value) == key then Some(last)
      else None
  }

  /** What the first-party results report of a target, oldest first, once for each result. */
  function Reports(world: World, results: seq<ToolResult>, key: string): seq<Item> {
    if results == [] then []
    else
      var last := results[|results| - 1];
      var report := FirstReport(world, last.Items(), key);
      Reports(world, results[..|results| - 1], key) + (if last.firstParty && report.Some? then [report.value] else [])
  }

  predicate Deleted(reports: seq<Item>) {
    exists item | item in reports :: item.delete
  }

  /** The last digest reported, if any. */
  function LastDigest(reports: seq<Item>): Option<string> {
    if reports == [] then None
    else if reports[|reports| - 1].after.Some? then reports[|reports| - 1].after
    else LastDigest(reports[..|reports| - 1])
  }

  /** The content the last whole-file write of a target asked for. */
  function LastWrite(world: World, requests: seq<Request>, key: string): Option<Bytes> {
    if requests == [] then None
    else
      var last := requests[|requests| - 1];
      if last.writes.Some? && key in Keys(world, last.Paths()) then last.writes
      else LastWrite(world, requests[..|requests| - 1], key)
  }

  /** The last content reported, else the last content written. */
  function LastContent(reports: seq<Item>, written: Option<Bytes>): Option<Bytes> {
    if reports == [] then written
    else if reports[|reports| - 1].content.Some? then reports[|reports| - 1].content
    else LastContent(reports[..|reports| - 1], written)
  }

  /** What a claim asks for once its call and its reports have been read. */
  predicate AsReported(claim: Claim, reports: seq<Item>, written: Option<Bytes>) {
    && (claim.expectedExists <==> !Deleted(reports))
    && claim.after == LastDigest(reports) && claim.content == LastContent(reports, written)
  }

  lemma {:induction false} RequestedAt(world: World, claims: map<string, Claim>, paths: seq<string>,
                                       writes: Option<Bytes>, key: string)
    requires key in Requested(world, claims, paths, writes)
    ensures var before := if key in claims then claims[key] else NewClaim(key);
      var after := Requested(world, claims, paths, writes)[key];
      && after.expectedExists == before.expectedExists && after.after == before.after
      && after.content == if writes.Some? && key in Keys(world, paths) then writes else before.content
  {
    if paths == [] {
    } else {
      var front, last := paths[..|paths| - 1], paths[|paths| - 1];
      assert paths == front + [last];
      if key in Requested(world, claims, front, writes) {
        RequestedAt(world, claims, front, writes, key);
      }
    }
  }

  lemma {:induction false} RequestClaimAt(world: World, requests: seq<Request>, key: string)
    requires key in RequestClaims(world, requests)
    ensures AsReported(RequestClaims(world, requests)[key], [], LastWrite(world, requests, key))
  {
    var front, last := requests[..|requests| - 1], requests[|requests| - 1];
    var before := RequestClaims(world, front);
    RequestedAt(world, before, last.Paths(), last.writes, key);
    if key in before {
      RequestClaimAt(world, front, key);
    } else {
      RequestClaimsShape(world, front);
      NeverWritten(world, front, key);
    }
    hide Requested;
  }

  lemma {:induction false} NeverWritten(world: World, requests: seq<Request>, key: string)
    requires key !in RequestKeys(world, requests)
    ensures LastWrite(world, requests, key).None?
  {
    if requests == [] {
    } else {
      var front, last := requests[..|requests| - 1], requests[|requests| - 1];
      assert requests == front + [last];
      RequestKeysStep(world, front, last);
      NeverWritten(world, front, key);
    }
  }

  lemma {:induction false} ReportAt(world: World, start: map<string, Claim>, authorized: set<string>, items: seq<Item>,
                                    key: string)
    requires key in start
    ensures key in ReportItems(world, start, authorized, items).claims
    ensures var report := FirstReport(world, items, key);
      ReportItems(world, start, authorized, items).claims[key] ==
        if key in authorized && report.Some? then WithItem(start[key], report.value) else start[key]
  {
    if items == [] {
    } else {
      var front, last := items[..|items| - 1], items[|items| - 1];
      assert items == front + [last];
      ReportAt(world, start, authorized, front, key);
      hide WithItem;
    }
  }

  lemma ReportedStep(claim: Claim, reports: seq<Item>, written: Option<Bytes>, item: Item)
    requires AsReported(claim, reports, written)
    ensures AsReported(WithItem(claim, item), reports + [item], written)
  {
    assert (reports + [item])[..|reports|] == reports;
    assert item in reports + [item];
    if Deleted(reports) {
      var earlier :| earlier in reports && earlier.delete;
      assert earlier in reports + [item];
    }
  }

  lemma {:induction false} ResultClaimAt(world: World, requests: seq<Request>, results: seq<ToolResult>, key: string)
    requires AllAuthorized(world, requests, results) && key in RequestKeys(world, requests)
    ensures key in ResultClaims(world, requests, results)
    ensures AsReported(ResultClaims(world, requests, results)[key], Reports(world, results, key),
                       LastWrite(world, requests, key))
  {
    ResultClaimsShape(world, requests, results);
    hide AsReported, RequestKeys, WithItem, LastWrite;
    if results == [] {
      RequestClaimsShape(world, requests);
      RequestClaimAt(world, requests, key);
    } else {
      var front, last := results[..|results| - 1], results[|results| - 1];
      assert results == front + [last];
      ResultClaimAt(world, requests, front, key);
      assert Reports(world, front, key) + [] == Reports(world, front, key);
      if last.firstParty {
        assert PathsAuthorized(world, requests, last);
        ReportIsAuthorized(world, requests, last, key);
        ReportAt(world, ResultClaims(world, requests, front), AuthorizedFor(world, requests, last), last.Items(), key);
        var report := FirstReport(world, last.Items(), key);
        hide ReportItems, FirstReport, PathsAuthorized, AuthorizedFor;
        if report.Some? {
          ReportedStep(ResultClaims(world, requests, front)[key], Reports(world, front, key),
                       LastWrite(world, requests, key), report.value);
        }
      }
    }
  }

  lemma ReportIsAuthorized(world: World, requests: seq<Request>, result: ToolResult, key: string)
    requires result.firstParty && PathsAuthorized(world, requests, result)
    ensures FirstReport(world, result.Items(), key).Some? ==> key in AuthorizedFor(world, requests, result)
  {
  }

  /** What the history alone promises of a target: deletion, digest and content as last reported or written. */
  predicate AsClaimed(world: World, reports: seq<Item>, written: Option<Bytes>, key: string) {
    && world.within(key)
    && if Deleted(reports) then !world.Exists(key)
       else
         && key in world.files
         && (LastDigest(reports).Some? ==> world.digest(world.files[key]) == LastDigest(reports).value)
         && (LastContent(reports, written).Some? ==> world.files[key] == LastContent(reports, written).value)
  }

  /** A target no expectation speaks of is as its calls and reports say: deleted, or with that digest and content. */
  lemma SuccessConfirmsReports(world: World, host: Host, requests: seq<Request>, results: seq<ToolResult>,
                               expectations: seq<Expectation>, evidence: seq<Evidence>, key: string)
    requires Succeeds(world, host, requests, results, expectations, evidence)
    requires key in RequestKeys(world, requests) && LastFor(world, expectations, key).None?
    ensures AsClaimed(world, Reports(world, results, key), LastWrite(world, requests, key), key)
  {
    var early, claims := ResultClaims(world, requests, results), ClaimsOf(world, requests, results, expectations);
    ClaimKeys(world, requests, results, expectations, key);
    ResultClaimsShape(world, requests, results);
    ExpectedAreBound(world, early, expectations);
    ResultClaimAt(world, requests, results, key);
    assert BoundClaim(world, early, expectations, key, claims[key]);
    hide Early, RequestKeys, Reports, LastWrite, LastDigest, LastContent, Deleted, ExpectedClaims, ResultClaims,
      RequestsClean, AllRecognized, AllAuthorized, AllSucceeded, Evaluate, LastFor;
    assert claims[key] == early[key] && Verified(world, host, claims[key], evidence);
  }
}

/** What a turn's calls and the workspace prove: execution status, evidence of tool runs, criteria, single targets. */
module ArtifactEvidence {
  import opened Collections

  type Bytes = seq<int>

  /** The file system at verification time, and the host's hash and path resolution. */
  datatype World = World(resolve: string -> string, within: string -> bool, files: map<string, Bytes>,
                         elsewhere: set<string>, unreadable: set<string>, digest: Bytes -> string,
                         isDigest: string -> bool)
  {
    predicate Exists(path: string) {
      path in files || path in elsewhere
    }
  }

  /** `paths` are the targets named by the arguments; `writes` the whole content of a non-appending write. */
  datatype Request = Request(callId: string, tool: string, firstParty: bool, paths: seq<string>, unparsed: bool,
                             writes: Option<Bytes>, arguments: string)
  {
    function Paths(): seq<string> {
      if firstParty then Dedup(paths) else []
    }
  }

  /** One reported change; its path is absent when the item names none. */
  datatype Item = Item(path: Option<string>, before: Option<string>, after: Option<string>, delete: bool,
                       content: Option<Bytes>)

  /** `changes` are the structured file changes, `reported` these and the result's own path metadata. */
  datatype ToolResult = ToolResult(callId: string, tool: string, firstParty: bool, error: Option<string>,
                                   changes: seq<Item>, reported: seq<Item>, approvalPending: bool,
                                   operationId: Option<string>, exitCode: Option<int>, status: Option<string>)
  {
    /** A failed call's loose path metadata is no evidence; its structured changes are. */
    function Items(): seq<Item> {
      if error.None? then reported else changes
    }
  }

  datatype FileCheck = Exists | NonEmpty | Contains(needle: Bytes) | Sha256(digest: string) | Unsupported

  datatype Criterion =
    | InvalidCriterion(display: string, code: string)
    | FileCriterion(check: FileCheck)
    | ToolExecution(profile: string, tool: string, argumentsDigest: Option<string>, callId: Option<string>,
                    operationId: Option<string>, turnId: Option<string>, expectedExit: Option<int>)

  datatype Expectation = Expectation(path: string, after: Option<string>, content: Option<Bytes>,
                                     criteria: seq<Criterion>, mustExist: bool)

  datatype Claim = Claim(requestedPath: string, expectedExists: bool, before: Option<string>, after: Option<string>,
                         content: Option<Bytes>, criteria: seq<Criterion>, changed: bool)

  datatype ExtractionError =
    | UnparsedPatch | DuplicateCallId(id: string) | UnrecognizedResult(id: string)
    | ToolMismatch(id: string, requested: string, reported: string) | BlankExpectation

  // ---------- Execution status ----------

  datatype ExecutionStatus = Unknown | Succeeded | Failed | Partial

  function RequestedIds(requests: seq<Request>): set<string> {
    set r | r in requests && r.callId != [] :: r.callId
  }

  /** The recorded result of a call: the last one. */
  function Recorded(results: seq<ToolResult>, id: string): Option<ToolResult> {
    if results == [] then None
    else
      var last := results[|results| - 1];
      if last.callId == id then Some(last) else Recorded(results[..|results| - 1], id)
  }

  predicate CallSucceeded(results: seq<ToolResult>, id: string) {
    Recorded(results, id).Some? && Recorded(results, id).value.error.None?
  }

  function StatusOf(requests: seq<Request>, results: seq<ToolResult>): ExecutionStatus {
    var ids := RequestedIds(requests);
    var successes := if ids == {} then exists r | r in results :: r.error.None?
                     else exists id | id in ids :: CallSucceeded(results, id);
    var failures := if ids == {} then exists r | r in results :: r.error.Some?
                    else exists id | id in ids :: !CallSucceeded(results, id);
    if results == [] then Unknown
    else if successes && failures then Partial
    else if failures then Failed
    else if successes then Succeeded
    else Unknown
  }

  predicate AllSucceeded(requests: seq<Request>, results: seq<ToolResult>) {
    && results != []
    && (if RequestedIds(requests) == {} then forall r | r in results :: r.error.None?
        else forall id | id in RequestedIds(requests) :: CallSucceeded(results, id))
  }

  /** The status is unknown only without any result, and succeeded only when every requested call's result is. */
  lemma StatusMeaning(requests: seq<Request>, results: seq<ToolResult>)
    ensures StatusOf(requests, results).Succeeded? <==> AllSucceeded(requests, results)
    ensures StatusOf(requests, results).Unknown? <==> results == []
  {
    if results != [] {
      assert results[0] in results;
    }
  }

  // ---------- Evidence of executed tools ----------

  datatype Evidence = Evidence(callId: string, tool: string, argumentsDigest: string, operationId: string,
                               turnId: string, exitCode: Option<int>, status: string, approvalPending: bool,
                               error: Option<string>, arguments: string)

  /** `digestArguments` fails on arguments that cannot be encoded; `profiles` maps an id to its matcher. */
  datatype Host = Host(digestArguments: (string, string) -> Option<string>,
                       profiles: map<string, (string, string) -> bool>)

  predicate SameIdentity(request: Request, result: ToolResult) {
    request.callId == result.callId && request.tool == result.tool
  }

  function Completed(): string {
    "completed"
  }

  function EvidenceOf(host: Host, turn: string, request: Request, result: ToolResult): Option<Evidence> {
    var digest := host.digestArguments(request.tool, request.arguments);
    if digest.None? || result.operationId.None? then None
    else
      var status := if result.status.Some? then result.status.value
                    else if result.error.None? then Completed() else "failed";
      Some(Evidence(request.callId, request.tool, digest.value, result.operationId.value, turn, result.exitCode, status,
                    result.approvalPending, result.error, request.arguments))
  }

  function Matching(results: seq<ToolResult>, id: string, tool: string): seq<ToolResult> {
    Filter(results, (r: ToolResult) => r.callId == id && r.tool == tool)
  }

  predicate SeenBefore(requests: seq<Request>, request: Request) {
    exists r | r in requests :: r.callId == request.callId && r.tool == request.tool
  }

  /** The evidence one request yields: none without an id, on a repeat, or unless its call has exactly one result. */
  function EvidenceOfRequest(host: Host, turn: string, before: seq<Request>, request: Request, results: seq<ToolResult>)
    : Option<Evidence>
  {
    var matching := Matching(results, request.callId, request.tool);
    if request.callId == [] || SeenBefore(before, request) || |matching| != 1 then None
    else EvidenceOf(host, turn, request, matching[0])
  }

  function EvidenceFor(host: Host, turn: string, requests: seq<Request>, results: seq<ToolResult>): seq<Evidence> {
    if requests == [] then []
    else
      var front, last := requests[..|requests| - 1], requests[|requests| - 1];
      var found := EvidenceOfRequest(host, turn, front, last, results);
      EvidenceFor(host, turn, front, results) + (if found.Some? then [found.value] else [])
  }

  /** The only result of a call under its tool; none when there are several. */
  ghost predicate SoleResult(results: seq<ToolResult>, request: Request, k: int) {
    0 <= k < |results| && SameIdentity(request, results[k])
    && forall j :: 0 <= j < |results| && SameIdentity(request, results[j]) ==> j == k
  }

  /** The request at `n` is the first of its identity, and its call's only result, at `k`, makes it evidence. */
  ghost predicate Yields(host: Host, turn: string, requests: seq<Request>, results: seq<ToolResult>, n: int, k: int,
                         e: Evidence)
  {
    && 0 <= n < |requests| && requests[n].callId != [] && !SeenBefore(requests[..n], requests[n])
    && SoleResult(results, requests[n], k) && Witnesses(host, turn, requests[n], results[k], e)
  }

  /** What a call and its result are evidence of: everything the two say, under the turn. */
  predicate Witnesses(host: Host, turn: string, request: Request, result: ToolResult, e: Evidence) {
    && e.callId == request.callId && e.tool == request.tool && e.arguments == request.arguments && e.turnId == turn
    && host.digestArguments(request.tool, request.arguments) == Some(e.argumentsDigest)
    && result.operationId == Some(e.operationId) && e.exitCode == result.exitCode && e.error == result.error
    && e.approvalPending == result.approvalPending
    && e.status == match result.status
                   case Some(status) => status
                   case None => if result.error == None then "completed" else "failed"
  }

  lemma EvidenceIs(host: Host, turn: string, request: Request, result: ToolResult, e: Evidence)
    ensures EvidenceOf(host, turn, request, result) == Some(e) <==> Witnesses(host, turn, request, result, e)
  {
  }

  ghost predicate Grounded(host: Host, turn: string, requests: seq<Request>, results: seq<ToolResult>, e: Evidence) {
    exists n, k :: Yields(host, turn, requests, results, n, k, e)
  }

  /** One match means one position. */
  lemma SoleMatch(results: seq<ToolResult>, request: Request)
    ensures |Matching(results, request.callId, request.tool)| == 1 <==> exists k :: SoleResult(results, request, k)
    ensures forall k :: SoleResult(results, request, k) ==>
      Matching(results, request.callId, request.tool) == [results[k]]
  {
    var same := (r: ToolResult) => r.callId == request.callId && r.tool == request.tool;
    FilterSole(results, same);
    forall k ensures SoleAt(results, same, k) <==> SoleResult(results, request, k) {
    }
  }

  /** Evidence is exactly what first requests of a call with one result yield: none is invented and none is missed. */
  lemma {:induction false} EvidenceIffYielded(host: Host, turn: string, requests: seq<Request>,
                                              results: seq<ToolResult>, e: Evidence)
    ensures e in EvidenceFor(host, turn, requests, results) <==> Grounded(host, turn, requests, results, e)
  {
    if requests == [] {
    } else {
      var n := |requests| - 1;
      EvidenceIffYielded(host, turn, requests[..n], results, e);
      LastYields(host, turn, requests, results, e);
      hide EvidenceOfRequest, Grounded, Yields;
    }
  }

  lemma LastYields(host: Host, turn: string, requests: seq<Request>, results: seq<ToolResult>, e: Evidence)
    requires requests != []
    ensures Grounded(host, turn, requests, results, e) <==>
      || Grounded(host, turn, requests[..|requests| - 1], results, e)
      || EvidenceOfRequest(host, turn, requests[..|requests| - 1], requests[|requests| - 1], results) == Some(e)
  {
    var n := |requests| - 1;
    var front := requests[..n];
    hide EvidenceOf, Witnesses, SoleResult, Matching, SeenBefore;
    SoleMatch(results, requests[n]);
    forall k | 0 <= k < |results|
      ensures EvidenceOf(host, turn, requests[n], results[k]) == Some(e)
        <==> Witnesses(host, turn, requests[n], results[k], e)
    {
      EvidenceIs(host, turn, requests[n], results[k], e);
    }
    forall i, k | 0 <= i < n
      ensures Yields(host, turn, requests, results, i, k, e) <==> Yields(host, turn, front, results, i, k, e)
    {
      assert front[i] == requests[i] && front[..i] == requests[..i];
    }
    if EvidenceOfRequest(host, turn, front, requests[n], results) == Some(e) {
      var k :| SoleResult(results, requests[n], k);
      assert Matching(results, requests[n].callId, requests[n].tool) == [results[k]];
      assert Yields(host, turn, requests, results, n, k, e);
    }
  }

  method IndexResults(results: seq<ToolResult>)
    returns (byIdentity: map<(string, string), ToolResult>, duplicates: set<(string, string)>)
    ensures Indexed(results, byIdentity, duplicates)
  {
    hide Matching;
    byIdentity, duplicates := map[], {};
    NothingMatches();
    assert results[..0] == [];
    for n := 0 to |results|
      invariant Indexed(results[..n], byIdentity, duplicates)
    {
      var result := results[n];
      var identity := (result.callId, result.tool);
      assert results[..n + 1] == results[..n] + [result];
      forall id, tool
        ensures Matching(results[..n + 1], id, tool)
          == Matching(results[..n], id, tool) + (if id == result.callId && tool == result.tool then [result] else [])
      {
        MatchingStep(results[..n], result, id, tool);
      }
      if identity in byIdentity {
        duplicates := duplicates + {identity};
      }
      byIdentity := byIdentity[identity := result];
    }
    assert results[..|results|] == results;
  }

  /** The index holds the last result of every identity and knows which have several. */
  ghost predicate Indexed(results: seq<ToolResult>, byIdentity: map<(string, string), ToolResult>,
                          duplicates: set<(string, string)>)
  {
    forall id, tool ::
      var matching := Matching(results, id, tool);
      && ((id, tool) in byIdentity <==> matching != [])
      && ((id, tool) in duplicates <==> |matching| > 1)
      && (matching != [] ==> byIdentity[(id, tool)] == matching[|matching| - 1])
  }

  lemma NothingMatches()
    ensures forall id, tool :: Matching([], id, tool) == []
  {
  }

  lemma MatchingStep(front: seq<ToolResult>, result: ToolResult, id: string, tool: string)
    ensures Matching(front + [result], id, tool)
      == Matching(front, id, tool) + (if id == result.callId && tool == result.tool then [result] else [])
  {
    var same := (r: ToolResult) => r.callId == id && r.tool == tool;
    FilterConcat(front, [result], same);
    assert Filter([result], same) == if same(result) then [result] else [];
  }

  method CollectEvidence(host: Host, turn: string, requests: seq<Request>, results: seq<ToolResult>)
    returns (evidence: seq<Evidence>)
    ensures evidence == EvidenceFor(host, turn, requests, results)
  {
    hide EvidenceOf, Matching;
    var byIdentity, duplicates := IndexResults(results);
    evidence := [];
    var seen := {};
    for n := 0 to |requests|
      invariant evidence == EvidenceFor(host, turn, requests[..n], results)
      invariant forall id, tool :: id != [] && (id, tool) !in duplicates ==>
        ((id, tool) in seen <==> exists r | r in requests[..n] :: r.callId == id && r.tool == tool)
    {
      var request := requests[n];
      var identity := (request.callId, request.tool);
      assert requests[..n + 1] == requests[..n] + [request] && requests[..n + 1][..n] == requests[..n];
      assert SeenBefore(requests[..n], request) <==>
        exists r | r in requests[..n] :: r.callId == request.callId && r.tool == request.tool;
      if request.callId == [] || identity in seen || identity in duplicates {
        continue;
      }
      seen := seen + {identity};
      if identity !in byIdentity {
        continue;
      }
      var found := EvidenceOf(host, turn, request, byIdentity[identity]);
      if found.Some? {
        evidence := evidence + [found.value];
      }
    }
    assert requests[..|requests|] == requests;
  }

  // ---------- Acceptance criteria ----------

  predicate Candidate(c: Criterion, e: Evidence)
    requires c.ToolExecution?
  {
    && e.tool == c.tool
    && (c.argumentsDigest.None? || c.argumentsDigest.value == e.argumentsDigest)
    && (c.callId.None? || c.callId.value == e.callId)
    && (c.operationId.None? || c.operationId.value == e.operationId)
    && (c.turnId.None? || c.turnId.value == e.turnId)
  }

  predicate ProfileMatches(host: Host, c: Criterion, e: Evidence)
    requires c.ToolExecution?
  {
    c.profile in host.profiles && host.profiles[c.profile](e.tool, e.arguments)
  }

  datatype Code =
    | Passed | InvalidCode(code: string) | Empty | ContainsMismatch | DigestMismatch | UnsupportedCheck
    | UnknownProfile | EvidenceMissing | ProfileMismatch | EvidenceAmbiguous | RequiresApproval | ExecutionFailed

  function EvaluateToolExecution(host: Host, c: Criterion, evidence: seq<Evidence>): Code
    requires c.ToolExecution?
  {
    var candidates := Filter(evidence, e => Candidate(c, e));
    var matched := Filter(candidates, e => ProfileMatches(host, c, e));
    if c.profile !in host.profiles then UnknownProfile
    else if candidates == [] then EvidenceMissing
    else if matched == [] then ProfileMismatch
    else if |matched| != 1 then EvidenceAmbiguous
    else
      var e := matched[0];
      if e.approvalPending then RequiresApproval
      else if e.error.None? && e.status == Completed()
              && e.exitCode == Some(if c.expectedExit.Some? then c.expectedExit.value else 0) then Passed
      else ExecutionFailed
  }

  predicate OccursAt(content: Bytes, needle: Bytes, i: nat) {
    i + |needle| <= |content| && content[i..i + |needle|] == needle
  }

  predicate ContainsBytes(content: Bytes, needle: Bytes) {
    exists i | 0 <= i <= |content| :: OccursAt(content, needle, i)
  }

  function EvaluateFile(world: World, check: FileCheck, content: Bytes): Code {
    match check
    case Exists => Passed
    case NonEmpty => if content != [] then Passed else Empty
    case Contains(needle) => if needle != [] && ContainsBytes(content, needle) then Passed else ContainsMismatch
    case Sha256(digest) => if world.isDigest(digest) && digest == world.digest(content) then Passed else DigestMismatch
    case Unsupported => UnsupportedCheck
  }

  function Evaluate(world: World, host: Host, c: Criterion, content: Bytes, evidence: seq<Evidence>): Code {
    match c
    case InvalidCriterion(_, code) => InvalidCode(code)
    case FileCriterion(check) => EvaluateFile(world, check, content)
    case ToolExecution(_, _, _, _, _, _, _) => EvaluateToolExecution(host, c, evidence)
  }

  /** A piece of evidence that is about everything the criterion names. */
  predicate Concerns(host: Host, c: Criterion, e: Evidence)
    requires c.ToolExecution?
  {
    && e.tool == c.tool && c.profile in host.profiles && host.profiles[c.profile](e.tool, e.arguments)
    && (c.argumentsDigest == None || c.argumentsDigest == Some(e.argumentsDigest))
    && (c.callId == None || c.callId == Some(e.callId))
    && (c.operationId == None || c.operationId == Some(e.operationId))
    && (c.turnId == None || c.turnId == Some(e.turnId))
  }

  /** What a passed criterion means of the file's content and of the evidence. */
  ghost predicate Passes(world: World, host: Host, c: Criterion, content: Bytes, evidence: seq<Evidence>) {
    match c
    case InvalidCriterion(_, _) => false
    case FileCriterion(Exists) => true
    case FileCriterion(NonEmpty) => content != []
    case FileCriterion(Contains(needle)) =>
      needle != [] && exists before, after :: content == before + needle + after
    case FileCriterion(Sha256(digest)) => world.isDigest(digest) && world.digest(content) == digest
    case FileCriterion(Unsupported) => false
    case ToolExecution(_, _, _, _, _, _, _) =>
      exists k ::
        && SoleAt(evidence, (e: Evidence) => Concerns(host, c, e), k)
        && !evidence[k].approvalPending && evidence[k].error == None && evidence[k].status == "completed"
        && evidence[k].exitCode == (if c.expectedExit == None then Some(0) else c.expectedExit)
  }

  lemma ContainsIs(content: Bytes, needle: Bytes)
    ensures ContainsBytes(content, needle) <==> exists before, after :: content == before + needle + after
  {
    if i :| 0 <= i <= |content| && OccursAt(content, needle, i) {
      assert content == content[..i] + needle + content[i + |needle|..];
    }
    if before, after :| content == before + needle + after {
      assert OccursAt(content, needle, |before|);
    }
  }

  lemma ExecutionPassesIff(host: Host, c: Criterion, evidence: seq<Evidence>)
    requires c.ToolExecution?
    ensures EvaluateToolExecution(host, c, evidence) == Passed <==>
      exists k ::
        && SoleAt(evidence, (e: Evidence) => Concerns(host, c, e), k)
        && !evidence[k].approvalPending && evidence[k].error == None && evidence[k].status == "completed"
        && evidence[k].exitCode == (if c.expectedExit == None then Some(0) else c.expectedExit)
  {
    var candidate, profile := (e: Evidence) => Candidate(c, e), (e: Evidence) => ProfileMatches(host, c, e);
    var concerns := (e: Evidence) => Concerns(host, c, e);
    var matched := Filter(Filter(evidence, candidate), profile);
    FilterTwice(evidence, candidate, profile, concerns);
    FilterSole(evidence, concerns);
    assert Filter(evidence, candidate) == [] ==> matched == [];
    hide SoleAt, Filter;
  }

  /** Exactly when a criterion passes. */
  lemma PassesIff(world: World, host: Host, c: Criterion, content: Bytes, evidence: seq<Evidence>)
    ensures Evaluate(world, host, c, content, evidence) == Passed <==> Passes(world, host, c, content, evidence)
  {
    match c
    case InvalidCriterion(_, _) =>
    case FileCriterion(check) =>
      if check.Contains? {
        ContainsIs(content, check.needle);
      }
    case ToolExecution(_, _, _, _, _, _, _) => ExecutionPassesIff(host, c, evidence);
  }

  /** The call a passed tool-execution criterion stands on. */
  ghost predicate ProvenBy(host: Host, turn: string, results: seq<ToolResult>, c: Criterion, request: Request, k: int)
    requires c.ToolExecution?
  {
    && SoleResult(results, request, k) && request.tool == c.tool
    && results[k].error.None? && !results[k].approvalPending
    && (results[k].status.Some? ==> results[k].status.value == Completed())
    && results[k].exitCode == Some(if c.expectedExit.Some? then c.expectedExit.value else 0)
    && (c.argumentsDigest.Some? ==> host.digestArguments(request.tool, request.arguments) == c.argumentsDigest)
    && (c.callId.Some? ==> c.callId.value == request.callId)
    && (c.operationId.Some? ==> results[k].operationId == c.operationId)
    && (c.turnId.Some? ==> c.turnId.value == turn)
    && c.profile in host.profiles && host.profiles[c.profile](request.tool, request.arguments)
  }

  /** A tool-execution criterion passes only on one completed, error-free call that meets everything it names. */
  lemma PassedExecutionIsReal(host: Host, turn: string, requests: seq<Request>, results: seq<ToolResult>, c: Criterion)
    requires c.ToolExecution?
    requires EvaluateToolExecution(host, c, EvidenceFor(host, turn, requests, results)) == Passed
    ensures exists request, k :: request in requests && ProvenBy(host, turn, results, c, request, k)
  {
    var evidence := EvidenceFor(host, turn, requests, results);
    var candidates := Filter(evidence, e => Candidate(c, e));
    var matched := Filter(candidates, e => ProfileMatches(host, c, e));
    var e := matched[0];
    assert e in matched && e in candidates && e in evidence;
    EvidenceIffYielded(host, turn, requests, results, e);
    var n, k :| Yields(host, turn, requests, results, n, k, e);
    hide SoleResult;
    assert ProvenBy(host, turn, results, c, requests[n], k);
  }

  // ---------- Verifying one target ----------

  predicate Verified(world: World, host: Host, claim: Claim, evidence: seq<Evidence>) {
    var path := world.resolve(claim.requestedPath);
    && world.within(path)
    && if !claim.expectedExists then !world.Exists(path)
       else path in world.files && path !in world.unreadable
            && MeetsClaim(world, host, claim, world.files[path], evidence)
  }

  predicate MeetsClaim(world: World, host: Host, claim: Claim, content: Bytes, evidence: seq<Evidence>) {
    && (claim.after.Some? ==> world.isDigest(claim.after.value) && world.digest(content) == claim.after.value)
    && (claim.after.None? && claim.content.Some? ==>
          && world.isDigest(world.digest(claim.content.value))
          && world.digest(content) == world.digest(claim.content.value))
    && (claim.content.Some? ==> content == claim.content.value)
    && forall c | c in claim.criteria :: Evaluate(world, host, c, content, evidence) == Passed
  }

  datatype TargetError =
    | OutsideWorkspace | StillExists | MissingFile | Unreadable | DigestDiffers | ContentDiffers
    | CriterionFailed(criterion: Criterion, code: Code)

  /** The receipt's errors for one target; it is verified when there are none. */
  method VerifyTarget(world: World, host: Host, claim: Claim, evidence: seq<Evidence>)
    returns (errors: seq<TargetError>)
    ensures errors == [] <==> Verified(world, host, claim, evidence)
  {
    var path := world.resolve(claim.requestedPath);
    if !world.within(path) {
      return [OutsideWorkspace];
    }
    if !claim.expectedExists {
      return if world.Exists(path) then [StillExists] else [];
    }
    if path !in world.files {
      return [MissingFile];
    }
    if path in world.unreadable {
      return [Unreadable];
    }
    var content := world.files[path];
    var expected := if claim.after.None? && claim.content.Some? then Some(world.digest(claim.content.value))
                    else claim.after;
    errors := [];
    if expected.Some? && !(world.isDigest(expected.value) && world.digest(content) == expected.value) {
      errors := errors + [DigestDiffers];
    }
    if claim.content.Some? && content != claim.content.value {
      errors := errors + [ContentDiffers];
    }
    ghost var before := errors;
    for k := 0 to |claim.criteria|
      invariant errors == [] <==>
        before == [] && forall c | c in claim.criteria[..k] :: Evaluate(world, host, c, content, evidence) == Passed
    {
      var code := Evaluate(world, host, claim.criteria[k], content, evidence);
      if code != Passed {
        errors := errors + [CriterionFailed(claim.criteria[k], code)];
      }
    }
  }
}

/**
 The artifact verdict read off the turn's calls and the workspace: exactly which histories and files make a success,
 without the claims the verifier collects on its way.
 */
module ArtifactReading {
  import opened Collections
  import opened ArtifactEvidence
  import opened ArtifactVerification

  // ---------- The history ----------

  /** A first-party call names a target. */
  ghost predicate Names(world: World, request: Request, key: string) {
    request.firstParty && exists p :: p in request.paths && world.resolve(p) == key
  }

  /** A first-party result belongs to a call and reports nothing that call did not name. */
  ghost predicate Honest(world: World, requests: seq<Request>, result: ToolResult) {
    exists q :: q in requests && q.callId == result.callId != [] && q.tool == result.tool
      && forall item |
           item in (if result.error == None then result.reported else result.changes) && item.path != None ::
             Names(world, q, world.resolve(item.path.value))
  }

  ghost predicate SoundHistory(world: World, requests: seq<Request>, results: seq<ToolResult>,
                               expectations: seq<Expectation>)
  {
    && (forall i, j :: 0 <= i < j < |requests| && requests[i].callId == requests[j].callId ==>
          requests[i].callId == [])
    && (forall r | r in requests && r.firstParty :: !r.unparsed)
    && (forall r | r in results && r.firstParty :: Honest(world, requests, r))
    && (forall e | e in expectations :: e.path != [])
  }

  /** The last result of a call, whatever its tool. */
  ghost predicate IsLastResult(results: seq<ToolResult>, k: int, id: string) {
    0 <= k < |results| && results[k].callId == id && forall j :: k < j < |results| ==> results[j].callId != id
  }

  ghost predicate Worked(results: seq<ToolResult>, id: string) {
    exists k :: IsLastResult(results, k, id) && results[k].error == None
  }

  /** Every call with an id worked in the end; without any such call, every result is free of errors. */
  ghost predicate EverythingWorked(requests: seq<Request>, results: seq<ToolResult>) {
    && results != []
    && (forall q | q in requests && q.callId != [] :: Worked(results, q.callId))
    && ((forall q | q in requests :: q.callId == []) ==> forall r | r in results :: r.error == None)
  }

  lemma {:induction false} RecordedIs(results: seq<ToolResult>, id: string)
    ensures CallSucceeded(results, id) <==> Worked(results, id)
  {
    if results != [] {
      var front, last := results[..|results| - 1], results[|results| - 1];
      RecordedIs(front, id);
      if last.callId == id {
        assert IsLastResult(results, |results| - 1, id);
      } else {
        forall k ensures IsLastResult(results, k, id) <==> IsLastResult(front, k, id) {
        }
      }
    }
  }

  lemma WorkedIs(requests: seq<Request>, results: seq<ToolResult>)
    ensures AllSucceeded(requests, results) <==> EverythingWorked(requests, results)
  {
    forall id ensures CallSucceeded(results, id) <==> Worked(results, id) {
      RecordedIs(results, id);
    }
    hide CallSucceeded, Worked;
    assert RequestedIds(requests) == {} <==> forall q | q in requests :: q.callId == [] by {
      assert forall q | q in requests && q.callId != [] :: q.callId in RequestedIds(requests);
    }
  }

  lemma NamesAre(world: World, request: Request, key: string)
    ensures Names(world, request, key) <==> exists p :: p in request.Paths() && world.resolve(p) == key
  {
    assert forall p :: p in Dedup(request.paths) <==> p in request.paths;
  }

  lemma HonestIs(world: World, requests: seq<Request>, result: ToolResult)
    requires DistinctCalls(requests) && result.firstParty
    ensures ResultRecognized(requests, result) && PathsAuthorized(world, requests, result) <==>
      Honest(world, requests, result)
  {
    forall q, key ensures Names(world, q, key) <==> exists p :: p in q.Paths() && world.resolve(p) == key {
      NamesAre(world, q, key);
    }
    hide Names;
    if q :| q in requests && Answers(q, result) {
      forall other | other in requests && Answers(other, result) ensures other == q {
        SameCallSameRequest(requests, other, q);
      }
      forall key ensures key in AuthorizedFor(world, requests, result) <==> Names(world, q, key) {
      }
    }
  }

  lemma HistoryIs(world: World, requests: seq<Request>, results: seq<ToolResult>, expectations: seq<Expectation>)
    ensures Trusted(world, requests, results, expectations) <==> SoundHistory(world, requests, results, expectations)
  {
    hide Honest, ResultRecognized, PathsAuthorized;
    if DistinctCalls(requests) {
      forall r | r in results && r.firstParty
        ensures ResultRecognized(requests, r) && PathsAuthorized(world, requests, r) <==> Honest(world, requests, r)
      {
        HonestIs(world, requests, r);
      }
      forall r | r in results && !r.firstParty
        ensures ResultRecognized(requests, r) && PathsAuthorized(world, requests, r)
      {
        Unmentioned(world, requests, r);
      }
    }
  }

  // ---------- The targets ----------

  ghost predicate IsTarget(world: World, requests: seq<Request>, expectations: seq<Expectation>, key: string) {
    || (exists q :: q in requests && Names(world, q, key))
    || (exists e :: e in expectations && Expects(world, e, key))
  }

  ghost predicate Expects(world: World, e: Expectation, key: string) {
    e.path != [] && world.resolve(e.path) == key
  }

  ghost predicate IsLastExpectation(world: World, expectations: seq<Expectation>, k: int, key: string) {
    && 0 <= k < |expectations| && Expects(world, expectations[k], key)
    && forall j :: k < j < |expectations| ==> !Expects(world, expectations[j], key)
  }

  /** A readable file with the wanted digest and content, where they are known. */
  ghost predicate Holds(world: World, key: string, after: Option<string>, content: Option<Bytes>) {
    && key in world.files && key !in world.unreadable
    && (after != None ==> world.isDigest(after.value) && world.digest(world.files[key]) == after.value)
    && (content != None ==>
          world.files[key] == content.value && (after == None ==> world.isDigest(world.digest(content.value))))
  }

  /** The last expectation says what the file must be; the criteria of all of them must pass. */
  ghost predicate MeetsExpectations(world: World, host: Host, expectations: seq<Expectation>, evidence: seq<Evidence>,
                                    key: string)
  {
    forall k :: IsLastExpectation(world, expectations, k, key) ==>
      if !expectations[k].mustExist then !world.Exists(key)
      else
        && Holds(world, key, expectations[k].after, expectations[k].content)
        && forall e, c :: e in expectations && Expects(world, e, key) && c in e.criteria ==>
             Passes(world, host, c, world.files[key], evidence)
  }

  /** Without an expectation the history decides: a reported deletion, else the last digest and content. */
  ghost predicate MeetsReports(world: World, requests: seq<Request>, results: seq<ToolResult>, key: string) {
    var reports := Reports(world, results, key);
    if Deleted(reports) then !world.Exists(key)
    else Holds(world, key, LastDigest(reports), LastContent(reports, LastWrite(world, requests, key)))
  }

  ghost predicate TargetHolds(world: World, host: Host, requests: seq<Request>, results: seq<ToolResult>,
                              expectations: seq<Expectation>, evidence: seq<Evidence>, key: string)
  {
    && world.within(key) && MeetsExpectations(world, host, expectations, evidence, key)
    && ((forall e :: e in expectations ==> !Expects(world, e, key)) ==> MeetsReports(world, requests, results, key))
  }

  lemma {:induction false} LastForIs(world: World, expectations: seq<Expectation>, key: string)
    ensures LastFor(world, expectations, key) == None <==> forall k :: !IsLastExpectation(world, expectations, k, key)
    ensures forall k :: IsLastExpectation(world, expectations, k, key) ==>
      LastFor(world, expectations, key) == Some(expectations[k])
    ensures LastFor(world, expectations, key) == None <==>
      forall e :: e in expectations ==> !Expects(world, e, key)
  {
    if expectations != [] {
      var front, last := expectations[..|expectations| - 1], expectations[|expectations| - 1];
      LastForIs(world, front, key);
      assert expectations == front + [last];
      if Expects(world, last, key) {
        assert IsLastExpectation(world, expectations, |expectations| - 1, key);
      } else {
        forall k ensures IsLastExpectation(world, expectations, k, key) <==> IsLastExpectation(world, front, k, key) {
        }
      }
    }
  }

  lemma TargetIs(world: World, requests: seq<Request>, results: seq<ToolResult>, expectations: seq<Expectation>,
                 key: string)
    ensures key in ClaimsOf(world, requests, results, expectations) <==> IsTarget(world, requests, expectations, key)
  {
    ClaimKeys(world, requests, results, expectations, key);
    LastForIs(world, expectations, key);
    forall q ensures Names(world, q, key) <==> exists p :: p in q.Paths() && world.resolve(p) == key {
      NamesAre(world, q, key);
    }
    hide Names, LastFor, IsLastExpectation;
    assert key in RequestKeys(world, requests) <==> exists q :: q in requests && Names(world, q, key);
  }

  /** One claim is verified exactly when its target is as it should be. */
  lemma ClaimIs(world: World, host: Host, requests: seq<Request>, results: seq<ToolResult>,
                expectations: seq<Expectation>, evidence: seq<Evidence>, key: string)
    requires AllAuthorized(world, requests, results)
    requires key in ClaimsOf(world, requests, results, expectations)
    ensures Verified(world, host, ClaimsOf(world, requests, results, expectations)[key], evidence)
      <==> TargetHolds(world, host, requests, results, expectations, evidence, key)
  {
    var early, claim := ResultClaims(world, requests, results), ClaimsOf(world, requests, results, expectations)[key];
    ResultClaimsShape(world, requests, results);
    ExpectedAreBound(world, early, expectations);
    assert BoundClaim(world, early, expectations, key, claim);
    LastForIs(world, expectations, key);
    if LastFor(world, expectations, key) == None {
      ResultClaimAt(world, requests, results, key);
      ReportedClaimIs(world, host, claim, evidence, key, Reports(world, results, key),
                      LastWrite(world, requests, key));
    } else {
      ExpectedClaimIs(world, host, early, expectations, claim, evidence, key);
    }
  }

  lemma ReportedClaimIs(world: World, host: Host, claim: Claim, evidence: seq<Evidence>, key: string,
                        reports: seq<Item>, written: Option<Bytes>)
    requires world.resolve(claim.requestedPath) == key && claim.criteria == [] && AsReported(claim, reports, written)
    ensures Verified(world, host, claim, evidence) <==>
      && world.within(key)
      && if Deleted(reports) then !world.Exists(key)
         else Holds(world, key, LastDigest(reports), LastContent(reports, written))
  {
  }

  lemma ExpectedClaimIs(world: World, host: Host, early: map<string, Claim>, expectations: seq<Expectation>,
                        claim: Claim, evidence: seq<Evidence>, key: string)
    requires BoundClaim(world, early, expectations, key, claim) && LastFor(world, expectations, key).Some?
    ensures Verified(world, host, claim, evidence) <==>
      world.within(key) && MeetsExpectations(world, host, expectations, evidence, key)
  {
    LastForIs(world, expectations, key);
    hide Passes, Evaluate, LastFor;
    if key in world.files {
      forall c ensures Evaluate(world, host, c, world.files[key], evidence) == Passed <==>
        Passes(world, host, c, world.files[key], evidence)
      {
        PassesIff(world, host, c, world.files[key], evidence);
      }
    }
    forall c ensures c in claim.criteria <==>
      exists e :: e in expectations && Expects(world, e, key) && c in e.criteria
    {
    }
  }

  /** The verdict is a success exactly when the history is sound, everything worked and every target is as it should. */
  lemma SuccessIff(world: World, host: Host, requests: seq<Request>, results: seq<ToolResult>,
                   expectations: seq<Expectation>, evidence: seq<Evidence>)
    ensures Succeeds(world, host, requests, results, expectations, evidence) <==>
      && SoundHistory(world, requests, results, expectations) && EverythingWorked(requests, results)
      && (exists key :: IsTarget(world, requests, expectations, key))
      && (forall key :: IsTarget(world, requests, expectations, key) ==>
            TargetHolds(world, host, requests, results, expectations, evidence, key))
  {
    HistoryIs(world, requests, results, expectations);
    WorkedIs(requests, results);
    var claims := ClaimsOf(world, requests, results, expectations);
    forall key ensures key in claims <==> IsTarget(world, requests, expectations, key) {
      TargetIs(world, requests, results, expectations, key);
    }
    if Trusted(world, requests, results, expectations) {
      forall key | key in claims
        ensures Verified(world, host, claims[key], evidence)
          <==> TargetHolds(world, host, requests, results, expectations, evidence, key)
      {
        ClaimIs(world, host, requests, results, expectations, evidence, key);
      }
    }
    hide ClaimsOf, Verified, TargetHolds, IsTarget, SoundHistory, EverythingWorked, AllSucceeded, Trusted;
    if key :| IsTarget(world, requests, expectations, key) {
      assert key in claims;
    }
    if claims != map[] {
      var key :| key in claims;
      assert IsTarget(world, requests, expectations, key);
    }
  }
}

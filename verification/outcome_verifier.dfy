/** Aggregating criterion receipts into the verdict recovery acts on. */
module OutcomeVerification {
  import opened Collections

  datatype Verdict = Verified | Failed | Unverified | NotApplicable

  datatype Retry = NoRetry | Retryable | RequiresReplan | RequiresApproval | TerminalRetry {
    function Precedence(): nat {
      match this
      case TerminalRetry => 4
      case RequiresApproval => 3
      case RequiresReplan => 2
      case Retryable => 1
      case NoRetry => 0
    }
  }

  /** One criterion together with what its verifier said of it. */
  datatype Judged = Judged(criterionId: string, required: bool, semantic: bool, verdict: Verdict, retry: Retry)

  datatype Receipt = Receipt(verdict: Verdict, criteria: seq<Judged>, hardFailure: bool, retry: Retry)

  predicate HardFailure(judged: seq<Judged>) {
    exists j | j in judged :: j.required && j.verdict.Failed? && !j.semantic
  }

  predicate Has(judged: seq<Judged>, required: bool, verdict: Verdict) {
    exists j | j in judged :: (required ==> j.required) && j.verdict == verdict
  }

  /** Required criteria decide; without any, the best optional verdict does. */
  function AggregateVerdict(judged: seq<Judged>): Verdict {
    if judged == [] then NotApplicable
    else if Has(judged, true, Failed) then Failed
    else if Has(judged, true, Unverified) || Has(judged, true, NotApplicable) then Unverified
    else if exists j | j in judged :: j.required then Verified
    else if Has(judged, false, Verified) then Verified
    else if Has(judged, false, Failed) then Failed
    else if Has(judged, false, Unverified) then Unverified
    else NotApplicable
  }

  /** The retry disposition of highest precedence. */
  function RetryMax(judged: seq<Judged>): (r: Retry)
    ensures forall j | j in judged :: j.retry.Precedence() <= r.Precedence()
    ensures judged == [] ==> r == NoRetry
    ensures judged != [] ==> exists j | j in judged :: j.retry == r
  {
    if judged == [] then NoRetry
    else if |judged| == 1 then judged[0].retry
    else
      var front, last := RetryMax(judged[..|judged| - 1]), judged[|judged| - 1].retry;
      assert judged == judged[..|judged| - 1] + [judged[|judged| - 1]];
      if last.Precedence() > front.Precedence() then last else front
  }

  function Aggregated(judged: seq<Judged>): Receipt {
    Receipt(AggregateVerdict(judged), judged, HardFailure(judged), RetryMax(judged))
  }

  lemma AppendJudged(front: seq<Judged>, j: Judged)
    ensures HardFailure(front + [j]) <==> HardFailure(front) || (j.required && j.verdict.Failed? && !j.semantic)
    ensures Has(front + [j], true, Verified) <==> Has(front, true, Verified) || (j.required && j.verdict.Verified?)
    ensures RetryMax(front + [j]) ==
      if front == [] || j.retry.Precedence() > RetryMax(front).Precedence() then j.retry else RetryMax(front)
  {
    assert (front + [j])[..|front|] == front;
  }

  method VerifyAll(judged: seq<Judged>) returns (receipt: Receipt)
    ensures receipt == Aggregated(judged)
  {
    var requiredCount, requiredVerified, hardFailure := 0, 0, false;
    var retry := NoRetry;
    hide HardFailure, Has, RetryMax;
    NothingJudged();
    assert judged[..0] == [];
    for k := 0 to |judged|
      invariant 0 <= requiredVerified <= requiredCount <= k
      invariant requiredCount > 0 <==> exists j | j in judged[..k] :: j.required
      invariant requiredVerified > 0 <==> Has(judged[..k], true, Verified)
      invariant hardFailure <==> HardFailure(judged[..k])
      invariant retry == RetryMax(judged[..k])
    {
      var j := judged[k];
      assert judged[..k + 1] == judged[..k] + [j];
      AppendJudged(judged[..k], j);
      if j.required {
        requiredCount := requiredCount + 1;
        if j.verdict.Verified? {
          requiredVerified := requiredVerified + 1;
        } else if j.verdict.Failed? && !j.semantic {
          hardFailure := true;
        }
      }
      retry := if k == 0 || j.retry.Precedence() > retry.Precedence() then j.retry else retry;
    }
    assert judged[..|judged|] == judged;
    var verdict := CombineVerdicts(judged, requiredCount, requiredVerified);
    receipt := Receipt(verdict, judged, hardFailure, retry);
  }

  lemma NothingJudged()
    ensures !HardFailure([]) && !Has([], true, Verified) && RetryMax([]) == NoRetry
  {
  }

  /** The cascade over the collected counters; the case of required criteria none of which verified cannot arise. */
  method CombineVerdicts(judged: seq<Judged>, requiredCount: nat, requiredVerified: nat) returns (verdict: Verdict)
    requires requiredCount > 0 <==> exists j | j in judged :: j.required
    requires requiredVerified > 0 <==> Has(judged, true, Verified)
    ensures verdict == AggregateVerdict(judged)
  {
    if judged == [] {
      return NotApplicable;
    }
    if Has(judged, true, Failed) {
      return Failed;
    }
    if Has(judged, true, Unverified) || Has(judged, true, NotApplicable) {
      return Unverified;
    }
    if requiredCount == 0 {
      if Has(judged, false, Verified) {
        return Verified;
      }
      if Has(judged, false, Failed) {
        return Failed;
      }
      if Has(judged, false, Unverified) {
        return Unverified;
      }
      NothingLeft(judged);
      return NotApplicable;
    }
    RequiredIsVerified(judged);
    if requiredVerified == 0 {
      return Unverified;
    }
    return Verified;
  }

  lemma NothingLeft(judged: seq<Judged>)
    requires !exists j | j in judged :: j.required
    ensures !Has(judged, true, Failed) && !Has(judged, true, Unverified) && !Has(judged, true, NotApplicable)
  {
  }

  lemma RequiredIsVerified(judged: seq<Judged>)
    requires exists j | j in judged :: j.required
    requires !Has(judged, true, Failed) && !Has(judged, true, Unverified) && !Has(judged, true, NotApplicable)
    ensures Has(judged, true, Verified)
  {
    var j :| j in judged && j.required;
    assert j.verdict.Verified?;
  }

  lemma SameMembers<T>(a: seq<T>, b: seq<T>)
    requires multiset(a) == multiset(b)
    ensures forall j :: j in a <==> j in b
    ensures a == [] <==> b == []
  {
    assert forall j :: j in a <==> j in multiset(a);
    assert forall j :: j in b <==> j in multiset(b);
    assert |multiset(a)| == |a| && |multiset(b)| == |b|;
  }

  lemma SameVerdict(a: seq<Judged>, b: seq<Judged>)
    requires (a == [] <==> b == []) && forall j :: j in a <==> j in b
    ensures AggregateVerdict(a) == AggregateVerdict(b)
  {
    forall required, verdict ensures Has(a, required, verdict) <==> Has(b, required, verdict) {
    }
    hide Has;
  }

  /** The aggregate does not depend on the order in which the criteria were judged. */
  lemma OrderIndependent(a: seq<Judged>, b: seq<Judged>)
    requires multiset(a) == multiset(b)
    ensures AggregateVerdict(a) == AggregateVerdict(b)
    ensures HardFailure(a) <==> HardFailure(b)
    ensures RetryMax(a) == RetryMax(b)
  {
    SameMembers(a, b);
    hide AggregateVerdict, RetryMax;
    SameVerdict(a, b);
    if a != [] {
      SameRetry(a, b);
    }
  }

  lemma SameRetry(a: seq<Judged>, b: seq<Judged>)
    requires a != [] && b != [] && forall j :: j in a <==> j in b
    ensures RetryMax(a) == RetryMax(b)
  {
    hide RetryMax;
    var first, second := RetryMax(a), RetryMax(b);
    var x :| x in a && x.retry == first;
    var y :| y in b && y.retry == second;
    assert x in b && y in a;
    PrecedenceIsInjective(first, second);
  }

  lemma PrecedenceIsInjective(a: Retry, b: Retry)
    requires a.Precedence() == b.Precedence()
    ensures a == b
  {
  }

  /** A hard failure is never outvoted. */
  lemma HardFailureFails(judged: seq<Judged>)
    requires HardFailure(judged)
    ensures AggregateVerdict(judged) == Failed
  {
    var j :| j in judged && j.required && j.verdict.Failed? && !j.semantic;
    assert Has(judged, true, Failed);
  }

  /** `verified` means that something was verified and no required criterion was left open. */
  lemma VerifiedMeans(judged: seq<Judged>)
    ensures AggregateVerdict(judged) == Verified <==>
      && Has(judged, false, Verified)
      && forall j | j in judged && j.required :: j.verdict.Verified?
  {
    if r :| r in judged && r.required {
      if j :| j in judged && j.required && !j.verdict.Verified? {
        assert Has(judged, true, j.verdict);
      } else {
        assert Has(judged, false, r.verdict);
      }
      if AggregateVerdict(judged) == Verified {
        RequiredIsVerified(judged);
      }
    } else {
      NothingLeft(judged);
    }
  }

  /** Every verdict, by the criteria alone. */
  lemma VerdictIff(judged: seq<Judged>)
    ensures var v := AggregateVerdict(judged);
      if exists j | j in judged :: j.required then
        && (v == Failed <==> exists j | j in judged :: j.required && j.verdict == Failed)
        && (v == Verified <==> forall j | j in judged && j.required :: j.verdict == Verified)
        && v != NotApplicable
      else
        && (v == Verified <==> exists j | j in judged :: j.verdict == Verified)
        && (v == Failed <==>
              && (exists j | j in judged :: j.verdict == Failed)
              && !exists j | j in judged :: j.verdict == Verified)
        && (v == NotApplicable <==> forall j | j in judged :: j.verdict == NotApplicable)
  {
    forall required, verdict ensures Has(judged, required, verdict) <==>
      exists j | j in judged :: (required ==> j.required) && j.verdict == verdict
    {
    }
    if r :| r in judged && r.required {
      hide Has;
      VerdictOfRequired(judged, r);
    } else {
      NothingLeft(judged);
    }
  }

  lemma VerdictOfRequired(judged: seq<Judged>, r: Judged)
    requires r in judged && r.required
    ensures var v := AggregateVerdict(judged);
      && (v == Failed <==> exists j | j in judged :: j.required && j.verdict == Failed)
      && (v == Verified <==> forall j | j in judged && j.required :: j.verdict == Verified)
      && v != NotApplicable
  {
    if j :| j in judged && j.required && j.verdict != Verified {
      assert Has(judged, true, j.verdict);
    }
  }

  /** A receipt's hard failure, and its disposition: an end before approval before a replan before a retry. */
  lemma ReceiptMeans(judged: seq<Judged>)
    ensures Aggregated(judged).hardFailure <==>
      exists j | j in judged :: j.required && j.verdict == Failed && !j.semantic
    ensures var r := Aggregated(judged).retry;
      if exists j | j in judged :: j.retry == TerminalRetry then r == TerminalRetry
      else if exists j | j in judged :: j.retry == RequiresApproval then r == RequiresApproval
      else if exists j | j in judged :: j.retry == RequiresReplan then r == RequiresReplan
      else if exists j | j in judged :: j.retry == Retryable then r == Retryable
      else r == NoRetry
  {
    hide AggregateVerdict;
  }
}

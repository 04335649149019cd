/** Joining a truncated answer with its continuation, and the mutable budget of such continuations. */
module GenerationPolicy {
  import opened Collections

  predicate StartsWith<T(==)>(s: seq<T>, prefix: seq<T>) {
    |prefix| <= |s| && s[..|prefix|] == prefix
  }

  predicate EndsWith<T(==)>(s: seq<T>, suffix: seq<T>) {
    |suffix| <= |s| && s[|s| - |suffix|..] == suffix
  }

  /** The two texts agree on `size` characters where they meet. */
  predicate Overlaps(partial: string, continuation: string, size: nat) {
    size <= |continuation| && EndsWith(partial, continuation[..size])
  }

  function Shorter(a: nat, b: nat): nat {
    if a <= b then a else b
  }

  /** The longest overlap of at most `limit` characters. */
  function LongestUpTo(partial: string, continuation: string, limit: nat): (k: nat)
    requires limit <= |continuation|
    ensures k <= limit && Overlaps(partial, continuation, k)
    ensures forall size :: k < size <= limit ==> !Overlaps(partial, continuation, size)
  {
    if Overlaps(partial, continuation, limit) then limit
    else
      assert limit > 0;
      LongestUpTo(partial, continuation, limit - 1)
  }

  function LongestOverlap(partial: string, continuation: string): (k: nat)
    ensures k <= Shorter(|partial|, |continuation|) && Overlaps(partial, continuation, k)
    ensures forall size :: k < size ==> !Overlaps(partial, continuation, size)
  {
    LongestUpTo(partial, continuation, Shorter(|partial|, |continuation|))
  }

  const SHORTEST_TRUSTED := 3

  /** Overlaps of one or two characters are taken for accidents. */
  method ContinuationOverlap(partial: string, continuation: string) returns (size: nat)
    ensures size ==
      if LongestOverlap(partial, continuation) >= SHORTEST_TRUSTED then LongestOverlap(partial, continuation) else 0
  {
    size := Shorter(|partial|, |continuation|);
    while size >= SHORTEST_TRUSTED
      invariant size <= Shorter(|partial|, |continuation|)
      invariant LongestOverlap(partial, continuation) <= size || size < SHORTEST_TRUSTED
      invariant LongestOverlap(partial, continuation) >= SHORTEST_TRUSTED ==>
        LongestOverlap(partial, continuation) <= size
    {
      if EndsWith(partial, continuation[..size]) {
        assert Overlaps(partial, continuation, size);
        return;
      }
      size := size - 1;
    }
    size := 0;
  }

  datatype Merge = Merge(content: string, overlap: nat)

  predicate Contained(partial: string, continuation: string) {
    StartsWith(continuation, partial) || EndsWith(partial, continuation)
  }

  /** A text that begins with the partial output and ends with the continuation. */
  predicate Joins(content: string, partial: string, continuation: string) {
    StartsWith(content, partial) && EndsWith(content, continuation)
  }

  /** How many characters the merge takes as shared. */
  function SharedChars(partial: string, continuation: string): (k: nat)
    ensures k <= Shorter(|partial|, |continuation|) && Overlaps(partial, continuation, k)
  {
    var k := LongestOverlap(partial, continuation);
    if Contained(partial, continuation) || k >= SHORTEST_TRUSTED then k
    else
      assert partial[|partial|..] == continuation[..0];
      0
  }

  function Merged(partial: string, continuation: string): string {
    partial + continuation[SharedChars(partial, continuation)..]
  }

  method MergeContinuation(partial: string, continuation: string) returns (m: Merge)
    ensures m == Merge(Merged(partial, continuation), SharedChars(partial, continuation))
  {
    var overlap := ContinuationOverlap(partial, continuation);
    if StartsWith(continuation, partial) {
      WholeOverlap(partial, continuation);
      assert continuation == partial + continuation[|partial|..];
      return Merge(continuation, |partial|);
    }
    if EndsWith(partial, continuation) {
      WholeOverlap(partial, continuation);
      assert partial == partial + continuation[|continuation|..];
      return Merge(partial, |continuation|);
    }
    return Merge(partial + continuation[overlap..], overlap);
  }

  /** The last `k` characters of one text are the first `k` of the other. */
  ghost predicate Meet(partial: string, continuation: string, k: int) {
    0 <= k <= |partial| && k <= |continuation| && partial[|partial| - k..] == continuation[..k]
  }

  /** The merge: a text that holds the other, else both with their longest meeting of three or more dropped once. */
  lemma MergeIs(partial: string, continuation: string)
    ensures var merged := Merged(partial, continuation);
      if partial <= continuation then merged == continuation
      else if Meet(partial, continuation, |continuation|) then merged == partial
      else exists k ::
        && Meet(partial, continuation, k) && (k == 0 || k >= 3) && merged == partial + continuation[k..]
        && forall longer :: k < longer && 3 <= longer ==> !Meet(partial, continuation, longer)
  {
    hide Meet, Overlaps, SharedChars, LongestOverlap;
    forall k: nat ensures Meet(partial, continuation, k) <==> Overlaps(partial, continuation, k) {
      MeetIs(partial, continuation, k);
    }
    SharedIs(partial, continuation);
    if Contained(partial, continuation) {
      WholeOverlap(partial, continuation);
      assert partial + [] == partial;
      assert partial <= continuation ==> partial + continuation[|partial|..] == continuation;
    }
  }

  lemma MeetIs(partial: string, continuation: string, k: nat)
    ensures Meet(partial, continuation, k) <==> Overlaps(partial, continuation, k)
  {
  }

  lemma SharedIs(partial: string, continuation: string)
    ensures var k, shared := LongestOverlap(partial, continuation), SharedChars(partial, continuation);
      shared == if Contained(partial, continuation) || k >= 3 then k else 0
    ensures Contained(partial, continuation) <==>
      partial <= continuation || Meet(partial, continuation, |continuation|)
  {
    assert continuation[..|continuation|] == continuation;
    hide LongestOverlap;
  }

  lemma WholeOverlap(partial: string, continuation: string)
    requires Contained(partial, continuation)
    ensures LongestOverlap(partial, continuation) == Shorter(|partial|, |continuation|)
  {
    if StartsWith(continuation, partial) {
      assert Overlaps(partial, continuation, |partial|);
    } else {
      assert continuation[..|continuation|] == continuation;
      assert Overlaps(partial, continuation, |continuation|);
    }
  }

  lemma JoinsAtOverlap(partial: string, continuation: string, size: nat)
    requires Overlaps(partial, continuation, size)
    ensures Joins(partial + continuation[size..], partial, continuation)
  {
    var content := partial + continuation[size..];
    var start := |content| - |continuation|;
    forall i | 0 <= i < |continuation| ensures content[start + i] == continuation[i] {
      if i < size {
        assert partial[|partial| - size..][i] == continuation[..size][i];
      }
    }
    assert content[start..] == continuation;
  }

  /** The joint text is determined by its length: at that length the two texts overlap. */
  lemma JointTextOverlaps(content: string, partial: string, continuation: string)
    requires Joins(content, partial, continuation) && |content| <= |partial| + |continuation|
    ensures Overlaps(partial, continuation, |partial| + |continuation| - |content|)
  {
    var size := |partial| + |continuation| - |content|;
    var start := |content| - |continuation|;
    assert size <= |continuation| && size <= |partial| && |partial| - size == start;
    forall i | 0 <= i < size ensures partial[|partial| - size..][i] == continuation[..size][i] {
      assert content[..|partial|][start + i] == partial[start + i];
      assert content[start..][i] == continuation[i];
    }
    assert partial[|partial| - size..] == continuation[..size];
  }

  /** No joint text is shorter than the longest overlap allows. */
  lemma JointTextIsNoShorter(content: string, partial: string, continuation: string)
    requires Joins(content, partial, continuation)
    ensures |content| >= |partial| + |continuation| - LongestOverlap(partial, continuation)
  {
    if |content| < |partial| + |continuation| {
      JointTextOverlaps(content, partial, continuation);
    }
  }

  /** The merge begins with the partial output, ends with the continuation and drops only what they share. */
  lemma MergeJoins(partial: string, continuation: string)
    ensures Joins(Merged(partial, continuation), partial, continuation)
    ensures |Merged(partial, continuation)| == |partial| + |continuation| - SharedChars(partial, continuation)
  {
    JoinsAtOverlap(partial, continuation, SharedChars(partial, continuation));
  }

  /** The merge is a shortest joint text, except exactly when the texts overlap partially by one or two characters. */
  lemma MergeIsShortestIff(partial: string, continuation: string)
    ensures (forall content :: Joins(content, partial, continuation) ==> |content| >= |Merged(partial, continuation)|)
      <==> Contained(partial, continuation) || LongestOverlap(partial, continuation) !in {1, 2}
  {
    var k := LongestOverlap(partial, continuation);
    forall content | Joins(content, partial, continuation)
      ensures |content| >= |partial| + |continuation| - k
    {
      JointTextIsNoShorter(content, partial, continuation);
    }
    JoinsAtOverlap(partial, continuation, k);
    assert |partial + continuation[k..]| == |partial| + |continuation| - k;
  }

  /** One shared character is not taken for an overlap, although a shorter joint text exists. */
  lemma ShortOverlapIsKeptTwice()
    ensures Merged("ab", "bc") == "abbc" && Joins("abc", "ab", "bc") && |"abc"| < |Merged("ab", "bc")|
  {
    assert "ab"[1..] == "bc"[..1] == "b";
    assert "bc"[..2][0] == 'b' && "ab"[0..][0] == 'a';
    assert Overlaps("ab", "bc", 1) && !Overlaps("ab", "bc", 2);
    assert LongestOverlap("ab", "bc") == 1;
    assert !Contained("ab", "bc");
    assert "abc"[..2] == "ab" && "abc"[1..] == "bc";
  }

  /** Merging the same continuation again changes nothing. */
  lemma RemergeChangesNothing(partial: string, continuation: string)
    ensures Merged(Merged(partial, continuation), continuation) == Merged(partial, continuation)
    ensures SharedChars(Merged(partial, continuation), continuation) == |continuation|
  {
    MergeJoins(partial, continuation);
    hide Merged;
    var content := Merged(partial, continuation);
    WholeOverlap(content, continuation);
    KeepsContained(content, continuation);
  }

  lemma KeepsContained(partial: string, continuation: string)
    requires SharedChars(partial, continuation) == |continuation|
    ensures Merged(partial, continuation) == partial
  {
  }

  // ---------- The budget of continuations ----------

  /** What `snapshot` shows. */
  datatype Usage = Usage(attempts: nat, tokens: nat, elapsed: nat)

  class ContinuationBudget {
    const maxAttempts: nat
    const maxTokens: Option<nat>
    const maxElapsed: Option<nat>
    var attemptsUsed: nat
    var tokensUsed: nat
    var elapsed: nat

    constructor (maxAttempts: nat, maxTokens: Option<nat>, maxElapsed: Option<nat>, used: Usage)
      ensures this.maxAttempts == maxAttempts && this.maxTokens == maxTokens && this.maxElapsed == maxElapsed
      ensures Snapshot() == used
    {
      this.maxAttempts, this.maxTokens, this.maxElapsed := maxAttempts, maxTokens, maxElapsed;
      attemptsUsed, tokensUsed, elapsed := used.attempts, used.tokens, used.elapsed;
    }

    function Snapshot(): Usage
      reads this
    {
      Usage(attemptsUsed, tokensUsed, elapsed)
    }

    /** One attempt is granted exactly when the whole new usage is within the limits; a refusal costs nothing. */
    method Consume(tokens: nat, elapsedMs: nat) returns (granted: bool)
      modifies this
      ensures granted <==>
        && old(attemptsUsed) + 1 <= maxAttempts
        && (maxTokens.Some? ==> old(tokensUsed) + tokens <= maxTokens.value)
        && (maxElapsed.Some? ==> old(elapsed) + elapsedMs <= maxElapsed.value)
      ensures Snapshot() == if granted
                            then Usage(old(attemptsUsed) + 1, old(tokensUsed) + tokens, old(elapsed) + elapsedMs)
                            else old(Snapshot())
    {
      if attemptsUsed >= maxAttempts {
        return false;
      }
      if maxTokens.Some? && tokensUsed + tokens > maxTokens.value {
        return false;
      }
      if maxElapsed.Some? && elapsed + elapsedMs > maxElapsed.value {
        return false;
      }
      attemptsUsed := attemptsUsed + 1;
      tokensUsed := tokensUsed + tokens;
      elapsed := elapsed + elapsedMs;
      return true;
    }
  }
}

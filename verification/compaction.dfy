/** Splitting a conversation into what is summarised and what is kept. */
module Compaction {
  import opened Collections
  import opened Text

  datatype Message = Message(role: string, content: string)

  // ---------- Token estimates ----------

  function RenderOne(m: Message): (s: string)
    ensures s != [] && s[0] == '<' && s[|s| - 1] == '>'
  {
    "<" + m.role + ">" + m.content + "</" + m.role + ">"
  }

  function Render(messages: seq<Message>): string {
    if messages == [] then []
    else if |messages| == 1 then RenderOne(messages[0])
    else RenderOne(messages[0]) + ['\n'] + Render(messages[1..])
  }

  function Max(a: int, b: int): int {
    if a >= b then a else b
  }

  function EstimateText(text: string): nat {
    var normalized := Strip(text);
    if normalized == [] then 0 else Max(1, Max((|normalized| + 3) / 4, |Words(normalized)|))
  }

  function EstimateTokens(messages: seq<Message>): nat {
    EstimateText(Render(messages))
  }

  lemma {:induction false} RenderEnds(messages: seq<Message>)
    requires messages != []
    ensures Render(messages) != [] && Render(messages)[0] == '<' && Render(messages)[|Render(messages)| - 1] == '>'
    ensures Strip(Render(messages)) == Render(messages)
  {
    if |messages| > 1 {
      RenderEnds(messages[1..]);
    }
    StripSolid(Render(messages));
  }

  lemma TailCostsLess(messages: seq<Message>)
    requires messages != []
    ensures EstimateTokens(messages[1..]) <= EstimateTokens(messages)
  {
    if |messages| == 1 {
      assert Strip([]) == [];
    } else {
      var first, rest := RenderOne(messages[0]), Render(messages[1..]);
      WordsAcross(first, '\n', rest);
      RenderEnds(messages);
      RenderEnds(messages[1..]);
      assert Render(messages) == first + ['\n'] + rest;
      hide Render, Words, Strip;
    }
  }

  /** Dropping messages from the front never raises the estimate. */
  lemma {:induction false} SuffixCostsLess(messages: seq<Message>, k: nat)
    requires k <= |messages|
    ensures EstimateTokens(messages[k..]) <= EstimateTokens(messages)
  {
    hide EstimateTokens;
    if k == 0 {
      assert messages[0..] == messages;
    } else {
      TailCostsLess(messages);
      SuffixCostsLess(messages[1..], k - 1);
      assert messages[1..][k - 1..] == messages[k..];
    }
  }

  // ---------- Policy ----------

  datatype Policy = Policy(trigger: int, retain: int, maxInputTokens: Option<int>)

  datatype Budget = Budget(maxInputTokens: Option<int>, reserveOutputTokens: int)

  /** Eighty and forty percent are taken exactly; a keep count of none or zero means the default. */
  function FromSettings(maxMessages: int, maxInputTokens: Option<int>, keepRecent: Option<int>): (p: Policy)
    ensures p.retain < p.trigger && p.trigger >= 6
    ensures p.trigger == if maxMessages <= 8 then 6 else maxMessages * 4 / 5
    ensures keepRecent.None? ==> p.retain == if maxMessages <= 10 then 4 else maxMessages * 2 / 5
    ensures keepRecent.Some? && keepRecent.value >= p.trigger ==>
      p.retain == if p.trigger <= 8 then 4 else p.trigger / 2
    ensures keepRecent.Some? && 0 != keepRecent.value < p.trigger ==> p.retain == keepRecent.value
  {
    var safe := Max(8, maxMessages);
    var trigger := Max(6, safe * 4 / 5);
    var wanted := if keepRecent.Some? && keepRecent.value != 0 then keepRecent.value else Max(4, safe * 2 / 5);
    Policy(trigger, if wanted >= trigger then Max(4, trigger / 2) else wanted, maxInputTokens)
  }

  datatype Reason = HistoryWindow | TokenBudget

  /** What a budget leaves for the input, at least one token. */
  function Available(budget: Budget): int
    requires budget.maxInputTokens.Some?
  {
    Max(1, budget.maxInputTokens.value - Max(0, budget.reserveOutputTokens))
  }

  /** The caller's budget, where it has one, takes precedence over the policy's. */
  function Limit(policy: Policy, budget: Option<Budget>): Option<int> {
    if budget.Some? && budget.value.maxInputTokens.Some? then Some(Available(budget.value))
    else policy.maxInputTokens
  }

  function RetainedLimit(policy: Policy, budget: Option<Budget>): Option<int> {
    if budget.Some? && budget.value.maxInputTokens.Some? then Some(Available(budget.value))
    else if policy.maxInputTokens.Some? then Some(Max(1, policy.maxInputTokens.value))
    else None
  }

  function ReasonFor(policy: Policy, history: seq<Message>, retain: int, budget: Option<Budget>): Option<Reason> {
    if Limit(policy, budget).Some? && EstimateTokens(history) > Limit(policy, budget).value then Some(TokenBudget)
    else if |history| > policy.trigger && |history| > retain then Some(HistoryWindow)
    else None
  }

  /** The token limit that applies: what the call's budget leaves, at least one token, or else the policy's. */
  ghost predicate LimitedTo(policy: Policy, budget: Option<Budget>, limit: Option<int>) {
    if budget != None && budget.value.maxInputTokens != None then
      var left := budget.value.maxInputTokens.value - budget.value.reserveOutputTokens;
      var most := if budget.value.reserveOutputTokens < 0 then budget.value.maxInputTokens.value else left;
      limit == Some(if most < 1 then 1 else most)
    else limit == policy.maxInputTokens
  }

  /** Why a history is compacted: it costs more than the limit, or else it is longer than the trigger. */
  lemma ReasonIff(policy: Policy, history: seq<Message>, budget: Option<Budget>, limit: Option<int>)
    requires LimitedTo(policy, budget, limit) && policy.retain < |history|
    ensures Limit(policy, budget) == limit
    ensures var tooCostly := limit != None && EstimateTokens(history) > limit.value;
      ReasonFor(policy, history, policy.retain, budget) ==
        if tooCostly then Some(TokenBudget)
        else if |history| > policy.trigger then Some(HistoryWindow) else None
  {
    hide EstimateTokens;
  }

  /** The estimate: a quarter of the characters, rounded up, or the words, whichever is more. */
  lemma EstimateIs(messages: seq<Message>)
    ensures var text, tokens := Render(messages), EstimateTokens(messages);
      && (messages == [] ==> tokens == 0)
      && (messages != [] ==>
            && |text| <= 4 * tokens && |Words(text)| <= tokens
            && (4 * tokens < |text| + 4 || tokens == |Words(text)|))
  {
    if messages != [] {
      RenderEnds(messages);
    } else {
      assert Strip([]) == [];
    }
    hide Render, Words, Strip;
  }

  /** `history[-n:]` for positive n. */
  function LastN(history: seq<Message>, n: nat): (r: seq<Message>)
    requires n <= |history|
    ensures |r| == n
  {
    history[|history| - n..]
  }

  lemma TailOfLastN(history: seq<Message>, n: nat)
    requires 0 < n <= |history|
    ensures LastN(history, n)[1..] == LastN(history, n - 1)
  {
  }

  predicate IsSuffix(s: seq<Message>, history: seq<Message>) {
    |s| <= |history| && LastN(history, |s|) == s
  }

  /** A suffix of at most `retain` messages such that every longer one is too costly. */
  predicate NoLongerFits(history: seq<Message>, retain: nat, limit: int, kept: seq<Message>) {
    && IsSuffix(kept, history) && 1 <= |kept| <= retain
    && forall n | |kept| < n <= retain && n <= |history| :: EstimateTokens(LastN(history, n)) > limit
  }

  /** The longest suffix of at most `retain` messages that fits, or the last message alone when none does. */
  predicate BestFit(history: seq<Message>, retain: nat, limit: int, kept: seq<Message>) {
    NoLongerFits(history, retain, limit, kept) && (EstimateTokens(kept) <= limit || |kept| == 1)
  }

  lemma DropFirst(history: seq<Message>, retain: nat, limit: int, kept: seq<Message>)
    requires NoLongerFits(history, retain, limit, kept) && |kept| > 1 && EstimateTokens(kept) > limit
    ensures NoLongerFits(history, retain, limit, kept[1..])
  {
    hide EstimateTokens, LastN;
    TailOfLastN(history, |kept|);
  }

  lemma WholeWindow(history: seq<Message>, retain: nat, limit: int)
    requires 0 < retain <= |history|
    ensures NoLongerFits(history, retain, limit, LastN(history, retain))
  {
    hide EstimateTokens;
  }

  /** Drop messages from the front of the window until it fits. */
  method SelectRetainedHistory(policy: Policy, history: seq<Message>, retain: nat, reason: Reason,
                               budget: Option<Budget>)
    returns (kept: seq<Message>)
    requires 0 < retain <= |history|
    ensures reason.HistoryWindow? || RetainedLimit(policy, budget).None? ==> kept == LastN(history, retain)
    ensures reason.TokenBudget? && RetainedLimit(policy, budget).Some? ==>
      BestFit(history, retain, RetainedLimit(policy, budget).value, kept)
  {
    hide EstimateTokens, LastN, NoLongerFits;
    kept := LastN(history, retain);
    var limit := RetainedLimit(policy, budget);
    if !reason.TokenBudget? || limit.None? {
      return;
    }
    WholeWindow(history, retain, limit.value);
    while |kept| > 1 && EstimateTokens(kept) > limit.value
      invariant 1 <= |kept| && NoLongerFits(history, retain, limit.value, kept)
    {
      DropFirst(history, retain, limit.value, kept);
      kept := kept[1..];
    }
  }

  datatype Split = Split(compacted: seq<Message>, retained: seq<Message>, reason: Reason)

  /** A compaction that happens splits the history in two non-empty parts; its token cost does not grow. */
  predicate Compacts(policy: Policy, history: seq<Message>, budget: Option<Budget>, s: Split) {
    && history == s.compacted + s.retained && s.compacted != [] && s.retained != []
    && |s.retained| <= policy.retain
    && Some(s.reason) == ReasonFor(policy, history, policy.retain, budget)
    && (s.reason.HistoryWindow? ==> |s.retained| == policy.retain)
    && (s.reason.TokenBudget? ==>
          BestFit(history, policy.retain, Max(1, Limit(policy, budget).value), s.retained))
    && EstimateTokens(s.retained) <= EstimateTokens(history)
  }

  method Compact(policy: Policy, history: seq<Message>, budget: Option<Budget>) returns (r: Option<Split>)
    ensures r.Some? <==>
      0 < policy.retain < |history| && ReasonFor(policy, history, policy.retain, budget).Some?
    ensures r.Some? ==> Compacts(policy, history, budget, r.value)
  {
    hide EstimateTokens;
    var retain := if policy.retain <= |history| then policy.retain else |history|;
    if retain <= 0 || |history| <= retain {
      return None;
    }
    var reason := ReasonFor(policy, history, retain, budget);
    if reason.None? {
      return None;
    }
    var kept := SelectRetainedHistory(policy, history, retain, reason.value, budget);
    var split := |history| - |kept|;
    SuffixCostsLess(history, split);
    assert history == history[..split] + history[split..];
    r := Some(Split(history[..split], kept, reason.value));
  }

  /**
   * The budget is met unless one message alone exceeds it: under a token budget, what is kept is over the limit if and
   * only if the last message is.
   */
  lemma OverBudgetIff(history: seq<Message>, retain: nat, limit: int, kept: seq<Message>)
    requires BestFit(history, retain, limit, kept)
    ensures EstimateTokens(kept) > limit <==> EstimateTokens(LastN(history, 1)) > limit
  {
    SuffixCostsLess(kept, |kept| - 1);
    assert kept[|kept| - 1..] == LastN(history, 1);
  }

  lemma MessageCosts(m: Message)
    ensures EstimateTokens([m]) >= 2
  {
    RenderEnds([m]);
    assert Render([m]) == RenderOne(m) && |RenderOne(m)| >= 5;
    hide Words, Strip;
  }

  lemma WindowOfOne(history: seq<Message>, limit: int)
    requires history != []
    ensures BestFit(history, 1, limit, LastN(history, 1))
  {
    WholeWindow(history, 1, limit);
    hide EstimateTokens, LastN, NoLongerFits;
  }

  /** With a budget of one token, compacting two messages keeps the last one, which is over budget. */
  lemma OneTokenIsNotMet(m: Message)
    ensures EstimateTokens([m]) > 1
    ensures Compacts(Policy(6, 1, Some(1)), [m, m], None, Split([m], [m], TokenBudget))
  {
    var history := [m, m];
    MessageCosts(m);
    SuffixCostsLess(history, 1);
    WindowOfOne(history, 1);
    assert history[1..] == [m] && LastN(history, 1) == [m];
    hide EstimateTokens, BestFit;
    assert [m] + [m] == history;
  }
}

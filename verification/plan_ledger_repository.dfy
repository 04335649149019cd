/** The append-only, revision-checked event log that stores plan ledgers. */
module PlanLedgerRepositories {
  import opened Collections
  import opened Text
  import opened PlanLedgers

  const SCHEMA_VERSION := 1

  /** A session's log also holds events of other components. */
  datatype Event =
    | Foreign
    | LedgerEvent(schemaVersion: int, sessionId: string, goalId: string, ledgerId: string, ledgerRevision: int,
                  turnId: string, idempotencyKey: string, payload: PlanLedger, timestamp: string)

  datatype LoadResult =
    | Loaded(ledger: PlanLedger, index: nat) | Missing | Invalid(index: nat) | Unsupported(index: nat)
  {
    predicate Unusable() {
      Invalid? || Unsupported?
    }

    function Revision(): int {
      if Loaded? then ledger.revision else 0
    }
  }

  /** `timestamp` is the caller's, or the current time when the caller gave none. */
  datatype Request = Request(ledger: PlanLedger, expected: int, turnId: string, idempotencyKey: string,
                             timestamp: string)

  datatype SaveResult =
    | Saved(expected: int, current: int, ledger: PlanLedger, replay: bool)
    | Conflict(expected: int, current: int, durable: Option<PlanLedger>)
    | Refused(expected: int, current: int)
    | Raised

  // ---------- Reading a payload back ----------

  function MakeItems(raw: seq<PlanItem>): (r: Result<seq<PlanItem>, PlanError>)
    ensures r.Ok? ==> ValidItems(r.value)
    ensures ValidItems(raw) ==> r == Ok(raw)
  {
    if raw == [] then Ok([])
    else
      assert raw == raw[..|raw| - 1] + [raw[|raw| - 1]] && raw[|raw| - 1] in raw;
      var before :- MakeItems(raw[..|raw| - 1]);
      var last :- MakeItem(raw[|raw| - 1]);
      Ok(before + [last])
  }

  /** What reading a stored payload yields: every item and the ledger are constructed anew. */
  ghost function Decoded(raw: PlanLedger): (r: Option<PlanLedger>)
    ensures r.Some? ==> ValidLedger(r.value)
    ensures ValidLedger(raw) ==> r == Some(raw)
  {
    var items := MakeItems(raw.items);
    if items.Err? then None
    else
      var cleaned := CleanLedger(raw.(items := items.value));
      if cleaned.Ok? && ValidLedger(cleaned.value) then Some(cleaned.value) else None
  }

  method Decode(raw: PlanLedger) returns (r: Option<PlanLedger>)
    ensures r == Decoded(raw)
  {
    var items := MakeItems(raw.items);
    if items.Err? {
      return None;
    }
    var ledger := MakeLedger(raw.(items := items.value));
    return if ledger.Ok? then Some(ledger.value) else None;
  }

  // ---------- Loading ----------

  predicate Matches(e: Event, goal: string, ledgerId: Option<string>) {
    e.LedgerEvent? && e.goalId == goal && (ledgerId.None? || e.ledgerId == ledgerId.value)
  }

  /** The position of the last event of a goal (and ledger), -1 when there is none. */
  function LastIndex(log: seq<Event>, goal: string, ledgerId: Option<string>): (k: int)
    ensures -1 <= k < |log|
    ensures k >= 0 ==> Matches(log[k], goal, ledgerId)
    ensures forall j :: k < j < |log| ==> !Matches(log[j], goal, ledgerId)
  {
    if log == [] then -1
    else if Matches(log[|log| - 1], goal, ledgerId) then |log| - 1
    else LastIndex(log[..|log| - 1], goal, ledgerId)
  }

  ghost predicate EnvelopeReadable(session: string, e: Event)
    requires e.LedgerEvent?
  {
    && e.sessionId == session && CleanText(e.timestamp, IDENTIFIER_CHARS).Ok?
    && CleanText(e.turnId, IDENTIFIER_CHARS).Ok? && CleanText(e.idempotencyKey, 256).Ok? && e.ledgerRevision >= 0
  }

  predicate SameIdentity(ledger: PlanLedger, session: string, e: Event)
    requires e.LedgerEvent?
  {
    && ledger.sessionId == session && ledger.goalId == e.goalId && ledger.ledgerId == e.ledgerId
    && ledger.revision == e.ledgerRevision
  }

  ghost function LoadEvent(session: string, e: Event, index: nat): LoadResult
    requires e.LedgerEvent?
  {
    if e.schemaVersion > SCHEMA_VERSION then Unsupported(index)
    else if e.schemaVersion != SCHEMA_VERSION || !EnvelopeReadable(session, e) then Invalid(index)
    else
      var ledger := Decoded(e.payload);
      if ledger.Some? && SameIdentity(ledger.value, session, e) then Loaded(ledger.value, index) else Invalid(index)
  }

  ghost function Load(log: seq<Event>, session: string, goal: string, ledgerId: Option<string>): LoadResult {
    var k := LastIndex(log, goal, ledgerId);
    if k < 0 then Missing else LoadEvent(session, log[k], k)
  }

  method ReadEvent(session: string, e: Event, index: nat) returns (r: LoadResult)
    requires e.LedgerEvent?
    ensures r == LoadEvent(session, e, index)
  {
    if e.schemaVersion != SCHEMA_VERSION {
      return if e.schemaVersion > SCHEMA_VERSION then Unsupported(index) else Invalid(index);
    }
    if e.sessionId != session || CleanText(e.timestamp, IDENTIFIER_CHARS).Err?
       || CleanText(e.turnId, IDENTIFIER_CHARS).Err? || CleanText(e.idempotencyKey, 256).Err? || e.ledgerRevision < 0 {
      return Invalid(index);
    }
    var ledger := Decode(e.payload);
    if ledger.None? || !SameIdentity(ledger.value, session, e) {
      return Invalid(index);
    }
    return Loaded(ledger.value, index);
  }

  method LoadFromEvents(log: seq<Event>, session: string, goal: string, ledgerId: Option<string>)
    returns (r: LoadResult)
    ensures r == Load(log, session, goal, ledgerId)
  {
    var k := |log|;
    while k > 0
      invariant 0 <= k <= |log|
      invariant forall j :: k <= j < |log| ==> !Matches(log[j], goal, ledgerId)
    {
      k := k - 1;
      if Matches(log[k], goal, ledgerId) {
        assert LastIndex(log, goal, ledgerId) == k;
        r := ReadEvent(session, log[k], k);
        return;
      }
    }
    return Missing;
  }

  // ---------- The conditional append ----------

  predicate HasKey(e: Event, ledger: PlanLedger, key: string) {
    && e.LedgerEvent? && e.sessionId == ledger.sessionId && e.goalId == ledger.goalId
    && e.ledgerId == ledger.ledgerId && e.idempotencyKey == key
  }

  /** The position of the last event of the ledger that carries the key, -1 when there is none. */
  function KeyIndex(log: seq<Event>, ledger: PlanLedger, key: string): (k: int)
    ensures -1 <= k < |log|
    ensures k >= 0 ==> HasKey(log[k], ledger, key)
    ensures forall j :: k < j < |log| ==> !HasKey(log[j], ledger, key)
  {
    if log == [] then -1
    else if HasKey(log[|log| - 1], ledger, key) then |log| - 1
    else KeyIndex(log[..|log| - 1], ledger, key)
  }

  method FindIdempotentEvent(log: seq<Event>, ledger: PlanLedger, key: string) returns (k: int)
    ensures k == KeyIndex(log, ledger, key)
  {
    k := |log| - 1;
    while k >= 0
      invariant -1 <= k < |log|
      invariant forall j :: k < j < |log| ==> !HasKey(log[j], ledger, key)
    {
      if HasKey(log[k], ledger, key) {
        return;
      }
      k := k - 1;
    }
  }

  /** The event a request writes; none when its ledger, turn or key is refused before the log is touched. */
  ghost function EventFor(req: Request): Option<Event> {
    var next := req.ledger.(revision := req.expected + 1);
    var turn, key := CleanText(req.turnId, IDENTIFIER_CHARS), CleanText(req.idempotencyKey, 256);
    if ValidLedger(next) && turn.Ok? && key.Ok?
    then Some(LedgerEvent(SCHEMA_VERSION, next.sessionId, next.goalId, next.ledgerId, next.revision, turn.value,
                          key.value, next, req.timestamp))
    else None
  }

  /** Two events ask for the same mutation when they differ at most in their timestamps. */
  predicate SameMutation(a: Event, b: Event)
    requires a.LedgerEvent? && b.LedgerEvent?
  {
    a == b.(timestamp := a.timestamp)
  }

  /** What the append predicate decides on the log it is given; `seen` is the revision read before suspending. */
  ghost function Verdict(log: seq<Event>, e: Event, seen: int): Option<SaveResult>
    requires e.LedgerEvent?
  {
    var expected := e.ledgerRevision - 1;
    var loaded := Load(log, e.sessionId, e.goalId, Some(e.ledgerId));
    var k := KeyIndex(log, e.payload, e.idempotencyKey);
    if loaded.Unusable() then Some(Refused(expected, 0))
    else if k >= 0 then
      if SameMutation(log[k], e) then
        var stored := Decoded(log[k].payload);
        Some(if stored.Some? then Saved(expected, expected, stored.value, true) else Raised)
      else Some(Refused(expected, seen))
    else if loaded.Revision() != expected then
      Some(Conflict(expected, loaded.Revision(), if loaded.Loaded? then Some(loaded.ledger) else None))
    else None
  }

  /** The atomic part of a save: append the event if nothing speaks against it. */
  ghost function Commit(log: seq<Event>, e: Event, seen: int): (seq<Event>, SaveResult)
    requires e.LedgerEvent?
  {
    var refused := Verdict(log, e, seen);
    if refused.Some? then (log, refused.value)
    else (log + [e], Saved(e.ledgerRevision - 1, e.ledgerRevision - 1, e.payload, false))
  }

  method AppendPredicate(log: seq<Event>, e: Event, seen: int) returns (refused: Option<SaveResult>)
    requires e.LedgerEvent?
    ensures refused == Verdict(log, e, seen)
  {
    hide Load, Decoded, KeyIndex;
    var expected := e.ledgerRevision - 1;
    var loaded := LoadFromEvents(log, e.sessionId, e.goalId, Some(e.ledgerId));
    if loaded.Unusable() {
      return Some(Refused(expected, 0));
    }
    var k := FindIdempotentEvent(log, e.payload, e.idempotencyKey);
    if k >= 0 {
      if SameMutation(log[k], e) {
        var stored := Decode(log[k].payload);
        return Some(if stored.Some? then Saved(expected, expected, stored.value, true) else Raised);
      }
      return Some(Refused(expected, seen));
    }
    var durable := loaded.Revision();
    if durable != expected {
      return Some(Conflict(expected, durable, if loaded.Loaded? then Some(loaded.ledger) else None));
    }
    return None;
  }

  lemma UnadvancedLedger(req: Request)
    requires ValidLedger(req.ledger)
    ensures var next := req.ledger.(revision := req.expected + 1);
      CleanLedger(next).Ok? && ValidLedger(CleanLedger(next).value) <==> ValidLedger(next)
  {
    var next := req.ledger.(revision := req.expected + 1);
    if next.revision >= 0 {
      assert ValidHeader(next);
    }
  }

  lemma EventShape(req: Request)
    requires EventFor(req).Some?
    ensures var e := EventFor(req).value; e.LedgerEvent? && e.ledgerRevision == req.expected + 1
  {
  }

  // ---------- Concurrent writers ----------

  /** What may happen to the log between two steps of one save. */
  datatype Action = Unrelated | Writes(request: Request, seen: int)

  ghost predicate ValidActions(actions: seq<Action>) {
    forall a | a in actions && a.Writes? :: ValidLedger(a.request.ledger)
  }

  ghost function Act(log: seq<Event>, action: Action): seq<Event> {
    match action
    case Unrelated => log + [Foreign]
    case Writes(request, seen) =>
      var e := EventFor(request);
      if e.None? then log else Commit(log, e.value, seen).0
  }

  ghost function Run(log: seq<Event>, actions: seq<Action>): seq<Event>
    decreases |actions|
  {
    if actions == [] then log else Act(Run(log, actions[..|actions| - 1]), actions[|actions| - 1])
  }

  // ---------- What every log of these writers looks like ----------

  function DurableRevision(log: seq<Event>, goal: string, ledgerId: string): int {
    var k := LastIndex(log, goal, Some(ledgerId));
    if k < 0 then 0 else log[k].ledgerRevision
  }

  ghost predicate LegalEvent(session: string, e: Event)
    requires e.LedgerEvent?
  {
    && e.schemaVersion == SCHEMA_VERSION && e.sessionId == session && ValidLedger(e.payload)
    && SameIdentity(e.payload, session, e)
    && IsText(e.turnId, IDENTIFIER_CHARS) && IsText(e.idempotencyKey, 256)
  }

  /** An event may follow a log when it carries the ledger's next revision and a key the ledger has not used. */
  ghost predicate LegalAppend(session: string, before: seq<Event>, e: Event) {
    e.LedgerEvent? ==>
      && LegalEvent(session, e)
      && e.ledgerRevision == DurableRevision(before, e.goalId, e.ledgerId) + 1
      && KeyIndex(before, e.payload, e.idempotencyKey) < 0
  }

  ghost predicate Legal(session: string, log: seq<Event>) {
    forall i :: 0 <= i < |log| ==> LegalAppend(session, log[..i], log[i])
  }

  lemma LegalExtend(session: string, log: seq<Event>, e: Event)
    requires Legal(session, log) && LegalAppend(session, log, e)
    ensures Legal(session, log + [e])
  {
    hide LegalAppend;
    var after := log + [e];
    forall i | 0 <= i < |after| ensures LegalAppend(session, after[..i], after[i]) {
      assert after[..i] == log[..i];
    }
  }

  /** A legal event can be read back unless its timestamp is blank or too long. */
  lemma LegalEventLoads(session: string, e: Event, index: nat)
    requires e.LedgerEvent? && LegalEvent(session, e)
    ensures LoadEvent(session, e, index)
      == if CleanText(e.timestamp, IDENTIFIER_CHARS).Ok? then Loaded(e.payload, index) else Invalid(index)
  {
    hide ValidLedger, Clean;
    ValidLedgerHeader(e.payload);
  }

  lemma ValidLedgerHeader(l: PlanLedger)
    requires ValidLedger(l)
    ensures l.revision >= 0
  {
  }

  /** On a legal log, loading a ledger returns what was saved last, or fails on that event's timestamp alone. */
  lemma LoadReturnsLastSaved(session: string, log: seq<Event>, goal: string, ledgerId: Option<string>)
    requires Legal(session, log)
    ensures var k := LastIndex(log, goal, ledgerId);
      Load(log, session, goal, ledgerId) ==
        if k < 0 then Missing
        else if CleanText(log[k].timestamp, IDENTIFIER_CHARS).Ok? then Loaded(log[k].payload, k)
        else Invalid(k)
    ensures ledgerId.Some? && Load(log, session, goal, ledgerId).Loaded? ==>
      Load(log, session, goal, ledgerId).ledger.revision == DurableRevision(log, goal, ledgerId.value)
  {
    var k := LastIndex(log, goal, ledgerId);
    if k >= 0 {
      assert LegalAppend(session, log[..k], log[k]);
      hide LegalEvent, Legal;
      LegalEventLoads(session, log[k], k);
      LegalIdentity(session, log[k]);
    }
  }

  lemma LegalIdentity(session: string, e: Event)
    requires e.LedgerEvent? && LegalEvent(session, e)
    ensures SameIdentity(e.payload, session, e) && e.sessionId == session
  {
  }

  lemma EventForIsLegal(req: Request)
    requires EventFor(req).Some?
    ensures EventFor(req).value.LedgerEvent? && LegalEvent(req.ledger.sessionId, EventFor(req).value)
  {
    hide ValidLedger, Clean;
  }

  /** A commit appends at most one event, and only a legal one; a refusal leaves the log alone. */
  lemma CommitKeepsLegal(session: string, log: seq<Event>, e: Event, seen: int)
    requires Legal(session, log) && e.LedgerEvent? && LegalEvent(session, e)
    ensures Legal(session, Commit(log, e, seen).0)
  {
    hide Legal, LegalEvent, Load;
    LegalIdentity(session, e);
    LoadReturnsLastSaved(session, log, e.goalId, Some(e.ledgerId));
    if Verdict(log, e, seen).None? {
      MissingMeansZero(session, log, e.goalId, e.ledgerId);
      LegalExtend(session, log, e);
    }
  }

  lemma MissingMeansZero(session: string, log: seq<Event>, goal: string, ledgerId: string)
    ensures Load(log, session, goal, Some(ledgerId)).Missing? ==> DurableRevision(log, goal, ledgerId) == 0
  {
  }

  lemma {:induction false} RunsKeepLegal(session: string, log: seq<Event>, actions: seq<Action>)
    requires Legal(session, log)
    requires forall a | a in actions && a.Writes? :: a.request.ledger.sessionId == session
    ensures Legal(session, Run(log, actions))
  {
    if actions != [] {
      var front, last := actions[..|actions| - 1], actions[|actions| - 1];
      assert last in actions;
      RunsKeepLegal(session, log, front);
      hide Legal, LegalEvent, EventFor, Verdict;
      var before := Run(log, front);
      if last.Unrelated? {
        LegalExtend(session, before, Foreign);
      } else if EventFor(last.request).Some? {
        EventForIsLegal(last.request);
        CommitKeepsLegal(session, before, EventFor(last.request).value, last.seen);
      }
    }
  }

  // ---------- Revisions, keys, winners ----------

  /** The events of one ledger, oldest first. */
  function History(log: seq<Event>, goal: string, ledgerId: string): (h: seq<Event>)
    ensures forall e | e in h :: Matches(e, goal, Some(ledgerId))
  {
    if log == [] then []
    else
      var before, last := History(log[..|log| - 1], goal, ledgerId), log[|log| - 1];
      if Matches(last, goal, Some(ledgerId)) then before + [last] else before
  }

  lemma LegalPrefix(session: string, log: seq<Event>, n: nat)
    requires Legal(session, log) && n <= |log|
    ensures Legal(session, log[..n])
  {
    forall i | 0 <= i < n ensures LegalAppend(session, log[..n][..i], log[..n][i]) {
      assert log[..n][..i] == log[..i];
      assert LegalAppend(session, log[..i], log[i]);
    }
  }

  lemma LastEventIsLegal(session: string, log: seq<Event>)
    requires Legal(session, log) && log != []
    ensures Legal(session, log[..|log| - 1]) && LegalAppend(session, log[..|log| - 1], log[|log| - 1])
  {
    LegalPrefix(session, log, |log| - 1);
  }

  /** How the last event moves its ledger's revision, and no other. */
  lemma RevisionStep(session: string, log: seq<Event>, goal: string, ledgerId: string)
    requires Legal(session, log) && log != []
    ensures var before, last := log[..|log| - 1], log[|log| - 1];
      && Legal(session, before)
      && DurableRevision(log, goal, ledgerId)
           == DurableRevision(before, goal, ledgerId) + (if Matches(last, goal, Some(ledgerId)) then 1 else 0)
      && (Matches(last, goal, Some(ledgerId)) ==> last.ledgerRevision == DurableRevision(log, goal, ledgerId))
  {
    LastEventIsLegal(session, log);
    hide LegalEvent, Legal, KeyIndex, HasKey;
  }

  /** Whatever the interleaving, a ledger's revisions in the log are exactly 1, 2, ..., n. */
  lemma {:induction false} RevisionsAreConsecutive(session: string, log: seq<Event>, goal: string, ledgerId: string)
    requires Legal(session, log)
    ensures var h := History(log, goal, ledgerId);
      && (forall k :: 0 <= k < |h| ==> Matches(h[k], goal, Some(ledgerId)) && h[k].ledgerRevision == k + 1)
      && DurableRevision(log, goal, ledgerId) == |h|
  {
    if log != [] {
      hide Legal, Matches, History, DurableRevision;
      HistoryStep(log, goal, ledgerId);
      RevisionStep(session, log, goal, ledgerId);
      RevisionsAreConsecutive(session, log[..|log| - 1], goal, ledgerId);
    }
  }

  lemma HistoryStep(log: seq<Event>, goal: string, ledgerId: string)
    requires log != []
    ensures var last := log[|log| - 1];
      History(log, goal, ledgerId) == History(log[..|log| - 1], goal, ledgerId)
        + (if Matches(last, goal, Some(ledgerId)) then [last] else [])
  {
  }

  /** No idempotency key occurs twice for a ledger. */
  lemma KeysAreUnique(session: string, log: seq<Event>, i: nat, j: nat)
    requires Legal(session, log) && i < j < |log| && log[i].LedgerEvent? && log[j].LedgerEvent?
    requires log[i].goalId == log[j].goalId && log[i].ledgerId == log[j].ledgerId
    ensures log[i].idempotencyKey != log[j].idempotencyKey
  {
    assert LegalAppend(session, log[..i], log[i]) && LegalAppend(session, log[..j], log[j]);
    assert log[..j][i] == log[i];
    assert !HasKey(log[..j][i], log[j].payload, log[j].idempotencyKey);
  }

  /** The log only grows. */
  lemma {:induction false} RunExtends(log: seq<Event>, actions: seq<Action>)
    ensures log <= Run(log, actions)
  {
    if actions != [] {
      hide EventFor, Verdict;
      RunExtends(log, actions[..|actions| - 1]);
    }
  }

  lemma {:induction false} RevisionGrows(session: string, log: seq<Event>, goal: string, ledgerId: string, n: nat)
    requires Legal(session, log) && n <= |log|
    ensures DurableRevision(log[..n], goal, ledgerId) <= DurableRevision(log, goal, ledgerId)
    decreases |log|
  {
    hide *;
    if n == |log| {
      assert log[..n] == log;
    } else {
      var front := log[..|log| - 1];
      assert front[..n] == log[..n];
      RevisionStep(session, log, goal, ledgerId);
      RevisionGrows(session, front, goal, ledgerId, n);
    }
  }

  ghost predicate Appends(log: seq<Event>, e: Event, seen: int)
    requires e.LedgerEvent?
  {
    Verdict(log, e, seen).None?
  }

  /** At most one writer wins per expected revision: after one has, no later one does, whatever happens between. */
  lemma OneWinner(session: string, log: seq<Event>, a: Event, seenA: int, actions: seq<Action>, b: Event, seenB: int)
    requires Legal(session, log) && a.LedgerEvent? && LegalEvent(session, a) && b.LedgerEvent? && LegalEvent(session, b)
    requires forall x | x in actions && x.Writes? :: x.request.ledger.sessionId == session
    requires a.goalId == b.goalId && a.ledgerId == b.ledgerId && a.ledgerRevision == b.ledgerRevision
    requires Appends(log, a, seenA)
    ensures !Appends(Run(log + [a], actions), b, seenB)
  {
    hide Legal, LegalEvent, Run;
    var middle := log + [a];
    CommitKeepsLegal(session, log, a, seenA);
    RunsKeepLegal(session, middle, actions);
    RunExtends(middle, actions);
    var last := Run(middle, actions);
    RevisionGrows(session, last, a.goalId, a.ledgerId, |middle|);
    assert last[..|middle|] == middle;
    assert DurableRevision(middle, a.goalId, a.ledgerId) == a.ledgerRevision;
    if Appends(last, b, seenB) {
      WinnerFollowsRevision(session, last, b, seenB);
    }
  }

  /** Only a save that expects exactly the durable revision appends. */
  lemma WinnerFollowsRevision(session: string, log: seq<Event>, e: Event, seen: int)
    requires Legal(session, log) && e.LedgerEvent? && LegalEvent(session, e) && Appends(log, e, seen)
    ensures e.ledgerRevision == DurableRevision(log, e.goalId, e.ledgerId) + 1
  {
    hide Legal, LegalEvent, Load;
    LegalIdentity(session, e);
    LoadReturnsLastSaved(session, log, e.goalId, Some(e.ledgerId));
    MissingMeansZero(session, log, e.goalId, e.ledgerId);
  }

  /**
   * Sending a request again, under any later timestamp and after any other activity, appends nothing; it returns the
   * ledger stored the first time exactly when the ledger can still be loaded.
   */
  lemma ReplayIsHarmless(session: string, log: seq<Event>, e: Event, seen: int, actions: seq<Action>,
                         timestamp: string, seenLater: int)
    requires Legal(session, log) && e.LedgerEvent? && LegalEvent(session, e) && Appends(log, e, seen)
    requires forall x | x in actions && x.Writes? :: x.request.ledger.sessionId == session
    ensures var later := Run(log + [e], actions);
      && Commit(later, e.(timestamp := timestamp), seenLater) ==
           (later, if Load(later, session, e.goalId, Some(e.ledgerId)).Unusable()
                   then Refused(e.ledgerRevision - 1, 0)
                   else Saved(e.ledgerRevision - 1, e.ledgerRevision - 1, e.payload, true))
  {
    hide Legal, Load, Run, ValidLedger;
    var again := e.(timestamp := timestamp);
    CommitKeepsLegal(session, log, e, seen);
    RunsKeepLegal(session, log + [e], actions);
    RunExtends(log + [e], actions);
    var later := Run(log + [e], actions);
    LegalIdentity(session, e);
    assert later[|log|] == e;
    var k := KeyIndex(later, again.payload, again.idempotencyKey);
    assert HasKey(later[|log|], again.payload, again.idempotencyKey);
    if k != |log| {
      KeysAreUnique(session, later, |log|, k);
    }
  }

  /**
   * A saved ledger loads back as it was saved if and only if its timestamp is neither blank nor too long; if it is,
   * the ledger can never be loaded or saved again.
   */
  lemma LoadsBackIffTimestampClean(session: string, log: seq<Event>, e: Event, seen: int)
    requires Legal(session, log) && e.LedgerEvent? && LegalEvent(session, e) && Appends(log, e, seen)
    ensures Load(log + [e], session, e.goalId, Some(e.ledgerId)) == Loaded(e.payload, |log|)
      <==> CleanText(e.timestamp, IDENTIFIER_CHARS).Ok?
  {
    hide Legal, LegalEvent, Load, Verdict;
    CommitKeepsLegal(session, log, e, seen);
    LoadReturnsLastSaved(session, log + [e], e.goalId, Some(e.ledgerId));
    assert LastIndex(log + [e], e.goalId, Some(e.ledgerId)) == |log|;
  }

  /** The first event of a ledger, saved under the given timestamp. */
  function FirstEvent(timestamp: string): Event {
    LedgerEvent(SCHEMA_VERSION, "s", "g", "l", 1, "u", "k", LoneLedger(1), timestamp)
  }

  lemma FirstEventIsLegal(timestamp: string)
    ensures LegalEvent("s", FirstEvent(timestamp))
  {
    LoneLedgerIsValid(1);
    OneLetterText("u", IDENTIFIER_CHARS);
    OneLetterText("k", 256);
    hide ValidLedger, IsText;
  }

  lemma BlankIsNoText()
    ensures CleanText(" ", IDENTIFIER_CHARS).Err?
  {
    assert Words(" ") == Words(" "[1..]);
  }

  /** A blank timestamp is accepted on saving and makes the ledger unreadable. */
  lemma BlankTimestampIsLost()
    ensures LegalEvent("s", FirstEvent(" ")) && Appends([], FirstEvent(" "), 0)
    ensures Load([] + [FirstEvent(" ")], "s", "g", Some("l")) == Invalid(0)
  {
    FirstEventIsLegal(" ");
    BlankIsNoText();
    hide LegalEvent, CleanText;
    assert Appends([], FirstEvent(" "), 0);
    var log := [] + [FirstEvent(" ")];
    assert LastIndex(log, "g", Some("l")) == 0;
    LegalEventLoads("s", FirstEvent(" "), 0);
  }

  /** One step of another writer cannot make an unreadable ledger readable. */
  lemma UnreadableStep(log: seq<Event>, session: string, goal: string, ledgerId: string, action: Action)
    requires Load(log, session, goal, Some(ledgerId)).Unusable()
    requires action.Writes? ==> action.request.ledger.sessionId == session
    ensures Load(Act(log, action), session, goal, Some(ledgerId)) == Load(log, session, goal, Some(ledgerId))
  {
    if action.Unrelated? {
      LoadIgnoresOthers(log, session, goal, ledgerId, Foreign);
    } else if EventFor(action.request).Some? {
      var e := EventFor(action.request).value;
      EventForIsLegal(action.request);
      LegalIdentity(session, e);
      hide EventFor, Load, LegalEvent;
      if e.goalId != goal || e.ledgerId != ledgerId {
        LoadIgnoresOthers(log, session, goal, ledgerId, e);
      }
    }
  }

  lemma {:induction false} UnreadableForEver(session: string, log: seq<Event>, goal: string, ledgerId: string,
                                             actions: seq<Action>)
    requires Load(log, session, goal, Some(ledgerId)).Unusable()
    requires forall x | x in actions && x.Writes? :: x.request.ledger.sessionId == session
    ensures Load(Run(log, actions), session, goal, Some(ledgerId)) == Load(log, session, goal, Some(ledgerId))
  {
    hide Load, Act;
    if actions != [] {
      var front, last := actions[..|actions| - 1], actions[|actions| - 1];
      assert last in actions;
      UnreadableForEver(session, log, goal, ledgerId, front);
      UnreadableStep(Run(log, front), session, goal, ledgerId, last);
    }
  }

  /** Appending an event of another ledger, or of another component, changes no load of this one. */
  lemma LoadIgnoresOthers(log: seq<Event>, session: string, goal: string, ledgerId: string, e: Event)
    requires !Matches(e, goal, Some(ledgerId))
    ensures Load(log + [e], session, goal, Some(ledgerId)) == Load(log, session, goal, Some(ledgerId))
  {
    assert (log + [e])[..|log|] == log;
    hide LoadEvent;
    var k := LastIndex(log, goal, Some(ledgerId));
    assert LastIndex(log + [e], goal, Some(ledgerId)) == k;
  }

  // ---------- What a save does and tells ----------

  /** A save as a whole: read, let others write, commit. */
  ghost function Saving(log: seq<Event>, req: Request, meanwhile: seq<Action>): (seq<Event>, SaveResult) {
    var first := Load(log, req.ledger.sessionId, req.ledger.goalId, Some(req.ledger.ledgerId));
    if first.Unusable() then (log, Refused(req.expected, 0))
    else if EventFor(req).None? then (log, Raised)
    else (EventShape(req); Commit(Run(log, meanwhile), EventFor(req).value, first.Revision()))
  }

  /** The event that carries the request: the ledger at its next revision under the cleaned turn and key. */
  ghost predicate Carries(e: Event, req: Request) {
    && e.LedgerEvent? && e.schemaVersion == 1
    && e.sessionId == req.ledger.sessionId && e.goalId == req.ledger.goalId && e.ledgerId == req.ledger.ledgerId
    && e.ledgerRevision == req.expected + 1 && e.payload == req.ledger.(revision := req.expected + 1)
    && Ok(e.turnId) == CleanText(req.turnId, 128) && Ok(e.idempotencyKey) == CleanText(req.idempotencyKey, 256)
    && e.timestamp == req.timestamp
  }

  /** `log[k]` is an event of the request's ledger under its key. */
  ghost predicate UsesKey(log: seq<Event>, k: int, e: Event)
    requires e.LedgerEvent?
  {
    && 0 <= k < |log| && log[k].LedgerEvent? && log[k].sessionId == e.sessionId
    && log[k].goalId == e.goalId && log[k].ledgerId == e.ledgerId && log[k].idempotencyKey == e.idempotencyKey
  }

  ghost predicate IsLastOf(log: seq<Event>, k: int, goal: string, ledgerId: string) {
    && 0 <= k < |log| && log[k].LedgerEvent? && log[k].goalId == goal && log[k].ledgerId == ledgerId
    && forall j :: k < j < |log| && log[j].LedgerEvent? && log[j].goalId == goal ==> log[j].ledgerId != ledgerId
  }

  /** Whatever is in the log: who is told `saved`, and what is behind it. */
  lemma SavedIsTrue(log: seq<Event>, req: Request, meanwhile: seq<Action>)
    ensures var (after, r) := Saving(log, req, meanwhile);
      var before := Run(log, meanwhile);
      && (r.Saved? && !r.replay <==> |after| == |before| + 1)
      && (r.Saved? && !r.replay ==>
            && after == before + [after[|before|]] && Carries(after[|before|], req)
            && r.ledger == req.ledger.(revision := req.expected + 1))
      && (r.Saved? && r.replay ==> after == before && exists k, e ::
            && Carries(e, req) && UsesKey(before, k, e) && before[k] == e.(timestamp := before[k].timestamp)
            && Decoded(before[k].payload) == Some(r.ledger))
      && (!r.Saved? ==> after == before || after == log)
  {
    hide Load, Run, ValidLedger, Decoded;
    RunExtends(log, meanwhile);
    var before := Run(log, meanwhile);
    if EventFor(req).Some? {
      var e := EventFor(req).value;
      assert Carries(e, req);
      var k := KeyIndex(before, e.payload, e.idempotencyKey);
      if k >= 0 {
        assert UsesKey(before, k, e);
      }
    }
  }

  /** What a writer is told on the log it commits to, read off that log alone. */
  ghost predicate Told(log: seq<Event>, e: Event, seen: int, r: SaveResult)
    requires e.LedgerEvent?
  {
    var expected := e.ledgerRevision - 1;
    var unreadable := exists k :: IsLastOf(log, k, e.goalId, e.ledgerId) && CleanText(log[k].timestamp, 128).Err?;
    && (unreadable ==> r == Refused(expected, 0))
    && (forall k :: !unreadable && UsesKey(log, k, e) ==>
          r == if log[k] == e.(timestamp := log[k].timestamp) then Saved(expected, expected, log[k].payload, true)
               else Refused(expected, seen))
    && (forall k :: !unreadable && IsLastOf(log, k, e.goalId, e.ledgerId) && (forall j :: !UsesKey(log, j, e)) ==>
          r == if log[k].ledgerRevision == expected then Saved(expected, expected, e.payload, false)
               else Conflict(expected, log[k].ledgerRevision, Some(log[k].payload)))
    && ((forall k :: !IsLastOf(log, k, e.goalId, e.ledgerId)) ==>
          r == if expected == 0 then Saved(0, 0, e.payload, false) else Conflict(expected, 0, None))
  }

  lemma LastIs(log: seq<Event>, goal: string, ledgerId: string)
    ensures var last := LastIndex(log, goal, Some(ledgerId));
      forall k :: IsLastOf(log, k, goal, ledgerId) <==> k == last && 0 <= k
  {
    var last := LastIndex(log, goal, Some(ledgerId));
    forall k ensures IsLastOf(log, k, goal, ledgerId) <==> k == last && 0 <= k {
      if IsLastOf(log, k, goal, ledgerId) {
        assert Matches(log[k], goal, Some(ledgerId));
        assert last >= 0 ==> Matches(log[last], goal, Some(ledgerId));
      }
      if k == last && 0 <= k {
        assert forall j :: k < j < |log| ==> !Matches(log[j], goal, Some(ledgerId));
      }
    }
  }

  /** On a legal log a key is in use at one position at most, and the reverse scan finds it. */
  lemma KeyIs(session: string, log: seq<Event>, e: Event)
    requires Legal(session, log) && e.LedgerEvent? && LegalEvent(session, e)
    ensures var used := KeyIndex(log, e.payload, e.idempotencyKey);
      && (forall k :: UsesKey(log, k, e) <==> k == used && 0 <= k)
      && (used >= 0 ==>
            Decoded(log[used].payload) == Some(log[used].payload) && LastIndex(log, e.goalId, Some(e.ledgerId)) >= 0)
  {
    var used := KeyIndex(log, e.payload, e.idempotencyKey);
    LegalIdentity(session, e);
    assert used >= 0 ==> Matches(log[used], e.goalId, Some(e.ledgerId));
    hide ValidLedger, Decoded;
    if used >= 0 {
      assert LegalAppend(session, log[..used], log[used]);
    }
    hide Legal, LegalEvent;
    forall k ensures UsesKey(log, k, e) <==> k == used && 0 <= k {
      if UsesKey(log, k, e) {
        assert HasKey(log[k], e.payload, e.idempotencyKey);
        if k != used {
          KeysAreUnique(session, log, k, used);
        }
      }
    }
  }

  /** What every writer is told on a log these writers wrote: nothing but the log decides. */
  lemma CommitTells(session: string, log: seq<Event>, e: Event, seen: int)
    requires Legal(session, log) && e.LedgerEvent? && LegalEvent(session, e)
    ensures Told(log, e, seen, Commit(log, e, seen).1)
  {
    hide Legal, LegalEvent, UsesKey, IsLastOf, LastIndex, KeyIndex, Load, Decoded;
    LoadReturnsLastSaved(session, log, e.goalId, Some(e.ledgerId));
    LastIs(log, e.goalId, e.ledgerId);
    KeyIs(session, log, e);
    LegalIdentity(session, e);
    var k, used := LastIndex(log, e.goalId, Some(e.ledgerId)), KeyIndex(log, e.payload, e.idempotencyKey);
    assert IsLastOf(log, k, e.goalId, e.ledgerId) <==> 0 <= k;
    assert UsesKey(log, used, e) <==> 0 <= used;
  }

  /** What loading a ledger yields on any log, legal or not: its last event decides. */
  lemma LoadsIff(log: seq<Event>, session: string, goal: string, ledgerId: string)
    ensures var r := Load(log, session, goal, Some(ledgerId));
      && (r == Missing <==> forall k :: !IsLastOf(log, k, goal, ledgerId))
      && forall k :: IsLastOf(log, k, goal, ledgerId) ==>
           var e := log[k];
           && (r == Unsupported(k) <==> e.schemaVersion > 1)
           && (r.Loaded? <==>
                 && e.schemaVersion == 1 && e.sessionId == session && e.ledgerRevision >= 0
                 && CleanText(e.timestamp, 128).Ok? && CleanText(e.turnId, 128).Ok?
                 && CleanText(e.idempotencyKey, 256).Ok?
                 && Decoded(e.payload).Some?
                 && var l := Decoded(e.payload).value;
                    l.sessionId == session && l.goalId == goal && l.ledgerId == ledgerId
                    && l.revision == e.ledgerRevision)
           && (r.Loaded? ==> Some(r.ledger) == Decoded(e.payload))
  {
    LastIs(log, goal, ledgerId);
    hide IsLastOf, Decoded, CleanText;
    assert IsLastOf(log, LastIndex(log, goal, Some(ledgerId)), goal, ledgerId) <==>
      0 <= LastIndex(log, goal, Some(ledgerId));
  }

  ghost predicate Unreadable(log: seq<Event>, goal: string, ledgerId: string) {
    exists k :: IsLastOf(log, k, goal, ledgerId) && CleanText(log[k].timestamp, 128).Err?
  }

  /** The request becomes an event: its ledger is valid at the next revision, and turn and key are texts. */
  ghost predicate Expressible(req: Request) {
    && ValidLedger(req.ledger.(revision := req.expected + 1))
    && CleanText(req.turnId, 128).Ok? && CleanText(req.idempotencyKey, 256).Ok?
  }

  /** What a save is told: refused or raised before it writes, else what the log tells it once the others are done. */
  lemma SaveTells(session: string, log: seq<Event>, req: Request, meanwhile: seq<Action>)
    requires Legal(session, log) && req.ledger.sessionId == session
    requires forall a | a in meanwhile && a.Writes? :: a.request.ledger.sessionId == session
    ensures var (after, r) := Saving(log, req, meanwhile);
      if Unreadable(log, req.ledger.goalId, req.ledger.ledgerId) then after == log && r == Refused(req.expected, 0)
      else if !Expressible(req) then after == log && r == Raised
      else forall e :: Carries(e, req) ==>
        Told(Run(log, meanwhile), e, DurableRevision(log, req.ledger.goalId, req.ledger.ledgerId), r)
  {
    hide Legal, Load, Run, ValidLedger, LegalEvent, IsLastOf, Told, LastIndex;
    var goal, ledgerId := req.ledger.goalId, req.ledger.ledgerId;
    LoadReturnsLastSaved(session, log, goal, Some(ledgerId));
    LastIs(log, goal, ledgerId);
    assert IsLastOf(log, LastIndex(log, goal, Some(ledgerId)), goal, ledgerId) <==>
      0 <= LastIndex(log, goal, Some(ledgerId));
    MissingMeansZero(session, log, goal, ledgerId);
    assert EventFor(req).Some? <==> Expressible(req);
    if EventFor(req).Some? {
      EventForIsLegal(req);
      RunsKeepLegal(session, log, meanwhile);
      hide Verdict;
      CommitTells(session, Run(log, meanwhile), EventFor(req).value, DurableRevision(log, goal, ledgerId));
    }
  }

  class Repository {
    var log: seq<Event>

    constructor (log: seq<Event>)
      ensures this.log == log
    {
      this.log := log;
    }

    method EventOf(req: Request) returns (e: Option<Event>)
      requires ValidLedger(req.ledger)
      ensures e == EventFor(req)
    {
      ValidLedgerItems(req.ledger);
      var next := MakeLedger(req.ledger.(revision := req.expected + 1));
      var turn, key := CleanText(req.turnId, IDENTIFIER_CHARS), CleanText(req.idempotencyKey, 256);
      if next.Err? || turn.Err? || key.Err? {
        UnadvancedLedger(req);
        return None;
      }
      UnadvancedLedger(req);
      return Some(LedgerEvent(SCHEMA_VERSION, req.ledger.sessionId, req.ledger.goalId, req.ledger.ledgerId,
                              req.expected + 1, turn.value, key.value, next.value, req.timestamp));
    }

    /** Read, suspend while others write, then append under the predicate. */
    method Save(req: Request, meanwhile: seq<Action>) returns (r: SaveResult)
      requires ValidLedger(req.ledger) && ValidActions(meanwhile)
      modifies this
      ensures (log, r) == Saving(old(log), req, meanwhile)
    {
      hide Load, EventFor, Verdict, Run, ValidLedger;
      var current := LoadFromEvents(log, req.ledger.sessionId, req.ledger.goalId, Some(req.ledger.ledgerId));
      if current.Unusable() {
        return Refused(req.expected, 0);
      }
      var event := EventOf(req);
      if event.None? {
        return Raised;
      }
      EventShape(req);
      Others(meanwhile);
      var refused := AppendPredicate(log, event.value, current.Revision());
      if refused.Some? {
        return refused.value;
      }
      log := log + [event.value];
      return Saved(req.expected, req.expected, event.value.payload, false);
    }

    /** The other writers' steps, one after the other: each is atomic. */
    method Others(actions: seq<Action>)
      requires ValidActions(actions)
      modifies this
      ensures log == Run(old(log), actions)
    {
      hide EventFor, Verdict, ValidLedger;
      for k := 0 to |actions|
        invariant log == Run(old(log), actions[..k])
      {
        assert actions[..k + 1][..k] == actions[..k];
        match actions[k] {
          case Unrelated => log := log + [Foreign];
          case Writes(request, seen) =>
            var event := EventOf(request);
            if event.Some? {
              EventShape(request);
              var refused := AppendPredicate(log, event.value, seen);
              if refused.None? {
                log := log + [event.value];
              }
            }
        }
      }
      assert actions[..|actions|] == actions;
    }
  }
}

/** The durable plan of a chat goal: items over a dependency graph, and the transitions the host allows. */
module PlanLedgers {
  import opened Collections
  import opened Text
  import opened Digraph
  import CycleSearch

  const MAX_ITEMS := 12
  const MAX_ENTRIES := 8
  const IDENTIFIER_CHARS := 128

  datatype ItemStatus = Pending | InProgress | Completed | Blocked | Cancelled {
    predicate Terminal() {
      Completed? || Cancelled?
    }
  }

  datatype LedgerStatus = LedgerActive | LedgerCompleted | LedgerBlocked | LedgerCancelled {
    predicate Terminal() {
      LedgerCompleted? || LedgerCancelled?
    }
  }

  datatype PlanItem = PlanItem(itemId: string, title: string, status: ItemStatus, dependencies: seq<string>,
                               successCriteria: seq<string>, sourceTurnIds: seq<string>, evidenceRefs: seq<string>,
                               blockerReason: Option<string>, attempts: int)

  datatype PlanLedger = PlanLedger(ledgerId: string, sessionId: string, goalId: string, revision: int,
                                   status: LedgerStatus, objective: string, reasonCodes: seq<string>,
                                   items: seq<PlanItem>, createdTurnId: string, updatedTurnId: string)

  datatype Defect = Sound | DuplicateIds | TwoInProgress | UnknownDependency | BlockedStart | CyclicDependencies

  datatype PlanError =
    | BadText(error: TextError) | SelfDependency | NegativeAttempts | BlockerMissing | StrayBlocker | EvidenceMissing
    | StrayEvidence | NegativeRevision | NoItems | TooManyItems | BadItems(defect: Defect) | NeverAdvanced
    | TerminalLedger | TerminalItem | UnknownItem | DependenciesIncomplete | AnotherInProgress | UnrecognizedEvidence
    | IdentityChanged | CreatorChanged

  function InField<T>(r: Result<T, TextError>): Result<T, PlanError> {
    if r.Ok? then Ok(r.value) else Err(BadText(r.error))
  }

  // ---------- Items ----------

  predicate ValidItem(i: PlanItem) {
    && IsText(i.itemId, IDENTIFIER_CHARS) && IsText(i.title, 200)
    && AreTexts(i.dependencies, 0, MAX_ENTRIES, IDENTIFIER_CHARS) && i.itemId !in i.dependencies
    && AreTexts(i.successCriteria, 1, MAX_ENTRIES, 240)
    && AreTexts(i.sourceTurnIds, 1, MAX_ENTRIES, IDENTIFIER_CHARS)
    && AreTexts(i.evidenceRefs, 0, MAX_ENTRIES, IDENTIFIER_CHARS)
    && (i.blockerReason.Some? ==> IsText(i.blockerReason.value, 400))
    && i.attempts >= 0
    && (i.status.Blocked? <==> i.blockerReason.Some?)
    && (i.status.Completed? <==> i.evidenceRefs != [])
  }

  function CleanOptional(s: Option<string>, maxChars: nat): Result<Option<string>, TextError> {
    if s.None? then Ok(None)
    else
      var c := CleanText(s.value, maxChars);
      if c.Ok? then Ok(Some(c.value)) else Err(c.error)
  }

  /** The constructor: clean every field, then check the status rules. A valid item is rebuilt as itself. */
  function MakeItem(raw: PlanItem): (r: Result<PlanItem, PlanError>)
    ensures r.Ok? ==> ValidItem(r.value)
    ensures ValidItem(raw) ==> r == Ok(raw)
  {
    var itemId :- InField(CleanText(raw.itemId, IDENTIFIER_CHARS));
    var title :- InField(CleanText(raw.title, 200));
    var dependencies :- InField(CleanTexts(raw.dependencies, 0, MAX_ENTRIES, IDENTIFIER_CHARS));
    if itemId in dependencies then Err(SelfDependency)
    else
      var criteria :- InField(CleanTexts(raw.successCriteria, 1, MAX_ENTRIES, 240));
      var turns :- InField(CleanTexts(raw.sourceTurnIds, 1, MAX_ENTRIES, IDENTIFIER_CHARS));
      var evidence :- InField(CleanTexts(raw.evidenceRefs, 0, MAX_ENTRIES, IDENTIFIER_CHARS));
      var blocker :- InField(CleanOptional(raw.blockerReason, 400));
      if raw.attempts < 0 then Err(NegativeAttempts)
      else if raw.status.Blocked? && blocker.None? then Err(BlockerMissing)
      else if !raw.status.Blocked? && blocker.Some? then Err(StrayBlocker)
      else if raw.status.Completed? && evidence == [] then Err(EvidenceMissing)
      else if !raw.status.Completed? && evidence != [] then Err(StrayEvidence)
      else Ok(PlanItem(itemId, title, raw.status, dependencies, criteria, turns, evidence, blocker, raw.attempts))
  }

  /** Exactly which fields make an item, and that it then carries them cleaned. */
  lemma ItemConstructedIff(raw: PlanItem)
    ensures var r := MakeItem(raw);
      var dependencies, evidence := CleanTexts(raw.dependencies, 0, 8, 128), CleanTexts(raw.evidenceRefs, 0, 8, 128);
      && (r.Ok? <==>
            && CleanText(raw.itemId, 128).Ok? && CleanText(raw.title, 200).Ok?
            && dependencies.Ok? && CleanText(raw.itemId, 128).value !in dependencies.value
            && CleanTexts(raw.successCriteria, 1, 8, 240).Ok? && CleanTexts(raw.sourceTurnIds, 1, 8, 128).Ok?
            && evidence.Ok? && (raw.status == Completed <==> evidence.value != [])
            && (raw.blockerReason != None ==> CleanText(raw.blockerReason.value, 400).Ok?)
            && (raw.status == Blocked <==> raw.blockerReason != None) && raw.attempts >= 0)
      && (r.Ok? ==>
            && Ok(r.value.itemId) == CleanText(raw.itemId, 128) && Ok(r.value.title) == CleanText(raw.title, 200)
            && Ok(r.value.dependencies) == dependencies && Ok(r.value.evidenceRefs) == evidence
            && Ok(r.value.successCriteria) == CleanTexts(raw.successCriteria, 1, 8, 240)
            && Ok(r.value.sourceTurnIds) == CleanTexts(raw.sourceTurnIds, 1, 8, 128)
            && (raw.blockerReason != None ==>
                  r.value.blockerReason == Some(CleanText(raw.blockerReason.value, 400).value))
            && r.value.status == raw.status && r.value.attempts == raw.attempts)
  {
    hide CleanText, CleanTexts, AreTexts, IsText;
  }

  // ---------- The items of a ledger ----------

  function Ids(items: seq<PlanItem>): (ids: seq<string>)
    ensures |ids| == |items| && forall k :: 0 <= k < |ids| ==> ids[k] == items[k].itemId
  {
    seq(|items|, k requires 0 <= k < |items| => items[k].itemId)
  }

  predicate AtMostOneInProgress(items: seq<PlanItem>) {
    forall j, k :: 0 <= j < k < |items| ==> !(items[j].status.InProgress? && items[k].status.InProgress?)
  }

  predicate DependenciesKnown(items: seq<PlanItem>) {
    forall i | i in items :: forall d | d in i.dependencies :: d in Ids(items)
  }

  predicate CompletedIn(items: seq<PlanItem>, id: string) {
    exists j | j in items :: j.itemId == id && j.status.Completed?
  }

  predicate Ready(items: seq<PlanItem>, i: PlanItem) {
    forall d | d in i.dependencies :: CompletedIn(items, d)
  }

  predicate StartedAreReady(items: seq<PlanItem>) {
    forall i | i in items && i.status.InProgress? :: Ready(items, i)
  }

  ghost predicate WellFormed(items: seq<PlanItem>) {
    && NoDup(Ids(items)) && AtMostOneInProgress(items) && DependenciesKnown(items) && StartedAreReady(items)
    && AcyclicItems(items)
  }

  ghost predicate AcyclicItems(items: seq<PlanItem>)
    requires NoDup(Ids(items))
  {
    !Cyclic(CycleSearch.Arcs(DependencyMap(items)))
  }

  function DependencyMap(items: seq<PlanItem>): (m: map<string, seq<string>>)
    requires NoDup(Ids(items))
    ensures m.Keys == ToSet(Ids(items)) && forall i | i in items :: m[i.itemId] == i.dependencies
  {
    SameIdSameItem(items);
    map i | i in items :: i.itemId := i.dependencies
  }

  lemma SameIdSameItem(items: seq<PlanItem>)
    requires NoDup(Ids(items))
    ensures forall i, j | i in items && j in items && i.itemId == j.itemId :: i == j
    ensures forall i | i in items :: i.itemId in Ids(items)
    ensures forall id | id in Ids(items) :: exists i :: i in items && i.itemId == id
  {
    forall i, j | i in items && j in items && i.itemId == j.itemId ensures i == j {
      var a :| 0 <= a < |items| && items[a] == i;
      var b :| 0 <= b < |items| && items[b] == j;
      assert Ids(items)[a] == Ids(items)[b];
    }
    forall i | i in items ensures i.itemId in Ids(items) {
      var a :| 0 <= a < |items| && items[a] == i;
      assert Ids(items)[a] == i.itemId;
    }
    forall id | id in Ids(items) ensures exists i :: i in items && i.itemId == id {
      var a :| 0 <= a < |items| && Ids(items)[a] == id;
      assert items[a] in items;
    }
  }

  method CountInProgress(items: seq<PlanItem>) returns (count: nat)
    ensures count > 1 <==> !AtMostOneInProgress(items)
  {
    count := 0;
    for k := 0 to |items|
      invariant count == 0 <==> forall j :: 0 <= j < k ==> !items[j].status.InProgress?
      invariant count > 1 <==> !AtMostOneInProgress(items[..k])
    {
      ghost var before, after := items[..k], items[..k + 1];
      assert forall j :: 0 <= j < k ==> before[j] == after[j] == items[j];
      if items[k].status.InProgress? {
        assert after[k] == items[k];
        assert count >= 1 ==> exists j :: 0 <= j < k && after[j].status.InProgress?;
        count := count + 1;
      }
    }
    assert items[..|items|] == items;
  }

  /** The first item that names an unknown dependency or was started too early. */
  method CheckDependencies(items: seq<PlanItem>) returns (defect: Defect)
    requires NoDup(Ids(items))
    ensures defect.Sound? || defect.UnknownDependency? || defect.BlockedStart?
    ensures defect.Sound? <==> DependenciesKnown(items) && StartedAreReady(items)
    ensures defect.UnknownDependency? ==> !DependenciesKnown(items)
    ensures defect.BlockedStart? ==> !StartedAreReady(items)
  {
    for k := 0 to |items|
      invariant forall i | i in items[..k] :: forall d | d in i.dependencies :: d in Ids(items)
      invariant forall i | i in items[..k] && i.status.InProgress? :: Ready(items, i)
    {
      var item := items[k];
      assert item in items && items[..k + 1] == items[..k] + [item];
      if exists d | d in item.dependencies :: d !in Ids(items) {
        return UnknownDependency;
      }
      if item.status.InProgress? && !Ready(items, item) {
        return BlockedStart;
      }
    }
    assert items[..|items|] == items;
    return Sound;
  }

  method ValidateItems(items: seq<PlanItem>) returns (defect: Defect)
    ensures defect.Sound? <==> WellFormed(items)
    ensures defect.DuplicateIds? <==> !NoDup(Ids(items))
    ensures defect.TwoInProgress? <==> NoDup(Ids(items)) && !AtMostOneInProgress(items)
    ensures defect.UnknownDependency? ==> !DependenciesKnown(items)
    ensures defect.BlockedStart? ==> !StartedAreReady(items)
    ensures defect.CyclicDependencies? <==>
      && NoDup(Ids(items)) && AtMostOneInProgress(items) && DependenciesKnown(items) && StartedAreReady(items)
      && !AcyclicItems(items)
  {
    CardinalityNoDup(Ids(items));
    if |ToSet(Ids(items))| != |items| {
      if NoDup(Ids(items)) {
        NoDupCardinality(Ids(items));
      }
      return DuplicateIds;
    }
    var inProgress := CountInProgress(items);
    if inProgress > 1 {
      return TwoInProgress;
    }
    defect := CheckDependencies(items);
    if !defect.Sound? {
      return;
    }
    DependenciesClosed(items);
    var acyclic := CycleSearch.Acyclic(Ids(items), DependencyMap(items));
    return if acyclic then Sound else CyclicDependencies;
  }

  lemma DependenciesClosed(items: seq<PlanItem>)
    requires NoDup(Ids(items)) && DependenciesKnown(items)
    ensures CycleSearch.Closed(DependencyMap(items))
  {
    SameIdSameItem(items);
    var m := DependencyMap(items);
    forall b | b in m ensures forall a | a in m[b] :: a in m {
      var i :| i in items && i.itemId == b;
    }
  }

  predicate DependsOn(items: seq<PlanItem>, id: string, dependency: string) {
    exists item | item in items :: item.itemId == id && dependency in item.dependencies
  }

  /** Items along a chain, each a dependency of the next. */
  ghost predicate Chain(items: seq<PlanItem>, chain: seq<string>) {
    chain != [] && forall i, j :: 0 <= i < j == i + 1 < |chain| ==> DependsOn(items, chain[j], chain[i])
  }

  ghost predicate NoChainReturns(items: seq<PlanItem>) {
    forall chain :: Chain(items, chain) && |chain| >= 2 ==> chain[0] != chain[|chain| - 1]
  }

  /** A listed item that, where the dependent has been started, is completed. */
  predicate Satisfied(items: seq<PlanItem>, dependency: string, started: bool) {
    exists other | other in items :: other.itemId == dependency && (started ==> other.status == Completed)
  }

  /** What makes a plan sound, item by item. */
  ghost predicate SoundPlan(items: seq<PlanItem>) {
    && (forall i, j :: 0 <= i < j < |items| ==> items[i].itemId != items[j].itemId)
    && (forall i, j :: 0 <= i < j < |items| ==> items[i].status != InProgress || items[j].status != InProgress)
    && (forall item, d :: item in items && d in item.dependencies ==> Satisfied(items, d, item.status == InProgress))
    && NoChainReturns(items)
  }

  lemma ChainIsWalk(items: seq<PlanItem>, chain: seq<string>)
    requires NoDup(Ids(items))
    ensures Chain(items, chain) <==> IsWalk(CycleSearch.Arcs(DependencyMap(items)), chain)
  {
    forall a, b ensures (a, b) in CycleSearch.Arcs(DependencyMap(items)) <==> DependsOn(items, b, a) {
      ArcIsDependency(items, a, b);
    }
    hide CycleSearch.Arcs, DependencyMap, NoDup, DependsOn;
  }

  lemma ArcIsDependency(items: seq<PlanItem>, a: string, b: string)
    requires NoDup(Ids(items))
    ensures (a, b) in CycleSearch.Arcs(DependencyMap(items)) <==> DependsOn(items, b, a)
  {
    SameIdSameItem(items);
    if b in DependencyMap(items) {
      var item :| item in items && item.itemId == b;
      assert DependencyMap(items)[b] == item.dependencies;
    }
  }

  lemma AcyclicIs(items: seq<PlanItem>)
    requires NoDup(Ids(items))
    ensures AcyclicItems(items) <==> NoChainReturns(items)
  {
    hide Chain, IsWalk, CycleSearch.Arcs, DependencyMap;
    var arcs := CycleSearch.Arcs(DependencyMap(items));
    if Cyclic(arcs) {
      var v :| Reaches(arcs, v, v);
      var p :| IsWalk(arcs, p) && |p| >= 2 && p[0] == v && p[|p| - 1] == v;
      ChainIsWalk(items, p);
    }
    if chain :| Chain(items, chain) && |chain| >= 2 && chain[0] == chain[|chain| - 1] {
      ChainIsWalk(items, chain);
      assert Reaches(arcs, chain[0], chain[0]);
    }
  }

  lemma DependenciesAre(items: seq<PlanItem>)
    requires NoDup(Ids(items))
    ensures DependenciesKnown(items) && StartedAreReady(items) <==>
      forall item, d :: item in items && d in item.dependencies ==> Satisfied(items, d, item.status == InProgress)
  {
    SameIdSameItem(items);
    forall d ensures Satisfied(items, d, false) <==> d in Ids(items)
      ensures Satisfied(items, d, true) <==> CompletedIn(items, d)
      ensures Satisfied(items, d, true) ==> Satisfied(items, d, false)
    {
    }
    hide Satisfied, CompletedIn, Ids, NoDup;
  }

  /** The structural rules of a ledger's items, read off the items. */
  lemma SoundPlanIff(items: seq<PlanItem>)
    ensures WellFormed(items) <==> SoundPlan(items)
  {
    assert NoDup(Ids(items)) <==> forall i, j :: 0 <= i < j < |items| ==> items[i].itemId != items[j].itemId;
    hide AcyclicItems, Ids, NoDup, DependenciesKnown, StartedAreReady, Satisfied, NoChainReturns;
    if NoDup(Ids(items)) {
      DependenciesAre(items);
      AcyclicIs(items);
    }
  }

  // ---------- Ledgers ----------

  predicate ValidHeader(l: PlanLedger) {
    && IsText(l.ledgerId, IDENTIFIER_CHARS) && IsText(l.sessionId, IDENTIFIER_CHARS)
    && IsText(l.goalId, IDENTIFIER_CHARS) && IsText(l.createdTurnId, IDENTIFIER_CHARS)
    && IsText(l.updatedTurnId, IDENTIFIER_CHARS) && IsText(l.objective, 1000)
    && l.revision >= 0 && AreTexts(l.reasonCodes, 0, MAX_ENTRIES, IDENTIFIER_CHARS)
  }

  ghost predicate ValidLedger(l: PlanLedger) {
    && ValidHeader(l) && DurablyAdvanced(l)
    && 1 <= |l.items| <= MAX_ITEMS && ValidItems(l.items) && WellFormed(l.items)
  }

  predicate ValidItems(items: seq<PlanItem>) {
    forall i | i in items :: ValidItem(i)
  }

  /** A ledger may be terminal only after it has been saved or moved to another turn. */
  predicate DurablyAdvanced(l: PlanLedger) {
    l.status.Terminal() && l.updatedTurnId == l.createdTurnId ==> l.revision != 0
  }

  /** The constructor's field cleaning. */
  function CleanLedger(raw: PlanLedger): (r: Result<PlanLedger, PlanError>)
    ensures r.Ok? ==> ValidHeader(r.value) && r.value.items == raw.items
    ensures ValidHeader(raw) ==> r == Ok(raw)
  {
    var ledgerId :- InField(CleanText(raw.ledgerId, IDENTIFIER_CHARS));
    var sessionId :- InField(CleanText(raw.sessionId, IDENTIFIER_CHARS));
    var goalId :- InField(CleanText(raw.goalId, IDENTIFIER_CHARS));
    var created :- InField(CleanText(raw.createdTurnId, IDENTIFIER_CHARS));
    var updated :- InField(CleanText(raw.updatedTurnId, IDENTIFIER_CHARS));
    if raw.revision < 0 then Err(NegativeRevision)
    else
      var objective :- InField(CleanText(raw.objective, 1000));
      var reasons :- InField(CleanTexts(raw.reasonCodes, 0, MAX_ENTRIES, IDENTIFIER_CHARS));
      Ok(PlanLedger(ledgerId, sessionId, goalId, raw.revision, raw.status, objective, reasons, raw.items, created,
                    updated))
  }

  /** Construction succeeds exactly on the ledgers whose cleaned form is valid. */
  method MakeLedger(raw: PlanLedger) returns (r: Result<PlanLedger, PlanError>)
    requires ValidItems(raw.items)
    ensures r.Ok? <==> CleanLedger(raw).Ok? && ValidLedger(CleanLedger(raw).value)
    ensures r.Ok? ==> r == CleanLedger(raw)
    ensures ValidLedger(raw) ==> r == Ok(raw)
  {
    hide CleanLedger, ValidHeader, WellFormed;
    var ledger :- CleanLedger(raw);
    if ledger.items == [] {
      return Err(NoItems);
    }
    if |ledger.items| > MAX_ITEMS {
      return Err(TooManyItems);
    }
    var defect := ValidateItems(ledger.items);
    if !defect.Sound? {
      return Err(BadItems(defect));
    }
    if ledger.status.Terminal() && ledger.updatedTurnId == ledger.createdTurnId && ledger.revision == 0 {
      return Err(NeverAdvanced);
    }
    return Ok(ledger);
  }

  /** Exactly which fields make a ledger, and that it then carries them cleaned. */
  lemma LedgerConstructedIff(raw: PlanLedger)
    requires ValidItems(raw.items)
    ensures var r := CleanLedger(raw);
      var created, updated := CleanText(raw.createdTurnId, 128), CleanText(raw.updatedTurnId, 128);
      && (r.Ok? && ValidLedger(r.value) <==>
            && CleanText(raw.ledgerId, 128).Ok? && CleanText(raw.sessionId, 128).Ok? && CleanText(raw.goalId, 128).Ok?
            && created.Ok? && updated.Ok? && CleanText(raw.objective, 1000).Ok?
            && CleanTexts(raw.reasonCodes, 0, 8, 128).Ok? && raw.revision >= 0
            && 1 <= |raw.items| <= 12 && SoundPlan(raw.items)
            && (raw.status == LedgerCompleted || raw.status == LedgerCancelled ==>
                  raw.revision > 0 || created.value != updated.value))
      && (r.Ok? ==>
            && Ok(r.value.ledgerId) == CleanText(raw.ledgerId, 128) && Ok(r.value.goalId) == CleanText(raw.goalId, 128)
            && Ok(r.value.sessionId) == CleanText(raw.sessionId, 128)
            && Ok(r.value.createdTurnId) == created && Ok(r.value.updatedTurnId) == updated
            && Ok(r.value.objective) == CleanText(raw.objective, 1000)
            && Ok(r.value.reasonCodes) == CleanTexts(raw.reasonCodes, 0, 8, 128)
            && r.value == r.value.(revision := raw.revision, status := raw.status, items := raw.items))
  {
    SoundPlanIff(raw.items);
    hide CleanText, CleanTexts, WellFormed, SoundPlan, ValidItems, ValidHeader;
  }

  /** A small valid ledger: one pending item without dependencies. */
  function LoneLedger(revision: int): PlanLedger {
    PlanLedger("l", "s", "g", revision, LedgerActive, "o", [],
               [PlanItem("i", "t", Pending, [], ["c"], ["u"], [], None, 0)], "u", "u")
  }

  lemma OneLetterText(w: string, maxChars: nat)
    requires IsWord(w) && |w| == 1 <= maxChars
    ensures IsText(w, maxChars) && AreTexts([w], 0, MAX_ENTRIES, maxChars) && AreTexts([w], 1, MAX_ENTRIES, maxChars)
  {
    WordIsClean(w);
  }

  lemma LoneHeader(revision: nat)
    ensures ValidHeader(LoneLedger(revision))
  {
    OneLetterText("l", IDENTIFIER_CHARS);
    OneLetterText("s", IDENTIFIER_CHARS);
    OneLetterText("g", IDENTIFIER_CHARS);
    OneLetterText("u", IDENTIFIER_CHARS);
    OneLetterText("o", 1000);
    NoTexts(IDENTIFIER_CHARS);
    hide IsText, AreTexts;
  }

  lemma LoneItem()
    ensures ValidItem(LoneLedger(0).items[0])
  {
    OneLetterText("i", IDENTIFIER_CHARS);
    OneLetterText("u", IDENTIFIER_CHARS);
    OneLetterText("t", 200);
    OneLetterText("c", 240);
    NoTexts(IDENTIFIER_CHARS);
    hide IsText, AreTexts;
  }

  lemma LoneLedgerIsValid(revision: nat)
    ensures ValidLedger(LoneLedger(revision))
  {
    LoneHeader(revision);
    LoneItem();
    hide ValidHeader, ValidItem, AcyclicItems;
    var items := LoneLedger(revision).items;
    assert |Ids(items)| == 1;
    NoDependenciesIsAcyclic(items);
  }

  lemma NoTexts(maxChars: nat)
    ensures AreTexts([], 0, MAX_ENTRIES, maxChars)
  {
  }

  lemma NoDependenciesIsAcyclic(items: seq<PlanItem>)
    requires NoDup(Ids(items)) && forall i | i in items :: i.dependencies == []
    ensures AcyclicItems(items)
  {
    SameIdSameItem(items);
    OrderedIsAcyclic(CycleSearch.Arcs(DependencyMap(items)), []);
  }

  // ---------- Changing one item ----------

  datatype Change = Change(itemId: string, status: ItemStatus, turnId: string, evidence: seq<string>,
                           blocker: Option<string>)

  function RecognizedSubset(recognized: set<string>, evidence: seq<string>): Result<seq<string>, PlanError> {
    var cleaned :- InField(CleanEach(evidence, IDENTIFIER_CHARS));
    if forall e | e in cleaned :: e in recognized then Ok(cleaned) else Err(UnrecognizedEvidence)
  }

  /** The explicit checks on an item that is not terminal. */
  function ExplicitCheck(items: seq<PlanItem>, item: PlanItem, status: ItemStatus, evidence: seq<string>,
                         blocker: Option<string>): Option<PlanError>
  {
    if status.InProgress? && !Ready(items, item) then Some(DependenciesIncomplete)
    else if status.InProgress?
            && exists other | other in items :: other.status.InProgress? && other.itemId != item.itemId
      then Some(AnotherInProgress)
    else if status.Completed? && evidence == [] then Some(EvidenceMissing)
    else if status.Blocked? && blocker.None? then Some(BlockerMissing)
    else if !status.Blocked? && blocker.Some? then Some(StrayBlocker)
    else None
  }

  function Rebuilt(item: PlanItem, status: ItemStatus, evidence: seq<string>, blocker: Option<string>): PlanItem {
    item.(status := status, evidenceRefs := if status.Completed? then evidence else [],
      blockerReason := if status.Blocked? then blocker else None,
      attempts := if status.InProgress? && !item.status.InProgress? then item.attempts + 1 else item.attempts)
  }

  function ChangeItem(items: seq<PlanItem>, item: PlanItem, status: ItemStatus, evidence: seq<string>,
                      blocker: Option<string>): Result<PlanItem, PlanError>
  {
    if item.status.Terminal() then
      if item.status == status && item.evidenceRefs == (if status.Completed? then evidence else [])
         && item.blockerReason == (if status.Blocked? then blocker else None)
      then Ok(item) else Err(TerminalItem)
    else
      var failed := ExplicitCheck(items, item, status, evidence, blocker);
      if failed.Some? then Err(failed.value) else MakeItem(Rebuilt(item, status, evidence, blocker))
  }

  /** What a status change makes of the items: the changed one in place, every other as it was. */
  function ChangedItems(all: seq<PlanItem>, items: seq<PlanItem>, id: string, status: ItemStatus,
                        evidence: seq<string>, blocker: Option<string>): (r: Result<seq<PlanItem>, PlanError>)
    ensures r.Ok? ==> |r.value| == |items| && forall k :: 0 <= k < |items| ==>
      if items[k].itemId == id then ChangeItem(all, items[k], status, evidence, blocker) == Ok(r.value[k])
      else r.value[k] == items[k]
  {
    if items == [] then Ok([])
    else
      var last := items[|items| - 1];
      var before :- ChangedItems(all, items[..|items| - 1], id, status, evidence, blocker);
      var changed :- if last.itemId == id then ChangeItem(all, last, status, evidence, blocker) else Ok(last);
      Ok(before + [changed])
  }

  function StatusChange(ledger: PlanLedger, recognized: set<string>, change: Change): Result<PlanLedger, PlanError> {
    if ledger.status.Terminal() then Err(TerminalLedger)
    else
      var id :- InField(CleanText(change.itemId, IDENTIFIER_CHARS));
      var turn :- InField(CleanText(change.turnId, IDENTIFIER_CHARS));
      var blocker :- InField(CleanOptional(change.blocker, 400));
      var evidence :- RecognizedSubset(recognized, change.evidence);
      var items :- ChangedItems(ledger.items, ledger.items, id, change.status, evidence, blocker);
      if id !in Ids(ledger.items) then Err(UnknownItem)
      else Ok(ledger.(items := items, updatedTurnId := turn))
  }

  lemma {:induction false} FailureStays(all: seq<PlanItem>, items: seq<PlanItem>, k: nat, id: string,
                                        status: ItemStatus, evidence: seq<string>, blocker: Option<string>)
    requires k <= |items| && ChangedItems(all, items[..k], id, status, evidence, blocker).Err?
    ensures ChangedItems(all, items, id, status, evidence, blocker)
      == ChangedItems(all, items[..k], id, status, evidence, blocker)
  {
    if k == |items| {
      assert items[..k] == items;
    } else {
      var front := items[..|items| - 1];
      assert front[..k] == items[..k];
      FailureStays(all, front, k, id, status, evidence, blocker);
    }
  }

  lemma ChangedStep(all: seq<PlanItem>, k: nat, id: string, status: ItemStatus, evidence: seq<string>,
                    blocker: Option<string>, done: seq<PlanItem>)
    requires k < |all| && ChangedItems(all, all[..k], id, status, evidence, blocker) == Ok(done)
    ensures
      var changed := if all[k].itemId == id then ChangeItem(all, all[k], status, evidence, blocker) else Ok(all[k]);
      ChangedItems(all, all[..k + 1], id, status, evidence, blocker)
        == if changed.Ok? then Ok(done + [changed.value]) else Err(changed.error)
  {
    hide ChangeItem;
    assert all[..k + 1][..k] == all[..k];
  }

  lemma NothingChanged(all: seq<PlanItem>, id: string, status: ItemStatus, evidence: seq<string>,
                       blocker: Option<string>)
    ensures ChangedItems(all, [], id, status, evidence, blocker) == Ok([])
  {
  }

  /** Walk the items, rebuilding the one with the wanted identifier. */
  method RebuildItems(all: seq<PlanItem>, id: string, status: ItemStatus, evidence: seq<string>,
                      blocker: Option<string>)
    returns (items: Result<seq<PlanItem>, PlanError>, found: bool)
    ensures items == ChangedItems(all, all, id, status, evidence, blocker)
    ensures items.Ok? ==> (found <==> id in Ids(all))
  {
    hide ChangeItem, ChangedItems;
    var done := [];
    found := false;
    assert all[..0] == [];
    NothingChanged(all, id, status, evidence, blocker);
    for k := 0 to |all|
      invariant ChangedItems(all, all[..k], id, status, evidence, blocker) == Ok(done)
      invariant found <==> id in Ids(all)[..k]
    {
      var item := all[k];
      ChangedStep(all, k, id, status, evidence, blocker, done);
      assert Ids(all)[..k + 1] == Ids(all)[..k] + [item.itemId];
      if item.itemId != id {
        done := done + [item];
      } else {
        found := true;
        var changed := ChangeItem(all, item, status, evidence, blocker);
        if changed.Err? {
          FailureStays(all, all, k + 1, id, status, evidence, blocker);
          return Err(changed.error), found;
        }
        done := done + [changed.value];
      }
    }
    assert all[..|all|] == all && Ids(all)[..|all|] == Ids(all);
    items := Ok(done);
  }

  /** Change one item, rebuild the ledger and revalidate it; the revalidation never fails. */
  method SetItemStatus(ledger: PlanLedger, recognized: set<string>, change: Change)
    returns (r: Result<PlanLedger, PlanError>)
    requires ValidLedger(ledger)
    ensures r == StatusChange(ledger, recognized, change)
  {
    hide ValidLedger, CleanText, CleanOptional, RecognizedSubset, ChangedItems;
    if ledger.status.Terminal() {
      return Err(TerminalLedger);
    }
    var id :- InField(CleanText(change.itemId, IDENTIFIER_CHARS));
    var turn :- InField(CleanText(change.turnId, IDENTIFIER_CHARS));
    var blocker :- InField(CleanOptional(change.blocker, 400));
    var evidence :- RecognizedSubset(recognized, change.evidence);
    var rebuilt, found := RebuildItems(ledger.items, id, change.status, evidence, blocker);
    var items :- rebuilt;
    if !found {
      return Err(UnknownItem);
    }
    ChangeRevalidates(ledger, recognized, change);
    var next := ledger.(items := items, updatedTurnId := turn);
    ValidLedgerItems(next);
    r := MakeLedger(next);
  }

  lemma ValidLedgerItems(l: PlanLedger)
    requires ValidLedger(l)
    ensures ValidItems(l.items)
  {
  }

  // ---------- Why the explicit checks are enough ----------

  /** The item an accepted change puts in its place. */
  ghost predicate Replaces(items: seq<PlanItem>, old_: PlanItem, new_: PlanItem) {
    && ValidItem(new_) && new_.itemId == old_.itemId && new_.dependencies == old_.dependencies
    && (old_.status.Terminal() ==> new_ == old_)
    && (new_.status.InProgress? ==>
          && Ready(items, old_)
          && forall other | other in items && other.status.InProgress? :: other.itemId == old_.itemId)
  }

  lemma AcceptedChangeReplaces(items: seq<PlanItem>, item: PlanItem, status: ItemStatus, evidence: seq<string>,
                               blocker: Option<string>)
    requires item in items && ValidItem(item)
    requires ChangeItem(items, item, status, evidence, blocker).Ok?
    ensures Replaces(items, item, ChangeItem(items, item, status, evidence, blocker).value)
  {
    if !item.status.Terminal() {
      MakeItemKeeps(Rebuilt(item, status, evidence, blocker));
    }
    hide MakeItem, Ready, ValidItem;
  }

  lemma MakeItemKeeps(raw: PlanItem)
    requires MakeItem(raw).Ok? && IsText(raw.itemId, IDENTIFIER_CHARS)
    requires AreTexts(raw.dependencies, 0, MAX_ENTRIES, IDENTIFIER_CHARS)
    ensures var i := MakeItem(raw).value;
      ValidItem(i) && i.itemId == raw.itemId && i.dependencies == raw.dependencies && i.status == raw.status
  {
    hide CleanText, CleanTexts, AreTexts, ValidItem, CleanOptional;
  }

  lemma SameShape(items: seq<PlanItem>, k: nat, new_: PlanItem)
    requires k < |items| && new_.itemId == items[k].itemId && new_.dependencies == items[k].dependencies
    ensures Ids(items[k := new_]) == Ids(items)
  {
  }

  lemma SameDependencies(items: seq<PlanItem>, k: nat, new_: PlanItem)
    requires k < |items| && new_.itemId == items[k].itemId && new_.dependencies == items[k].dependencies
    requires NoDup(Ids(items)) && NoDup(Ids(items[k := new_]))
    ensures AcyclicItems(items[k := new_]) <==> AcyclicItems(items)
  {
    hide Cyclic, CycleSearch.Arcs, DependencyMap, Ids, NoDup;
    SameShape(items, k, new_);
    forall id | id in DependencyMap(items)
      ensures DependencyMap(items[k := new_])[id] == DependencyMap(items)[id]
    {
      SameEntry(items, k, new_, id);
    }
    assert DependencyMap(items[k := new_]) == DependencyMap(items);
  }

  lemma SameEntry(items: seq<PlanItem>, k: nat, new_: PlanItem, id: string)
    requires k < |items| && new_.itemId == items[k].itemId && new_.dependencies == items[k].dependencies
    requires NoDup(Ids(items)) && NoDup(Ids(items[k := new_])) && id in Ids(items)
    ensures id in Ids(items[k := new_])
    ensures DependencyMap(items[k := new_])[id] == DependencyMap(items)[id]
  {
    SameShape(items, k, new_);
    hide DependencyMap;
    var next := items[k := new_];
    var j :| 0 <= j < |items| && Ids(items)[j] == id;
    assert items[j] in items && next[j] in next;
    assert DependencyMap(items)[items[j].itemId] == items[j].dependencies;
    assert DependencyMap(next)[next[j].itemId] == next[j].dependencies;
  }

  lemma CompletionStays(items: seq<PlanItem>, k: nat, new_: PlanItem, id: string)
    requires k < |items| && Replaces(items, items[k], new_) && CompletedIn(items, id)
    ensures CompletedIn(items[k := new_], id)
  {
    var i :| i in items && i.itemId == id && i.status.Completed?;
    var j :| 0 <= j < |items| && items[j] == i;
    assert items[k := new_][j] == i;
  }

  lemma StartedStayReady(items: seq<PlanItem>, k: nat, new_: PlanItem)
    requires k < |items| && StartedAreReady(items) && Replaces(items, items[k], new_)
    ensures StartedAreReady(items[k := new_])
  {
    var next := items[k := new_];
    forall i | i in next && i.status.InProgress? ensures Ready(next, i) {
      var j :| 0 <= j < |next| && next[j] == i;
      var before := items[j];
      assert before in items && before.dependencies == i.dependencies;
      assert Ready(items, before);
      forall d | d in i.dependencies ensures CompletedIn(next, d) {
        CompletionStays(items, k, new_, d);
      }
    }
  }

  lemma StillAtMostOne(items: seq<PlanItem>, k: nat, new_: PlanItem)
    requires k < |items| && NoDup(Ids(items)) && AtMostOneInProgress(items) && Replaces(items, items[k], new_)
    ensures AtMostOneInProgress(items[k := new_])
  {
    var next := items[k := new_];
    forall j | 0 <= j < |items| && j != k && items[j].status.InProgress? ensures !new_.status.InProgress? {
      assert items[j] in items;
      assert Ids(items)[j] != Ids(items)[k];
    }
  }

  lemma StillValid(items: seq<PlanItem>, k: nat, new_: PlanItem)
    requires k < |items| && ValidItems(items) && ValidItem(new_)
    ensures ValidItems(items[k := new_])
  {
    hide ValidItem;
    forall i | i in items[k := new_] ensures ValidItem(i) {
      assert i == new_ || i in items;
    }
  }

  lemma StillKnown(items: seq<PlanItem>, k: nat, new_: PlanItem)
    requires k < |items| && DependenciesKnown(items)
    requires new_.itemId == items[k].itemId && new_.dependencies == items[k].dependencies
    ensures DependenciesKnown(items[k := new_])
  {
    SameShape(items, k, new_);
    hide Ids;
    var next := items[k := new_];
    forall i | i in next ensures forall d | d in i.dependencies :: d in Ids(next) {
      var j :| 0 <= j < |next| && next[j] == i;
      assert items[j] in items && items[j].dependencies == i.dependencies;
    }
  }

  /** Replacing one item under the explicit checks keeps every structural rule of the ledger. */
  lemma ReplacementRevalidates(items: seq<PlanItem>, k: nat, new_: PlanItem)
    requires ValidItems(items) && WellFormed(items) && k < |items| && Replaces(items, items[k], new_)
    ensures ValidItems(items[k := new_]) && WellFormed(items[k := new_])
  {
    hide AcyclicItems, Ids, ValidItem, ValidItems, AtMostOneInProgress, StartedAreReady, DependenciesKnown, NoDup,
      Ready;
    SameShape(items, k, new_);
    SameDependencies(items, k, new_);
    StillAtMostOne(items, k, new_);
    StartedStayReady(items, k, new_);
    StillKnown(items, k, new_);
    StillValid(items, k, new_);
  }

  lemma ChangedAt(items: seq<PlanItem>, id: string, status: ItemStatus, evidence: seq<string>, blocker: Option<string>)
    returns (k: nat)
    requires ValidItems(items) && NoDup(Ids(items)) && id in Ids(items)
    requires ChangedItems(items, items, id, status, evidence, blocker).Ok?
    ensures k < |items| && items[k].itemId == id
    ensures var r := ChangeItem(items, items[k], status, evidence, blocker);
      && r.Ok? && Replaces(items, items[k], r.value)
      && ChangedItems(items, items, id, status, evidence, blocker) == Ok(items[k := r.value])
  {
    var next := ChangedItems(items, items, id, status, evidence, blocker).value;
    k :| 0 <= k < |items| && Ids(items)[k] == id;
    AcceptedChangeReplaces(items, items[k], status, evidence, blocker);
    hide ChangeItem, Replaces, ChangedItems;
    var changed := ChangeItem(items, items[k], status, evidence, blocker).value;
    forall j | 0 <= j < |items| ensures next[j] == items[k := changed][j] {
      assert j != k ==> Ids(items)[j] != id;
    }
    assert next == items[k := changed];
  }

  /** An accepted status change leaves a valid ledger: the rebuilt one needs no rule the checks did not enforce. */
  lemma ChangeRevalidates(ledger: PlanLedger, recognized: set<string>, change: Change)
    requires ValidLedger(ledger) && StatusChange(ledger, recognized, change).Ok?
    ensures ValidLedger(StatusChange(ledger, recognized, change).value)
    ensures Replaced(ledger.items, StatusChange(ledger, recognized, change).value.items)
  {
    var id := CleanText(change.itemId, IDENTIFIER_CHARS).value;
    var blocker := CleanOptional(change.blocker, 400).value;
    var evidence := RecognizedSubset(recognized, change.evidence).value;
    var next := StatusChange(ledger, recognized, change).value;
    var k := ChangedAt(ledger.items, id, change.status, evidence, blocker);
    ReplacementRevalidates(ledger.items, k, next.items[k]);
    hide *;
    WithItems(ledger, next.items, next.updatedTurnId);
  }

  lemma WithItems(ledger: PlanLedger, items: seq<PlanItem>, turnId: string)
    requires ValidLedger(ledger) && !ledger.status.Terminal() && |items| == |ledger.items|
    requires ValidItems(items) && WellFormed(items) && IsText(turnId, IDENTIFIER_CHARS)
    ensures ValidLedger(ledger.(items := items, updatedTurnId := turnId))
  {
    hide WellFormed, IsText, AreTexts, ValidItems;
  }

  ghost predicate Replaced(items: seq<PlanItem>, next: seq<PlanItem>) {
    |next| == |items|
    && exists k :: 0 <= k < |items| && next == items[k := next[k]] && Replaces(items, items[k], next[k])
  }

  /** Once the explicit checks pass, the item's own constructor can object only to too much evidence. */
  lemma OnlyExcessEvidenceFailsLate(items: seq<PlanItem>, item: PlanItem, status: ItemStatus, evidence: seq<string>,
                                    blocker: Option<string>)
    requires ValidItem(item) && !item.status.Terminal()
    requires ExplicitCheck(items, item, status, evidence, blocker).None?
    requires NoDup(evidence) && forall e | e in evidence :: IsText(e, IDENTIFIER_CHARS)
    requires blocker.Some? ==> IsText(blocker.value, 400)
    ensures ChangeItem(items, item, status, evidence, blocker).Err? <==> status.Completed? && |evidence| > MAX_ENTRIES
    ensures !(status.Completed? && |evidence| > MAX_ENTRIES) ==>
      ChangeItem(items, item, status, evidence, blocker) == Ok(Rebuilt(item, status, evidence, blocker))
  {
    var rebuilt := Rebuilt(item, status, evidence, blocker);
    if !(status.Completed? && |evidence| > MAX_ENTRIES) {
      assert ValidItem(rebuilt);
    } else {
      CleanEachKeepsClean(evidence, IDENTIFIER_CHARS);
    }
  }

  // ---------- What a status change does, and when ----------

  /** The changed item: the requested status, its own texts, and only the evidence or blocker that status carries. */
  predicate Becomes(item: PlanItem, next: PlanItem, status: ItemStatus, evidence: seq<string>, blocker: Option<string>)
  {
    && next.status == status && next.itemId == item.itemId && next.title == item.title
    && next.dependencies == item.dependencies && next.successCriteria == item.successCriteria
    && next.sourceTurnIds == item.sourceTurnIds
    && next.evidenceRefs == (if status == Completed then evidence else [])
    && next.blockerReason == (if status == Blocked then blocker else None)
    && next.attempts == item.attempts + if status == InProgress && item.status != InProgress then 1 else 0
  }

  /** A finished item only stays as it is; any other takes each status on that status's own condition. */
  predicate MayBecome(items: seq<PlanItem>, item: PlanItem, status: ItemStatus, evidence: seq<string>,
                      blocker: Option<string>)
  {
    if item.status == Completed then status == Completed && evidence == item.evidenceRefs
    else if item.status == Cancelled then status == Cancelled
    else
      && (blocker == None <==> status != Blocked)
      && (status == Completed ==> 1 <= |evidence| <= 8)
      && (status == InProgress ==>
            && (forall d | d in item.dependencies :: exists j | j in items :: j.itemId == d && j.status == Completed)
            && forall other | other in items && other.status == InProgress :: other.itemId == item.itemId)
  }

  lemma ItemChangesIff(items: seq<PlanItem>, item: PlanItem, status: ItemStatus, evidence: seq<string>,
                       blocker: Option<string>)
    requires ValidItem(item) && NoDup(evidence) && forall e | e in evidence :: IsText(e, IDENTIFIER_CHARS)
    requires blocker.Some? ==> IsText(blocker.value, 400)
    ensures var r := ChangeItem(items, item, status, evidence, blocker);
      && (r.Ok? <==> MayBecome(items, item, status, evidence, blocker))
      && (r.Ok? ==> Becomes(item, r.value, status, evidence, blocker))
  {
    hide MakeItem, IsText, AreTexts, ExplicitCheck, Rebuilt, Becomes, MayBecome;
    if item.status.Terminal() {
      FinishedStays(items, item, status, evidence, blocker);
    } else {
      OpenMayBecome(items, item, status, evidence, blocker);
      RebuiltBecomes(item, status, evidence, blocker);
      if ExplicitCheck(items, item, status, evidence, blocker).None? {
        OnlyExcessEvidenceFailsLate(items, item, status, evidence, blocker);
      }
      hide ValidItem;
    }
  }

  lemma FinishedStays(items: seq<PlanItem>, item: PlanItem, status: ItemStatus, evidence: seq<string>,
                      blocker: Option<string>)
    requires ValidItem(item) && item.status.Terminal()
    ensures var r := ChangeItem(items, item, status, evidence, blocker);
      && (r.Ok? <==> MayBecome(items, item, status, evidence, blocker))
      && (r.Ok? ==> Becomes(item, r.value, status, evidence, blocker))
  {
    hide IsText, AreTexts;
  }

  lemma OpenMayBecome(items: seq<PlanItem>, item: PlanItem, status: ItemStatus, evidence: seq<string>,
                      blocker: Option<string>)
    requires !item.status.Terminal()
    ensures MayBecome(items, item, status, evidence, blocker) <==>
      && ExplicitCheck(items, item, status, evidence, blocker).None?
      && !(status.Completed? && |evidence| > MAX_ENTRIES)
  {
  }

  lemma RebuiltBecomes(item: PlanItem, status: ItemStatus, evidence: seq<string>, blocker: Option<string>)
    ensures Becomes(item, Rebuilt(item, status, evidence, blocker), status, evidence, blocker)
  {
  }

  /** Exactly when the host accepts a status change. */
  ghost predicate MayChange(ledger: PlanLedger, recognized: set<string>, change: Change) {
    var id, evidence := CleanText(change.itemId, 128), CleanEach(change.evidence, 128);
    var blocker := CleanOptional(change.blocker, 400);
    && ledger.status != LedgerCompleted && ledger.status != LedgerCancelled
    && id.Ok? && CleanText(change.turnId, 128).Ok? && blocker.Ok?
    && evidence.Ok? && (forall e | e in evidence.value :: e in recognized)
    && exists item | item in ledger.items ::
         item.itemId == id.value && MayBecome(ledger.items, item, change.status, evidence.value, blocker.value)
  }

  /** The next ledger differs in the turn and in one item, which becomes what was asked. */
  ghost predicate Changed(ledger: PlanLedger, change: Change, next: PlanLedger) {
    && next == ledger.(items := next.items, updatedTurnId := next.updatedTurnId)
    && Ok(next.updatedTurnId) == CleanText(change.turnId, 128) && |next.items| == |ledger.items|
    && exists id, evidence, blocker ::
         && CleanText(change.itemId, 128) == Ok(id) && CleanEach(change.evidence, 128) == Ok(evidence)
         && CleanOptional(change.blocker, 400) == Ok(blocker)
         && OneBecomes(ledger.items, next.items, id, change.status, evidence, blocker)
  }

  /** The item of that id becomes what was asked, in its place. */
  ghost predicate OneBecomes(items: seq<PlanItem>, next: seq<PlanItem>, id: string, status: ItemStatus,
                             evidence: seq<string>, blocker: Option<string>)
    requires |next| == |items|
  {
    exists k :: 0 <= k < |items| && items[k].itemId == id && next == items[k := next[k]]
      && Becomes(items[k], next[k], status, evidence, blocker)
  }

  /** When a status change is accepted, for each of the five statuses, and what it then makes of the ledger. */
  lemma StatusChangesIff(ledger: PlanLedger, recognized: set<string>, change: Change)
    requires ValidLedger(ledger)
    ensures var r := StatusChange(ledger, recognized, change);
      && (r.Ok? <==> MayChange(ledger, recognized, change))
      && (r.Ok? ==> Changed(ledger, change, r.value))
  {
    var id, evidence := CleanText(change.itemId, IDENTIFIER_CHARS), RecognizedSubset(recognized, change.evidence);
    var blocker := CleanOptional(change.blocker, 400);
    hide *;
    StatusChangeIs(ledger, recognized, change);
    ItemsAreSound(ledger);
    ReadEvidence(recognized, change.evidence);
    if id.Ok? && evidence.Ok? && blocker.Ok? {
      BlockerIsText(change.blocker);
      ItemsChangeIff(ledger.items, id.value, change.status, evidence.value, blocker.value);
      MayChangeIs(ledger, recognized, change, id.value, evidence.value, blocker.value);
      if StatusChange(ledger, recognized, change).Ok? {
        ChangedIs(ledger, change, StatusChange(ledger, recognized, change).value, id.value, evidence.value,
                  blocker.value);
      }
    } else {
      MayNotChange(ledger, recognized, change);
    }
  }

  lemma StatusChangeIs(ledger: PlanLedger, recognized: set<string>, change: Change)
    ensures
      var id, evidence := CleanText(change.itemId, IDENTIFIER_CHARS), RecognizedSubset(recognized, change.evidence);
      var turn, blocker := CleanText(change.turnId, IDENTIFIER_CHARS), CleanOptional(change.blocker, 400);
      var r := StatusChange(ledger, recognized, change);
      if ledger.status.Terminal() || id.Err? || turn.Err? || blocker.Err? || evidence.Err? then r.Err?
      else
        var items := ChangedItems(ledger.items, ledger.items, id.value, change.status, evidence.value, blocker.value);
        && (r.Ok? <==> items.Ok? && id.value in Ids(ledger.items))
        && (r.Ok? ==> r.value == ledger.(items := items.value, updatedTurnId := turn.value))
  {
    hide CleanText, RecognizedSubset, ChangedItems, CleanOptional, Ids;
  }

  lemma ItemsAreSound(ledger: PlanLedger)
    requires ValidLedger(ledger)
    ensures ValidItems(ledger.items) && NoDup(Ids(ledger.items))
  {
  }

  lemma ReadEvidence(recognized: set<string>, evidence: seq<string>)
    ensures var r, cleaned := RecognizedSubset(recognized, evidence), CleanEach(evidence, IDENTIFIER_CHARS);
      && (r.Ok? <==> cleaned.Ok? && forall e | e in cleaned.value :: e in recognized)
      && (r.Ok? ==>
            r.value == cleaned.value && NoDup(r.value) && forall e | e in r.value :: IsText(e, IDENTIFIER_CHARS))
  {
    hide CleanEach, IsText;
  }

  lemma BlockerIsText(blocker: Option<string>)
    requires CleanOptional(blocker, 400).Ok?
    ensures var b := CleanOptional(blocker, 400).value; b.Some? ==> IsText(b.value, 400)
  {
  }

  lemma MayChangeIs(ledger: PlanLedger, recognized: set<string>, change: Change, id: string, evidence: seq<string>,
                    blocker: Option<string>)
    requires CleanText(change.itemId, IDENTIFIER_CHARS) == Ok(id) && CleanOptional(change.blocker, 400) == Ok(blocker)
    requires CleanEach(change.evidence, IDENTIFIER_CHARS) == Ok(evidence) && forall e | e in evidence :: e in recognized
    ensures MayChange(ledger, recognized, change) <==>
      && !ledger.status.Terminal() && CleanText(change.turnId, IDENTIFIER_CHARS).Ok?
      && exists item | item in ledger.items ::
           item.itemId == id && MayBecome(ledger.items, item, change.status, evidence, blocker)
  {
    hide CleanText, CleanEach, CleanOptional, MayBecome;
  }

  lemma MayNotChange(ledger: PlanLedger, recognized: set<string>, change: Change)
    requires CleanText(change.itemId, IDENTIFIER_CHARS).Err? || CleanOptional(change.blocker, 400).Err?
             || RecognizedSubset(recognized, change.evidence).Err?
    ensures !MayChange(ledger, recognized, change)
  {
    hide CleanText, CleanEach, CleanOptional, MayBecome;
  }

  lemma ChangedIs(ledger: PlanLedger, change: Change, next: PlanLedger, id: string, evidence: seq<string>,
                  blocker: Option<string>)
    requires CleanText(change.itemId, IDENTIFIER_CHARS) == Ok(id) && CleanOptional(change.blocker, 400) == Ok(blocker)
    requires CleanEach(change.evidence, IDENTIFIER_CHARS) == Ok(evidence)
    requires CleanText(change.turnId, IDENTIFIER_CHARS) == Ok(next.updatedTurnId)
    requires next == ledger.(items := next.items, updatedTurnId := next.updatedTurnId)
    requires |next.items| == |ledger.items|
    requires OneBecomes(ledger.items, next.items, id, change.status, evidence, blocker)
    ensures Changed(ledger, change, next)
  {
    hide CleanText, CleanEach, CleanOptional, OneBecomes;
  }

  /** The items accept a change exactly when the one that is named does. */
  lemma ItemsChangeIff(items: seq<PlanItem>, id: string, status: ItemStatus, evidence: seq<string>,
                       blocker: Option<string>)
    requires ValidItems(items) && NoDup(Ids(items)) && NoDup(evidence)
    requires forall e | e in evidence :: IsText(e, IDENTIFIER_CHARS)
    requires blocker.Some? ==> IsText(blocker.value, 400)
    ensures var r := ChangedItems(items, items, id, status, evidence, blocker);
      && (r.Ok? && id in Ids(items) <==>
            exists item | item in items :: item.itemId == id && MayBecome(items, item, status, evidence, blocker))
      && (r.Ok? && id in Ids(items) ==>
            |r.value| == |items| && OneBecomes(items, r.value, id, status, evidence, blocker))
  {
    hide ChangedItems, ChangeItem, Becomes, MayBecome, ValidItem, Replaces;
    SameIdSameItem(items);
    var r := ChangedItems(items, items, id, status, evidence, blocker);
    forall item | item in items
      ensures var c := ChangeItem(items, item, status, evidence, blocker);
        && (c.Ok? <==> MayBecome(items, item, status, evidence, blocker))
        && (c.Ok? ==> Becomes(item, c.value, status, evidence, blocker))
    {
      ItemChangesIff(items, item, status, evidence, blocker);
    }
    if r.Ok? && id in Ids(items) {
      var k := ChangedAt(items, id, status, evidence, blocker);
      assert items[k] in items;
      assert r.value[k] == ChangeItem(items, items[k], status, evidence, blocker).value;
    }
    if item :| item in items && item.itemId == id && MayBecome(items, item, status, evidence, blocker) {
      ChangedItemsAccepts(items, items, id, status, evidence, blocker);
    }
  }

  // ---------- Replacements and runs ----------

  function ReplacementError(previous: Option<PlanLedger>, proposed: PlanLedger, recognized: set<string>)
    : Option<PlanError>
  {
    if exists i | i in proposed.items && i.status.Completed? :: RecognizedSubset(recognized, i.evidenceRefs).Err?
      then Some(UnrecognizedEvidence)
    else if previous.None? then None
    else
      var prior := previous.value;
      if prior.status.Terminal() then Some(TerminalLedger)
      else if prior.ledgerId != proposed.ledgerId || prior.sessionId != proposed.sessionId
              || prior.goalId != proposed.goalId then Some(IdentityChanged)
      else if prior.createdTurnId != proposed.createdTurnId then Some(CreatorChanged)
      else if exists i | i in prior.items && i.status.Terminal() :: i !in proposed.items then Some(TerminalItem)
      else None
  }

  /** When a proposed ledger may take the place of the previous one. */
  lemma MayReplaceIff(previous: Option<PlanLedger>, proposed: PlanLedger, recognized: set<string>)
    ensures ReplacementError(previous, proposed, recognized) == None <==>
      && (forall i | i in proposed.items && i.status == Completed ::
            && CleanEach(i.evidenceRefs, 128).Ok?
            && forall e | e in CleanEach(i.evidenceRefs, 128).value :: e in recognized)
      && (previous.Some? ==>
            var prior := previous.value;
            && prior.status != LedgerCompleted && prior.status != LedgerCancelled
            && prior.ledgerId == proposed.ledgerId && prior.sessionId == proposed.sessionId
            && prior.goalId == proposed.goalId && prior.createdTurnId == proposed.createdTurnId
            && forall i | i in prior.items && (i.status == Completed || i.status == Cancelled) :: i in proposed.items)
  {
    hide CleanEach;
  }

  ghost predicate ChangesStatus(a: PlanLedger, b: PlanLedger) {
    exists recognized, change :: StatusChange(a, recognized, change) == Ok(b)
  }

  ghost predicate MayReplace(a: PlanLedger, b: PlanLedger) {
    exists recognized :: ReplacementError(Some(a), b, recognized) == None
  }

  /** One host operation on a ledger: a status change, a validated replacement, or saving it under a revision. */
  ghost predicate Step(a: PlanLedger, b: PlanLedger) {
    || ChangesStatus(a, b)
    || (ValidLedger(b) && MayReplace(a, b))
    || (ValidLedger(b) && b == a.(revision := b.revision))
  }

  ghost predicate IsRun(run: seq<PlanLedger>) {
    run != [] && forall i, j :: 0 <= i < j == i + 1 < |run| ==> Step(run[i], run[j])
  }

  /** What the host never takes back. */
  ghost predicate Settled(a: PlanLedger, b: PlanLedger) {
    && b.ledgerId == a.ledgerId && b.sessionId == a.sessionId && b.goalId == a.goalId
    && b.createdTurnId == a.createdTurnId
    && (forall i | i in a.items && i.status.Terminal() :: i in b.items)
    && (a.status.Terminal() ==> b == a.(revision := b.revision))
  }

  lemma StepSettles(a: PlanLedger, b: PlanLedger)
    requires ValidLedger(a) && Step(a, b)
    ensures ValidLedger(b) && Settled(a, b)
  {
    hide ValidLedger, Settled;
    if ChangesStatus(a, b) {
      ChangeSettles(a, b);
    } else if MayReplace(a, b) {
      ReplacementSettles(a, b);
    } else {
      RevisionSettles(a, b.revision);
    }
  }

  lemma ChangeSettles(a: PlanLedger, b: PlanLedger)
    requires ValidLedger(a) && ChangesStatus(a, b)
    ensures ValidLedger(b) && Settled(a, b)
  {
    hide ValidLedger, Replaced, StatusChange;
    var recognized, change :| StatusChange(a, recognized, change) == Ok(b);
    ChangeRevalidates(a, recognized, change);
    ChangeKeepsIdentity(a, recognized, change);
    ReplacedSettles(a.items, b.items);
  }

  lemma ChangeKeepsIdentity(a: PlanLedger, recognized: set<string>, change: Change)
    requires StatusChange(a, recognized, change).Ok?
    ensures !a.status.Terminal()
    ensures var b := StatusChange(a, recognized, change).value;
      b == a.(items := b.items, updatedTurnId := b.updatedTurnId)
  {
    hide ChangedItems, RecognizedSubset, CleanText, CleanOptional;
  }

  lemma ReplacementSettles(a: PlanLedger, b: PlanLedger)
    requires MayReplace(a, b)
    ensures Settled(a, b)
  {
    var recognized :| ReplacementError(Some(a), b, recognized) == None;
    hide RecognizedSubset;
  }

  lemma RevisionSettles(a: PlanLedger, revision: int)
    ensures Settled(a, a.(revision := revision))
  {
  }

  lemma SettledTransitive(a: PlanLedger, b: PlanLedger, c: PlanLedger)
    requires Settled(a, b) && Settled(b, c)
    ensures Settled(a, c)
  {
  }

  lemma SettledReflexive(a: PlanLedger)
    ensures Settled(a, a)
  {
  }

  lemma ReplacedSettles(items: seq<PlanItem>, next: seq<PlanItem>)
    requires Replaced(items, next)
    ensures forall i | i in items && i.status.Terminal() :: i in next
  {
    var k :| 0 <= k < |items| && next == items[k := next[k]] && Replaces(items, items[k], next[k]);
    forall i | i in items && i.status.Terminal() ensures i in next {
      var j :| 0 <= j < |items| && items[j] == i;
      assert next[j] == i;
    }
  }

  lemma RunFront(run: seq<PlanLedger>)
    requires IsRun(run) && |run| > 1
    ensures IsRun(run[..|run| - 1]) && Step(run[|run| - 2], run[|run| - 1])
  {
    hide Step;
  }

  /** Over any run every ledger is valid, and completed and cancelled items stay exactly as they are. */
  lemma {:induction false} RunsSettle(run: seq<PlanLedger>)
    requires IsRun(run) && ValidLedger(run[0])
    ensures ValidLedger(run[|run| - 1]) && Settled(run[0], run[|run| - 1])
  {
    hide Step, ValidLedger, Settled;
    if |run| == 1 {
      SettledReflexive(run[0]);
    } else {
      var front, next, last := run[..|run| - 1], run[|run| - 2], run[|run| - 1];
      RunFront(run);
      hide IsRun;
      RunsSettle(front);
      StepSettles(next, last);
      SettledTransitive(run[0], next, last);
    }
  }

  // ---------- Completion needs recognised evidence ----------

  predicate Recognized(recognized: set<string>, i: PlanItem) {
    forall e | e in i.evidenceRefs :: e in recognized
  }

  /** The same host steps, when one set of evidence is recognised throughout. */
  ghost predicate StepUnder(recognized: set<string>, a: PlanLedger, b: PlanLedger) {
    || (exists change :: StatusChange(a, recognized, change) == Ok(b))
    || (ValidLedger(b) && ReplacementError(Some(a), b, recognized) == None)
    || (ValidLedger(b) && b == a.(revision := b.revision))
  }

  /** Whatever is completed was completed before, or stands on recognised evidence only. */
  ghost predicate Evidenced(recognized: set<string>, a: PlanLedger, b: PlanLedger) {
    forall i | i in b.items && i.status.Completed? :: i in a.items || Recognized(recognized, i)
  }

  lemma RecognizedSubsetIsClean(recognized: set<string>, evidence: seq<string>)
    requires RecognizedSubset(recognized, evidence).Ok?
    ensures var r := RecognizedSubset(recognized, evidence).value;
      NoDup(r) && (forall e | e in r :: IsText(e, IDENTIFIER_CHARS)) && forall e | e in r :: e in recognized
  {
  }

  lemma ChangedItemIsRecognized(items: seq<PlanItem>, item: PlanItem, status: ItemStatus, evidence: seq<string>,
                                blocker: Option<string>, recognized: set<string>)
    requires ValidItem(item) && ChangeItem(items, item, status, evidence, blocker).Ok?
    requires NoDup(evidence) && (forall e | e in evidence :: IsText(e, IDENTIFIER_CHARS) && e in recognized)
    requires blocker.Some? ==> IsText(blocker.value, 400)
    ensures var changed := ChangeItem(items, item, status, evidence, blocker).value;
      changed.status.Completed? ==> changed == item || Recognized(recognized, changed)
  {
    hide ChangeItem, MayBecome, ValidItem, IsText;
    ItemChangesIff(items, item, status, evidence, blocker);
  }

  lemma ChangeIsEvidenced(a: PlanLedger, recognized: set<string>, change: Change)
    requires ValidLedger(a) && StatusChange(a, recognized, change).Ok?
    ensures Evidenced(recognized, a, StatusChange(a, recognized, change).value)
  {
    hide AcyclicItems, IsText, AreTexts;
    var id := CleanText(change.itemId, IDENTIFIER_CHARS).value;
    var blocker := CleanOptional(change.blocker, 400).value;
    var evidence := RecognizedSubset(recognized, change.evidence).value;
    var k := ChangedAt(a.items, id, change.status, evidence, blocker);
    assert a.items[k] in a.items && ValidItem(a.items[k]);
    hide ChangeItem, ChangedItems, Replaces, ValidItem;
    RecognizedSubsetIsClean(recognized, change.evidence);
    BlockerIsText(change.blocker);
    ChangedItemIsRecognized(a.items, a.items[k], change.status, evidence, blocker, recognized);
  }

  lemma ReplacementIsEvidenced(a: PlanLedger, recognized: set<string>, b: PlanLedger)
    requires ValidLedger(b) && ReplacementError(Some(a), b, recognized) == None
    ensures Evidenced(recognized, a, b)
  {
    hide WellFormed, IsText;
    forall i | i in b.items && i.status.Completed? ensures Recognized(recognized, i) {
      assert RecognizedSubset(recognized, i.evidenceRefs).Ok? && ValidItem(i);
      CleanEachKeepsClean(i.evidenceRefs, IDENTIFIER_CHARS);
      RecognizedSubsetIsClean(recognized, i.evidenceRefs);
    }
  }

  lemma StepIsEvidenced(recognized: set<string>, a: PlanLedger, b: PlanLedger)
    requires ValidLedger(a) && StepUnder(recognized, a, b)
    ensures ValidLedger(b) && Evidenced(recognized, a, b)
  {
    hide ValidLedger, StatusChange, ReplacementError;
    if change :| StatusChange(a, recognized, change) == Ok(b) {
      ChangeRevalidates(a, recognized, change);
      ChangeIsEvidenced(a, recognized, change);
    } else if ReplacementError(Some(a), b, recognized) == None {
      ReplacementIsEvidenced(a, recognized, b);
    }
  }

  /** No run marks an item completed without recognised evidence. */
  lemma {:induction false} CompletionsAreEvidenced(run: seq<PlanLedger>, recognized: set<string>)
    requires run != [] && ValidLedger(run[0])
    requires forall i, j :: 0 <= i < j == i + 1 < |run| ==> StepUnder(recognized, run[i], run[j])
    ensures ValidLedger(run[|run| - 1]) && Evidenced(recognized, run[0], run[|run| - 1])
  {
    hide ValidLedger, StepUnder;
    if |run| > 1 {
      var front, next, last := run[..|run| - 1], run[|run| - 2], run[|run| - 1];
      assert StepUnder(recognized, next, last);
      CompletionsAreEvidenced(front, recognized);
      StepIsEvidenced(recognized, next, last);
    }
  }

  // ---------- No deadlock ----------

  ghost predicate AllCompleted(items: seq<PlanItem>) {
    forall i | i in items :: i.status.Completed?
  }

  ghost predicate NoneCancelled(items: seq<PlanItem>) {
    forall i | i in items :: !i.status.Cancelled?
  }

  ghost predicate NoneInProgress(items: seq<PlanItem>) {
    forall i | i in items :: !i.status.InProgress?
  }

  ghost function OpenIds(items: seq<PlanItem>): set<string> {
    set o | o in items && !o.status.Completed? :: o.itemId
  }

  /** Because dependencies are acyclic, some unfinished item waits for nothing. */
  lemma SomeItemIsReady(items: seq<PlanItem>) returns (item: PlanItem)
    requires WellFormed(items) && NoneCancelled(items) && NoneInProgress(items) && !AllCompleted(items)
    ensures item in items && !item.status.Terminal() && Ready(items, item)
  {
    hide Ready, Cyclic, Ids, NoDup, DependenciesKnown, AtMostOneInProgress, StartedAreReady, Stuck;
    if i :| i in items && !i.status.Terminal() && Ready(items, i) {
      item := i;
    } else {
      EveryoneWaits(items);
      StuckIsCyclic(CycleSearch.Arcs(DependencyMap(items)), OpenIds(items));
      assert false;
    }
  }

  lemma EveryoneWaits(items: seq<PlanItem>)
    requires NoDup(Ids(items)) && DependenciesKnown(items) && NoneCancelled(items) && !AllCompleted(items)
    requires forall i | i in items && !i.status.Terminal() :: !Ready(items, i)
    ensures Stuck(CycleSearch.Arcs(DependencyMap(items)), OpenIds(items))
  {
    hide Ready, Ids, NoDup, DependenciesKnown, HasPredecessorIn, CycleSearch.Arcs;
    var one :| one in items && !one.status.Completed?;
    assert one.itemId in OpenIds(items);
    forall id | id in OpenIds(items)
      ensures HasPredecessorIn(CycleSearch.Arcs(DependencyMap(items)), OpenIds(items), id)
    {
      var i :| i in items && !i.status.Completed? && i.itemId == id;
      WaitsForOpen(items, i);
    }
  }

  lemma WaitsForOpen(items: seq<PlanItem>, i: PlanItem)
    requires NoDup(Ids(items)) && DependenciesKnown(items)
    requires i in items && !Ready(items, i)
    ensures HasPredecessorIn(CycleSearch.Arcs(DependencyMap(items)), OpenIds(items), i.itemId)
  {
    SameIdSameItem(items);
    var d :| d in i.dependencies && !CompletedIn(items, d);
    assert d in Ids(items);
    var o :| o in items && o.itemId == d;
    assert d in OpenIds(items) && (d, i.itemId) in CycleSearch.Arcs(DependencyMap(items));
  }

  lemma {:induction false} ChangedItemsAccepts(all: seq<PlanItem>, items: seq<PlanItem>, id: string,
                                               status: ItemStatus, evidence: seq<string>, blocker: Option<string>)
    requires forall i | i in items && i.itemId == id :: ChangeItem(all, i, status, evidence, blocker).Ok?
    ensures ChangedItems(all, items, id, status, evidence, blocker).Ok?
  {
    if items != [] {
      hide ChangeItem;
      assert items[|items| - 1] in items;
      ChangedItemsAccepts(all, items[..|items| - 1], id, status, evidence, blocker);
    }
  }

  /** A change whose item accepts it is accepted by the ledger. */
  lemma LedgerAccepts(l: PlanLedger, recognized: set<string>, change: Change, k: nat)
    requires ValidLedger(l) && !l.status.Terminal()
    requires k < |l.items| && l.items[k].itemId == change.itemId && IsText(change.turnId, IDENTIFIER_CHARS)
    requires NoDup(change.evidence) && (forall e | e in change.evidence :: IsText(e, IDENTIFIER_CHARS))
    requires (forall e | e in change.evidence :: e in recognized) && change.blocker.None?
    requires ChangeItem(l.items, l.items[k], change.status, change.evidence, None).Ok?
    ensures StatusChange(l, recognized, change).Ok?
    ensures StatusChange(l, recognized, change).value.items
      == l.items[k := ChangeItem(l.items, l.items[k], change.status, change.evidence, None).value]
    ensures !StatusChange(l, recognized, change).value.status.Terminal()
  {
    hide ChangeItem, ChangedItems, AcyclicItems, StartedAreReady, DependenciesKnown;
    var id := change.itemId;
    assert l.items[k] in l.items && ValidItem(l.items[k]);
    CleanEachKeepsClean(change.evidence, IDENTIFIER_CHARS);
    SameIdSameItem(l.items);
    ChangedItemsAccepts(l.items, l.items, id, change.status, change.evidence, None);
    assert l.items[k].itemId in Ids(l.items);
    var j := ChangedAt(l.items, id, change.status, change.evidence, None);
    assert Ids(l.items)[j] == Ids(l.items)[k];
  }

  function Remaining(i: PlanItem): nat {
    if i.status.Terminal() then 0 else if i.status.InProgress? then 1 else 2
  }

  function Work(items: seq<PlanItem>): (n: nat)
    ensures n <= 2 * |items|
  {
    if items == [] then 0 else Remaining(items[0]) + Work(items[1..])
  }

  lemma {:induction false} WorkOfUpdate(items: seq<PlanItem>, k: nat, new_: PlanItem)
    requires k < |items|
    ensures Work(items[k := new_]) == Work(items) - Remaining(items[k]) + Remaining(new_)
  {
    if k == 0 {
      assert items[0 := new_][1..] == items[1..];
    } else {
      assert items[k := new_][1..] == items[1..][k - 1 := new_];
      WorkOfUpdate(items[1..], k - 1, new_);
    }
  }

  /** An accepted change that advances its item advances the ledger. */
  lemma ChangeAdvances(l: PlanLedger, recognized: set<string>, change: Change, k: nat)
    requires StatusChange(l, recognized, change).Ok? && k < |l.items| && NoneCancelled(l.items)
    requires ChangeItem(l.items, l.items[k], change.status, change.evidence, None).Ok?
    requires var changed := ChangeItem(l.items, l.items[k], change.status, change.evidence, None).value;
      && !changed.status.Cancelled? && Remaining(changed) < Remaining(l.items[k])
      && StatusChange(l, recognized, change).value.items == l.items[k := changed]
    ensures NoneCancelled(StatusChange(l, recognized, change).value.items)
    ensures Work(StatusChange(l, recognized, change).value.items) < Work(l.items)
  {
    hide ChangeItem, StatusChange;
    WorkOfUpdate(l.items, k, ChangeItem(l.items, l.items[k], change.status, change.evidence, None).value);
  }

  /** What `ChangeAccepted` accepts: finishing on one piece of evidence, or starting what nothing holds back. */
  ghost predicate Acceptable(items: seq<PlanItem>, item: PlanItem, change: Change) {
    && item in items && !item.status.Terminal() && change.blocker.None?
    && (|| (change.status.Completed? && |change.evidence| == 1 && IsText(change.evidence[0], IDENTIFIER_CHARS))
        || (change.status.InProgress? && change.evidence == [] && NoneInProgress(items) && Ready(items, item)))
  }

  /** Finish what is in progress, or start what is ready. */
  lemma NextChange(items: seq<PlanItem>, turn: string, evidence: string) returns (item: PlanItem, change: Change)
    requires WellFormed(items) && NoneCancelled(items) && !AllCompleted(items) && IsText(evidence, IDENTIFIER_CHARS)
    ensures Acceptable(items, item, change) && change.itemId == item.itemId && change.turnId == turn
    ensures change.evidence == if change.status.Completed? then [evidence] else []
    ensures change.status.Completed? || (change.status.InProgress? && !item.status.InProgress?)
  {
    if i :| i in items && i.status.InProgress? {
      hide WellFormed, IsText, Ready;
      item := i;
      change := Change(item.itemId, Completed, turn, [evidence], None);
    } else {
      item := SomeItemIsReady(items);
      hide WellFormed, IsText, Ready;
      change := Change(item.itemId, InProgress, turn, [], None);
    }
  }

  lemma SomeChangeIsAccepted(l: PlanLedger, turn: string, evidence: string) returns (k: nat, change: Change)
    requires ValidLedger(l) && NoneCancelled(l.items) && !AllCompleted(l.items) && IsText(evidence, IDENTIFIER_CHARS)
    ensures k < |l.items| && change.itemId == l.items[k].itemId && change.turnId == turn && change.blocker.None?
    ensures change.evidence == if change.status.Completed? then [evidence] else []
    ensures var r := ChangeItem(l.items, l.items[k], change.status, change.evidence, None);
      r.Ok? && !r.value.status.Cancelled? && Remaining(r.value) < Remaining(l.items[k])
  {
    hide ChangeItem, WellFormed, Ready, IsText, ValidHeader, ValidItem;
    var item: PlanItem;
    item, change := NextChange(l.items, turn, evidence);
    k :| 0 <= k < |l.items| && l.items[k] == item;
    assert ValidItem(item);
    ChangeAccepted(l.items, item, change);
  }

  lemma SomeChangeAdvances(l: PlanLedger, recognized: set<string>, turn: string, evidence: string)
    returns (next: PlanLedger)
    requires ValidLedger(l) && !l.status.Terminal() && NoneCancelled(l.items) && !AllCompleted(l.items)
    requires IsText(turn, IDENTIFIER_CHARS) && IsText(evidence, IDENTIFIER_CHARS) && evidence in recognized
    ensures ChangesStatus(l, next) && ValidLedger(next) && !next.status.Terminal() && NoneCancelled(next.items)
    ensures |next.items| == |l.items| && Work(next.items) < Work(l.items)
  {
    hide ValidLedger, StatusChange, ChangeItem, ChangesStatus, NoneCancelled, AllCompleted, Work, Remaining, IsText;
    var k, change := SomeChangeIsAccepted(l, turn, evidence);
    LedgerAccepts(l, recognized, change, k);
    ChangeAdvances(l, recognized, change, k);
    ChangeRevalidates(l, recognized, change);
    next := StatusChange(l, recognized, change).value;
    IsStatusChange(l, recognized, change);
  }

  lemma IsStatusChange(l: PlanLedger, recognized: set<string>, change: Change)
    requires StatusChange(l, recognized, change).Ok?
    ensures ChangesStatus(l, StatusChange(l, recognized, change).value)
  {
    hide StatusChange;
  }

  lemma ChangeAccepted(items: seq<PlanItem>, item: PlanItem, change: Change)
    requires ValidItem(item) && Acceptable(items, item, change)
    ensures var r := ChangeItem(items, item, change.status, change.evidence, None);
      r.Ok? && r.value.status == change.status
  {
    OnlyExcessEvidenceFailsLate(items, item, change.status, change.evidence, None);
  }

  ghost predicate IsChangeRun(run: seq<PlanLedger>) {
    run != [] && forall i, j :: 0 <= i < j == i + 1 < |run| ==> ChangesStatus(run[i], run[j])
  }

  lemma PrependChange(l: PlanLedger, rest: seq<PlanLedger>)
    requires IsChangeRun(rest) && ChangesStatus(l, rest[0])
    ensures IsChangeRun([l] + rest)
  {
    hide ChangesStatus;
    var run := [l] + rest;
    forall i, j | 0 <= i < j == i + 1 < |run| ensures ChangesStatus(run[i], run[j]) {
      if i > 0 {
        assert run[i] == rest[i - 1] && run[j] == rest[j - 1];
      }
    }
  }

  /**
   * No plan gets stuck: as long as nothing is cancelled, status changes alone complete every item, with at most two
   * changes for each.
   */
  lemma {:induction false} CanAlwaysFinish(l: PlanLedger, recognized: set<string>, turn: string, evidence: string)
    returns (run: seq<PlanLedger>)
    requires ValidLedger(l) && !l.status.Terminal() && NoneCancelled(l.items)
    requires IsText(turn, IDENTIFIER_CHARS) && IsText(evidence, IDENTIFIER_CHARS) && evidence in recognized
    ensures IsChangeRun(run) && run[0] == l && AllCompleted(run[|run| - 1].items)
    ensures |run| <= Work(l.items) + 1 <= 2 * |l.items| + 1
    decreases Work(l.items)
  {
    hide ValidLedger, ChangesStatus, AllCompleted, NoneCancelled, IsText, Work;
    if AllCompleted(l.items) {
      run := [l];
    } else {
      var next := SomeChangeAdvances(l, recognized, turn, evidence);
      var rest := CanAlwaysFinish(next, recognized, turn, evidence);
      PrependChange(l, rest);
      run := [l] + rest;
    }
  }
}

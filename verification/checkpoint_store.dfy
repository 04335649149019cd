/** Per-turn execution checkpoints: a stage machine kept inside one shared log under optimistic concurrency. */
module CheckpointStore {
  import opened Collections
  import opened Text

  datatype Stage = ContractResolved | AwaitingApproval | Executing | Verifying | Completed | Blocked {
    predicate Terminal() {
      Completed? || Blocked?
    }
  }

  /** The transition table. */
  function Next(prior: Option<Stage>): set<Stage> {
    match prior
    case None => {ContractResolved}
    case Some(ContractResolved) => {ContractResolved, AwaitingApproval, Executing, Blocked}
    case Some(AwaitingApproval) => {AwaitingApproval, Executing, Blocked}
    case Some(Executing) => {Executing, AwaitingApproval, Verifying, Blocked}
    case Some(Verifying) => {Verifying, Completed, Blocked}
    case Some(Completed) => {}
    case Some(Blocked) => {}
  }

  /** `body` stands for the checkpoint's JSON snapshots, which the store carries unread. */
  datatype Checkpoint = Checkpoint(sessionId: string, turnId: string, revision: int, stage: Stage, body: string,
                                   completionReason: Option<string>, blockerReason: Option<string>)

  datatype Event =
    | Foreign
    | CheckpointEvent(schemaVersion: int, sessionId: string, turnId: string, payload: Checkpoint, timestamp: string)

  datatype LoadResult = Loaded(checkpoint: Checkpoint) | Missing | Invalid | Unsupported {
    predicate Unusable() {
      Invalid? || Unsupported?
    }

    function Prior(): Option<Checkpoint> {
      if Loaded? then Some(checkpoint) else None
    }

    function Revision(): int {
      if Loaded? then checkpoint.revision else 0
    }
  }

  datatype Request = Request(checkpoint: Checkpoint, expected: int, timestamp: string)

  datatype SaveResult =
    | Saved(expected: int, current: int, checkpoint: Checkpoint)
    | Conflict(expected: int, current: int, durable: Option<Checkpoint>)
    | Refused(expected: int, current: int, durable: Option<Checkpoint>)
    | Raised

  // ---------- Reading one event ----------

  predicate NonBlank(s: string) {
    Strip(s) != []
  }

  /** What the checkpoint's constructor enforces. */
  predicate Valid(c: Checkpoint) {
    && NonBlank(c.sessionId) && NonBlank(c.turnId) && c.revision >= 0
    && (c.completionReason.Some? ==> NonBlank(c.completionReason.value))
    && (c.blockerReason.Some? ==> NonBlank(c.blockerReason.value))
    && (c.stage.Completed? ==> c.completionReason.Some?)
    && (c.stage.Blocked? ==> c.blockerReason.Some?)
  }

  function StripOptional(s: Option<string>): Option<string> {
    if s.Some? then Some(Strip(s.value)) else None
  }

  /** What reading a stored checkpoint makes of it: texts lose their surrounding white space. */
  function Reread(c: Checkpoint): Checkpoint {
    c.(sessionId := Strip(c.sessionId), turnId := Strip(c.turnId),
       completionReason := StripOptional(c.completionReason), blockerReason := StripOptional(c.blockerReason))
  }

  lemma RereadIsValid(c: Checkpoint)
    requires Valid(c)
    ensures Valid(Reread(c))
  {
    StripIdempotent(c.sessionId);
    StripIdempotent(c.turnId);
    if c.completionReason.Some? {
      StripIdempotent(c.completionReason.value);
    }
    if c.blockerReason.Some? {
      StripIdempotent(c.blockerReason.value);
    }
  }

  function LoadEvent(session: string, turn: string, e: Event): LoadResult
    requires e.CheckpointEvent?
  {
    if e.schemaVersion != 1 then Unsupported
    else if e.sessionId != session || e.turnId != turn || !NonBlank(e.timestamp) then Invalid
    else if !Valid(e.payload) then Invalid
    else
      var c := Reread(e.payload);
      if c.sessionId == session && c.turnId == turn then Loaded(c) else Invalid
  }

  predicate OfTurn(e: Event, turn: string) {
    e.CheckpointEvent? && e.turnId == turn
  }

  function LastIndex(log: seq<Event>, turn: string): (k: int)
    ensures -1 <= k < |log|
    ensures k >= 0 ==> OfTurn(log[k], turn)
    ensures forall j :: k < j < |log| ==> !OfTurn(log[j], turn)
  {
    if log == [] then -1
    else if OfTurn(log[|log| - 1], turn) then |log| - 1
    else LastIndex(log[..|log| - 1], turn)
  }

  function Load(log: seq<Event>, session: string, turn: string): LoadResult {
    var k := LastIndex(log, turn);
    if k < 0 then Missing else LoadEvent(session, turn, log[k])
  }

  method LoadFromEvents(log: seq<Event>, session: string, turn: string) returns (r: LoadResult)
    ensures r == Load(log, session, turn)
  {
    var k := |log| - 1;
    while k >= 0
      invariant -1 <= k < |log|
      invariant forall j :: k < j < |log| ==> !OfTurn(log[j], turn)
    {
      if OfTurn(log[k], turn) {
        assert LastIndex(log, turn) == k;
        return LoadEvent(session, turn, log[k]);
      }
      k := k - 1;
    }
    return Missing;
  }

  // ---------- One atomic transition ----------

  function EventFor(req: Request, revision: int): Event {
    CheckpointEvent(1, req.checkpoint.sessionId, req.checkpoint.turnId, req.checkpoint.(revision := revision),
                    req.timestamp)
  }

  /** What the store's critical section does with the log it finds. */
  function Transition(log: seq<Event>, req: Request): (seq<Event>, SaveResult) {
    var c := req.checkpoint;
    var current := Load(log, c.sessionId, c.turnId);
    var revision, prior := current.Revision(), current.Prior();
    var stage := if prior.Some? then Some(prior.value.stage) else None;
    if current.Unusable() then (log, Refused(req.expected, 0, None))
    else if revision != req.expected then (log, Conflict(req.expected, revision, prior))
    else if c.stage !in Next(stage) then (log, Refused(req.expected, revision, prior))
    else (log + [EventFor(req, revision + 1)], Saved(req.expected, revision, c.(revision := revision + 1)))
  }

  /** What other writers do between two steps of one save. */
  datatype Action = Unrelated | Writes(request: Request)

  function Act(log: seq<Event>, action: Action): seq<Event> {
    match action
    case Unrelated => log + [Foreign]
    case Writes(request) => if request.expected < 0 then log else Transition(log, request).0
  }

  function Run(log: seq<Event>, actions: seq<Action>): seq<Event> {
    if actions == [] then log else Act(Run(log, actions[..|actions| - 1]), actions[|actions| - 1])
  }

  function Flatten(rounds: seq<seq<Action>>): seq<Action> {
    if rounds == [] then [] else Flatten(rounds[..|rounds| - 1]) + rounds[|rounds| - 1]
  }

  lemma {:induction false} RunConcat(log: seq<Event>, a: seq<Action>, b: seq<Action>)
    ensures Run(log, a + b) == Run(Run(log, a), b)
  {
    if b == [] {
      assert a + b == a;
    } else {
      hide Transition;
      assert (a + b)[..|a + b| - 1] == a + b[..|b| - 1];
      RunConcat(log, a, b[..|b| - 1]);
    }
  }

  lemma {:induction false} RunExtends(log: seq<Event>, actions: seq<Action>)
    ensures log <= Run(log, actions)
  {
    if actions != [] {
      hide Load, Next;
      RunExtends(log, actions[..|actions| - 1]);
    }
  }

  const ATTEMPTS := 8

  class Repository {
    var log: seq<Event>

    constructor (log: seq<Event>)
      ensures this.log == log
    {
      this.log := log;
    }

    /** Others write while this save is suspended. */
    method Others(actions: seq<Action>)
      modifies this
      ensures log == Run(old(log), actions)
    {
      for k := 0 to |actions|
        invariant log == Run(old(log), actions[..k])
      {
        assert actions[..k + 1][..k] == actions[..k];
        log := Act(log, actions[k]);
      }
      assert actions[..|actions|] == actions;
    }

    /** The critical section: nothing when the history has moved, else the transition. */
    method MutateStrictSnapshot(historyRevision: nat, req: Request) returns (rebase: bool, r: SaveResult)
      requires Valid(req.checkpoint) && req.expected >= 0
      modifies this
      ensures rebase <==> |old(log)| != historyRevision
      ensures rebase ==> log == old(log)
      ensures !rebase ==> (log, r) == Transition(old(log), req)
    {
      if |log| != historyRevision {
        return true, Raised;
      }
      var c := req.checkpoint;
      var current := LoadFromEvents(log, c.sessionId, c.turnId);
      if current.Unusable() {
        return false, Refused(req.expected, 0, None);
      }
      var prior, revision := current.Prior(), current.Revision();
      if revision != req.expected {
        return false, Conflict(req.expected, revision, prior);
      }
      if c.stage !in Next(if prior.Some? then Some(prior.value.stage) else None) {
        return false, Refused(req.expected, revision, prior);
      }
      log := log + [EventFor(req, revision + 1)];
      return false, Saved(req.expected, revision, c.(revision := revision + 1));
    }

    /**
     * Up to eight rounds of snapshot, suspension, conditional append. `meanwhile[k]` is what others do in round k,
     * `rounds` how many rounds were run.
     */
    method Save(req: Request, meanwhile: seq<seq<Action>>) returns (r: SaveResult, ghost rounds: nat)
      requires Valid(req.checkpoint) && |meanwhile| == 8
      modifies this
      ensures req.expected < 0 <==> r == Raised
      ensures r == Raised ==> log == old(log)
      ensures r != Raised ==> 1 <= rounds <= 8
      ensures r != Raised ==>
        var before := Run(old(log), Flatten(meanwhile[..rounds]));
        || (log, r) == Transition(before, req)
        || (rounds == 8 && log == before && r == Conflict(req.expected, 0, None)
            && forall k :: 0 <= k < 8 ==> meanwhile[k] != [])
      ensures r != Raised ==>
        var before := Run(old(log), Flatten(meanwhile[..rounds]));
        log == if r.Saved? then before + [EventFor(req, req.expected + 1)] else before
    {
      hide Transition, Run, Flatten, EventFor;
      rounds := 0;
      if req.expected < 0 {
        return Raised, 0;
      }
      RunOfNothing(log);
      assert meanwhile[..0] == [];
      for attempt := 0 to ATTEMPTS
        invariant rounds == attempt
        invariant log == Run(old(log), Flatten(meanwhile[..attempt]))
        invariant forall k :: 0 <= k < attempt ==> meanwhile[k] != []
      {
        var historyRevision := |log|;
        Others(meanwhile[attempt]);
        RunRound(old(log), meanwhile, attempt);
        rounds := attempt + 1;
        var rebase, outcome := MutateStrictSnapshot(historyRevision, req);
        if !rebase {
          SavedIffAppended(Run(old(log), Flatten(meanwhile[..rounds])), req);
          return outcome, rounds;
        }
        RunOfNothing(Run(old(log), Flatten(meanwhile[..attempt])));
      }
      r := Conflict(req.expected, 0, None);
    }
  }

  lemma RunOfNothing(log: seq<Event>)
    ensures Run(log, []) == log && Run(log, Flatten([])) == log
  {
  }

  lemma RunRound(log: seq<Event>, rounds: seq<seq<Action>>, k: nat)
    requires k < |rounds|
    ensures Run(log, Flatten(rounds[..k + 1])) == Run(Run(log, Flatten(rounds[..k])), rounds[k])
  {
    assert rounds[..k + 1][..k] == rounds[..k];
    RunConcat(log, Flatten(rounds[..k]), rounds[k]);
  }

  /** `saved` is reported exactly when the one event of the request was appended. */
  lemma SavedIffAppended(log: seq<Event>, req: Request)
    ensures var (after, r) := Transition(log, req);
      && r != Raised
      && after == (if r.Saved? then log + [EventFor(req, req.expected + 1)] else log)
      && (r.Saved? <==> |after| == |log| + 1)
      && (r.Saved? <==> after != log)
  {
    hide Load;
  }

  // ---------- What every log of these writers looks like ----------

  function DurableRevision(log: seq<Event>, turn: string): int {
    var k := LastIndex(log, turn);
    if k < 0 then 0 else log[k].payload.revision
  }

  function LatestStage(log: seq<Event>, turn: string): Option<Stage> {
    var k := LastIndex(log, turn);
    if k < 0 then None else Some(log[k].payload.stage)
  }

  predicate LegalEvent(session: string, e: Event)
    requires e.CheckpointEvent?
  {
    && e.schemaVersion == 1 && e.sessionId == session && Valid(e.payload)
    && e.payload.sessionId == session && e.payload.turnId == e.turnId
  }

  /** A checkpoint may follow a log when it takes its turn to the next revision along the transition table. */
  predicate LegalAppend(session: string, before: seq<Event>, e: Event) {
    e.CheckpointEvent? ==>
      && LegalEvent(session, e)
      && e.payload.revision == DurableRevision(before, e.turnId) + 1
      && e.payload.stage in Next(LatestStage(before, e.turnId))
  }

  predicate Legal(session: string, log: seq<Event>) {
    forall i | 0 <= i < |log| :: LegalAppend(session, log[..i], log[i])
  }

  /** The ids and the time of an event that can be read back. */
  predicate Readable(e: Event)
    requires e.CheckpointEvent?
  {
    NonBlank(e.timestamp) && Strip(e.sessionId) == e.sessionId && Strip(e.turnId) == e.turnId
  }

  lemma LegalLoad(session: string, log: seq<Event>, turn: string)
    requires Legal(session, log)
    ensures var k := LastIndex(log, turn);
      Load(log, session, turn)
        == if k < 0 then Missing else if Readable(log[k]) then Loaded(Reread(log[k].payload)) else Invalid
    ensures DurableRevision(log, turn) >= 0
  {
    var k := LastIndex(log, turn);
    if k >= 0 {
      assert LegalAppend(session, log[..k], log[k]);
      hide Next, Valid;
    }
  }

  lemma LegalExtend(session: string, log: seq<Event>, e: Event)
    requires Legal(session, log) && LegalAppend(session, log, e)
    ensures Legal(session, log + [e])
  {
    hide LegalAppend;
    var after := log + [e];
    forall i | 0 <= i < |after| ensures LegalAppend(session, after[..i], after[i]) {
      assert after[..i] == log[..i];
    }
  }

  lemma TransitionKeepsLegal(session: string, log: seq<Event>, req: Request)
    requires Legal(session, log) && Valid(req.checkpoint) && req.checkpoint.sessionId == session
    ensures Legal(session, Transition(log, req).0)
  {
    hide Legal, Load, Next;
    var turn := req.checkpoint.turnId;
    LegalLoad(session, log, turn);
    if Transition(log, req).1.Saved? {
      LegalExtend(session, log, EventFor(req, req.expected + 1));
    }
  }

  lemma {:induction false} RunsKeepLegal(session: string, log: seq<Event>, actions: seq<Action>)
    requires Legal(session, log)
    requires forall a | a in actions && a.Writes? ::
      Valid(a.request.checkpoint) && a.request.checkpoint.sessionId == session
    ensures Legal(session, Run(log, actions))
  {
    if actions != [] {
      var front, last := actions[..|actions| - 1], actions[|actions| - 1];
      assert last in actions;
      RunsKeepLegal(session, log, front);
      hide Legal, Transition, Valid;
      if last.Unrelated? {
        LegalExtend(session, Run(log, front), Foreign);
      } else {
        TransitionKeepsLegal(session, Run(log, front), last.request);
      }
    }
  }

  /** A saved checkpoint loads back, stripped, if and only if its ids are clean and its timestamp is not blank. */
  lemma LoadsBackIffReadable(session: string, log: seq<Event>, req: Request)
    requires Legal(session, log) && Valid(req.checkpoint) && req.checkpoint.sessionId == session
    requires Transition(log, req).1.Saved?
    ensures var saved := Transition(log, req).1.checkpoint;
      var loaded := Load(Transition(log, req).0, session, saved.turnId);
      loaded == Loaded(Reread(saved)) <==> Readable(EventFor(req, saved.revision))
  {
    TransitionKeepsLegal(session, log, req);
    SavedIffAppended(log, req);
    SavedCheckpoint(log, req);
    hide Legal, Load, Next, Transition;
    var turn, e := req.checkpoint.turnId, EventFor(req, req.expected + 1);
    LegalLoad(session, log + [e], turn);
    assert (log + [e])[|log|] == e;
    assert LastIndex(log + [e], turn) == |log|;
  }

  lemma SavedCheckpoint(log: seq<Event>, req: Request)
    requires Transition(log, req).1.Saved?
    ensures Transition(log, req).1.checkpoint == req.checkpoint.(revision := req.expected + 1)
  {
    hide Load, Next;
  }

  /** Whatever loads is a valid checkpoint. */
  lemma LoadedIsValid(log: seq<Event>, session: string, turn: string)
    ensures Load(log, session, turn).Loaded? ==> Valid(Load(log, session, turn).checkpoint)
  {
    var k := LastIndex(log, turn);
    if k >= 0 && Valid(log[k].payload) {
      RereadIsValid(log[k].payload);
      hide Valid, Reread;
    }
  }

  /** The first checkpoint of a turn, saved under the given id and timestamp. */
  function FirstRequest(turn: string, timestamp: string): Request {
    Request(Checkpoint("s", turn, 0, ContractResolved, [], None, None), 0, timestamp)
  }

  lemma FirstRequestIsSaved(turn: string, timestamp: string)
    requires NonBlank(turn)
    ensures Valid(FirstRequest(turn, timestamp).checkpoint)
    ensures Legal("s", []) && Transition([], FirstRequest(turn, timestamp)).1.Saved?
  {
    StripSolid("s");
  }

  lemma PaddedStrip()
    ensures Strip(" t") == "t" && Strip(" ") == ""
  {
    assert DropLeading(" t") == DropLeading(" t"[1..]) == "t";
    assert DropLeading(" ") == DropLeading(" "[1..]);
  }

  /** A turn id with a leading blank, or a blank timestamp, is saved and does not load. */
  lemma PaddedOrUndatedIsLost()
    ensures Transition([], FirstRequest(" t", "now")).1.Saved?
    ensures Load(Transition([], FirstRequest(" t", "now")).0, "s", " t") == Invalid
    ensures Transition([], FirstRequest("t", " ")).1.Saved?
    ensures Load(Transition([], FirstRequest("t", " ")).0, "s", "t") == Invalid
  {
    PaddedStrip();
    StripSolid("t");
    FirstRequestIsSaved(" t", "now");
    FirstRequestIsSaved("t", " ");
    hide Strip, Transition;
    FirstIsLost(" t", "now");
    FirstIsLost("t", " ");
  }

  lemma FirstIsLost(turn: string, timestamp: string)
    requires NonBlank(turn) && (Strip(turn) != turn || !NonBlank(timestamp))
    ensures Load(Transition([], FirstRequest(turn, timestamp)).0, "s", turn) == Invalid
  {
    var req := FirstRequest(turn, timestamp);
    FirstRequestIsSaved(turn, timestamp);
    TransitionKeepsLegal("s", [], req);
    SavedIffAppended([], req);
    var after := Transition([], req).0;
    hide Transition, Load, Legal, Strip, Next;
    LegalLoad("s", after, turn);
    assert after == [EventFor(req, 1)];
    assert LastIndex(after, turn) == 0;
  }

  // ---------- What is loaded and what a save is told ----------

  ghost predicate IsLastOf(log: seq<Event>, k: int, turn: string) {
    && 0 <= k < |log| && log[k].CheckpointEvent? && log[k].turnId == turn
    && forall j :: k < j < |log| && log[j].CheckpointEvent? ==> log[j].turnId != turn
  }

  lemma LastIs(log: seq<Event>, turn: string)
    ensures forall k :: IsLastOf(log, k, turn) <==> k == LastIndex(log, turn) && 0 <= k
    ensures LastIndex(log, turn) >= 0 ==> log[LastIndex(log, turn)].CheckpointEvent?
  {
    var last := LastIndex(log, turn);
    forall k ensures IsLastOf(log, k, turn) <==> k == last && 0 <= k {
      if IsLastOf(log, k, turn) {
        assert OfTurn(log[k], turn) && (last >= 0 ==> OfTurn(log[last], turn));
      }
      if k == last && 0 <= k {
        assert forall j :: k < j < |log| ==> !OfTurn(log[j], turn);
      }
    }
  }

  /** A stored checkpoint that can be read: its envelope fits, its texts are not blank, its ending has a reason. */
  predicate Presentable(e: Event, session: string)
    requires e.CheckpointEvent?
  {
    var c := e.payload;
    && e.sessionId == session && Strip(e.timestamp) != [] && c.revision >= 0
    && Strip(c.sessionId) == session && Strip(c.turnId) == e.turnId && Strip(c.sessionId) != [] && Strip(c.turnId) != []
    && (c.completionReason.None? ==> c.stage != Completed) && (c.blockerReason.None? ==> c.stage != Blocked)
    && (c.completionReason.Some? ==> Strip(c.completionReason.value) != [])
    && (c.blockerReason.Some? ==> Strip(c.blockerReason.value) != [])
  }

  /** The same checkpoint but for white space around its texts; its body is carried unread. */
  predicate SameButTrimmed(stored: Checkpoint, read: Checkpoint) {
    && read.stage == stored.stage && read.revision == stored.revision && read.body == stored.body
    && read.sessionId == Strip(stored.sessionId) && read.turnId == Strip(stored.turnId)
    && (read.completionReason.Some? <==> stored.completionReason.Some?)
    && (read.blockerReason.Some? <==> stored.blockerReason.Some?)
    && (read.completionReason.Some? ==> read.completionReason.value == Strip(stored.completionReason.value))
    && (read.blockerReason.Some? ==> read.blockerReason.value == Strip(stored.blockerReason.value))
  }

  /** What loading a turn yields on any log, legal or not: its last event decides. */
  lemma LoadsIff(log: seq<Event>, session: string, turn: string)
    ensures var r := Load(log, session, turn);
      && (r == Missing <==> forall k :: !IsLastOf(log, k, turn))
      && forall k :: IsLastOf(log, k, turn) ==>
           && (r == Unsupported <==> log[k].schemaVersion != 1)
           && (r.Loaded? <==> log[k].schemaVersion == 1 && Presentable(log[k], session))
           && (r.Loaded? ==> SameButTrimmed(log[k].payload, r.checkpoint))
  {
    LastIs(log, turn);
    hide IsLastOf, Strip;
    assert IsLastOf(log, LastIndex(log, turn), turn) <==> 0 <= LastIndex(log, turn);
  }

  /** What a writer is told on the log it finds, read off that log alone. */
  ghost predicate Told(log: seq<Event>, req: Request, r: SaveResult) {
    var turn, next := req.checkpoint.turnId, req.checkpoint.stage;
    && ((forall k :: !IsLastOf(log, k, turn)) ==>
          if req.expected != 0 then r == Conflict(req.expected, 0, None)
          else if next == ContractResolved then r == Saved(0, 0, req.checkpoint.(revision := 1))
          else r == Refused(0, 0, None))
    && (forall k :: IsLastOf(log, k, turn) ==>
          if !Presentable(log[k], req.checkpoint.sessionId) then r == Refused(req.expected, 0, None)
          else
            var revision := log[k].payload.revision;
            if req.expected != revision then
              r.Conflict? && r.expected == req.expected && r.current == revision
              && r.durable.Some? && SameButTrimmed(log[k].payload, r.durable.value)
            else if MayFollow(Some(log[k].payload.stage), next) then
              r == Saved(revision, revision, req.checkpoint.(revision := revision + 1))
            else
              r.Refused? && r.expected == r.current == revision
              && r.durable.Some? && SameButTrimmed(log[k].payload, r.durable.value))
  }

  /** What every writer is told on a log these writers wrote. */
  lemma TransitionTells(session: string, log: seq<Event>, req: Request)
    requires Legal(session, log) && req.checkpoint.sessionId == session
    ensures Told(log, req, Transition(log, req).1)
    ensures Transition(log, req).1.Saved? ==>
      Transition(log, req).0 == log + [CheckpointEvent(1, session, req.checkpoint.turnId,
                                                       req.checkpoint.(revision := req.expected + 1), req.timestamp)]
  {
    hide *;
    var k := LastIndex(log, req.checkpoint.turnId);
    LastIs(log, req.checkpoint.turnId);
    LoadsIff(log, session, req.checkpoint.turnId);
    LastIsCurrent(session, log, req.checkpoint.turnId);
    assert IsLastOf(log, k, req.checkpoint.turnId) <==> 0 <= k;
    if 0 <= k {
      LaterTells(log, req, k);
    } else {
      FirstTells(log, req);
    }
  }

  lemma FirstTells(log: seq<Event>, req: Request)
    requires forall k :: !IsLastOf(log, k, req.checkpoint.turnId)
    requires Load(log, req.checkpoint.sessionId, req.checkpoint.turnId) == Missing
    ensures Told(log, req, Transition(log, req).1)
    ensures Transition(log, req).1.Saved? ==>
      Transition(log, req).0 == log + [CheckpointEvent(1, req.checkpoint.sessionId, req.checkpoint.turnId,
                                                       req.checkpoint.(revision := req.expected + 1), req.timestamp)]
  {
    hide IsLastOf, Load, MayFollow;
  }

  lemma LaterTells(log: seq<Event>, req: Request, k: int)
    requires forall j :: IsLastOf(log, j, req.checkpoint.turnId) <==> j == k
    requires 0 <= k < |log| && log[k].CheckpointEvent?
    requires var r := Load(log, req.checkpoint.sessionId, req.checkpoint.turnId);
      && r != Missing && r != Unsupported && (r.Loaded? <==> Presentable(log[k], req.checkpoint.sessionId))
      && (r.Loaded? ==> SameButTrimmed(log[k].payload, r.checkpoint))
    ensures Told(log, req, Transition(log, req).1)
    ensures Transition(log, req).1.Saved? ==>
      Transition(log, req).0 == log + [CheckpointEvent(1, req.checkpoint.sessionId, req.checkpoint.turnId,
                                                       req.checkpoint.(revision := req.expected + 1), req.timestamp)]
  {
    hide IsLastOf, Load, Presentable, Next, Strip;
    assert IsLastOf(log, k, req.checkpoint.turnId);
  }

  lemma LastIsCurrent(session: string, log: seq<Event>, turn: string)
    requires Legal(session, log)
    ensures forall k :: IsLastOf(log, k, turn) ==> log[k].schemaVersion == 1
  {
    hide LegalAppend;
    forall k | IsLastOf(log, k, turn) ensures log[k].schemaVersion == 1 {
      assert LegalAppend(session, log[..k], log[k]);
      OneVersion(session, log[..k], log[k]);
    }
  }

  lemma OneVersion(session: string, before: seq<Event>, e: Event)
    requires e.CheckpointEvent? && LegalAppend(session, before, e)
    ensures e.schemaVersion == 1
  {
    hide Next, Valid;
  }

  // ---------- The history of a turn ----------

  function History(log: seq<Event>, turn: string): seq<Checkpoint> {
    if log == [] then []
    else
      var before, last := History(log[..|log| - 1], turn), log[|log| - 1];
      if OfTurn(last, turn) then before + [last.payload] else before
  }

  function Stages(h: seq<Checkpoint>): (s: seq<Stage>)
    ensures |s| == |h| && forall k :: 0 <= k < |h| ==> s[k] == h[k].stage
  {
    seq(|h|, k requires 0 <= k < |h| => h[k].stage)
  }

  function Before(s: seq<Stage>, k: nat): Option<Stage>
    requires k <= |s|
  {
    if k == 0 then None else Some(s[k - 1])
  }

  predicate Walks(s: seq<Stage>) {
    forall k | 0 <= k < |s| :: MayFollow(Before(s, k), s[k])
  }

  predicate MayFollow(prior: Option<Stage>, stage: Stage) {
    stage in Next(prior)
  }

  /** How one transition moves through the phases. */
  lemma TransitionFacts(prior: Option<Stage>, stage: Stage)
    requires MayFollow(prior, stage)
    ensures prior.None? ==> stage.ContractResolved?
    ensures prior.Some? ==> !prior.value.Terminal() && Phase(prior.value) <= Phase(stage)
    ensures prior.Some? && stage.Completed? ==> prior.value.Verifying?
    ensures prior.Some? && stage.Verifying? ==> prior.value.Executing? || prior.value.Verifying?
  {
  }

  lemma LegalFront(session: string, log: seq<Event>)
    requires Legal(session, log) && log != []
    ensures Legal(session, log[..|log| - 1]) && LegalAppend(session, log[..|log| - 1], log[|log| - 1])
  {
    var n := |log| - 1;
    forall i | 0 <= i < n ensures LegalAppend(session, log[..n][..i], log[..n][i]) {
      assert log[..n][..i] == log[..i];
      assert LegalAppend(session, log[..i], log[i]);
    }
  }

  /** What the last event of a legal log does to a turn. */
  lemma HistoryStep(session: string, log: seq<Event>, turn: string)
    requires Legal(session, log) && log != []
    ensures var before, last := log[..|log| - 1], log[|log| - 1];
      && Legal(session, before)
      && if OfTurn(last, turn) then
           && last.payload.revision == DurableRevision(before, turn) + 1 == DurableRevision(log, turn)
           && MayFollow(LatestStage(before, turn), last.payload.stage)
           && LatestStage(log, turn) == Some(last.payload.stage)
           && History(log, turn) == History(before, turn) + [last.payload]
         else
           && DurableRevision(log, turn) == DurableRevision(before, turn)
           && LatestStage(log, turn) == LatestStage(before, turn)
           && History(log, turn) == History(before, turn)
  {
    LegalFront(session, log);
    hide Legal, Next, LegalEvent;
  }

  /** Every turn's durable revisions are 1, ..., n and its stages follow the transition table. */
  lemma {:induction false} HistoriesAreLegal(session: string, log: seq<Event>, turn: string)
    requires Legal(session, log)
    ensures var h := History(log, turn);
      && LegalHistory(h)
      && DurableRevision(log, turn) == |h|
      && LatestStage(log, turn) == Before(Stages(h), |h|)
  {
    if log == [] {
    } else {
      hide *;
      HistoryStep(session, log, turn);
      HistoriesAreLegal(session, log[..|log| - 1], turn);
      if OfTurn(log[|log| - 1], turn) {
        LegalHistoryStep(History(log[..|log| - 1], turn), log[|log| - 1].payload);
      }
    }
  }

  /** Revisions count up from one and the stages follow the transition table. */
  ghost predicate LegalHistory(h: seq<Checkpoint>) {
    (forall k :: 0 <= k < |h| ==> h[k].revision == k + 1) && Walks(Stages(h))
  }

  lemma LegalHistoryStep(h: seq<Checkpoint>, c: Checkpoint)
    requires LegalHistory(h) && c.revision == |h| + 1 && MayFollow(Before(Stages(h), |h|), c.stage)
    ensures LegalHistory(h + [c])
    ensures Before(Stages(h + [c]), |h| + 1) == Some(c.stage)
  {
    hide MayFollow, Walks;
    StagesOfAppend(h, c);
    WalkOn(Stages(h), c.stage);
  }

  lemma WalkOn(s: seq<Stage>, stage: Stage)
    requires Walks(s) && MayFollow(Before(s, |s|), stage)
    ensures Walks(s + [stage])
  {
    hide MayFollow;
    var t := s + [stage];
    forall k | 0 <= k < |t| ensures MayFollow(Before(t, k), t[k]) {
      assert k < |s| ==> MayFollow(Before(s, k), s[k]);
    }
  }

  lemma StagesOfAppend(h: seq<Checkpoint>, c: Checkpoint)
    ensures Stages(h + [c]) == Stages(h) + [c.stage]
  {
    hide Stages;
  }

  /** contract_resolved+ (awaiting_approval|executing)* executing verifying+ completed, split at i and j. */
  predicate CompletedShape(s: seq<Stage>, i: nat, j: nat) {
    && 1 <= i < j < |s| - 1
    && (forall k :: 0 <= k < i ==> s[k].ContractResolved?)
    && (forall k :: i <= k < j ==> s[k].AwaitingApproval? || s[k].Executing?)
    && s[j - 1].Executing?
    && (forall k :: j <= k < |s| - 1 ==> s[k].Verifying?)
    && s[|s| - 1].Completed?
  }

  function Phase(s: Stage): nat {
    match s
    case ContractResolved => 0
    case AwaitingApproval | Executing => 1
    case Verifying => 2
    case Completed | Blocked => 3
  }

  lemma {:induction false} PhasesClimb(s: seq<Stage>, a: nat, b: nat)
    requires Walks(s) && a <= b < |s|
    ensures Phase(s[a]) <= Phase(s[b])
    ensures a < b ==> !s[a].Terminal()
    decreases b
  {
    hide MayFollow;
    if a < b {
      PhasesClimb(s, a, b - 1);
      StepFacts(s, b);
    }
  }

  lemma StepFacts(s: seq<Stage>, k: nat)
    requires Walks(s) && k < |s|
    ensures k == 0 ==> s[k].ContractResolved?
    ensures k > 0 ==> !s[k - 1].Terminal() && Phase(s[k - 1]) <= Phase(s[k])
    ensures k > 0 && s[k].Completed? ==> s[k - 1].Verifying?
    ensures k > 0 && s[k].Verifying? ==> s[k - 1].Executing? || s[k - 1].Verifying?
  {
    hide MayFollow, Phase;
    assert MayFollow(Before(s, k), s[k]);
    TransitionFacts(Before(s, k), s[k]);
  }

  /** The first position at or past a phase. */
  function FirstPast(s: seq<Stage>, phase: nat): (k: nat)
    ensures k <= |s|
    ensures forall j :: 0 <= j < k ==> Phase(s[j]) < phase
    ensures k < |s| ==> Phase(s[k]) >= phase
  {
    if s == [] || Phase(s[0]) >= phase then 0 else 1 + FirstPast(s[1..], phase)
  }

  lemma BetweenPhases(s: seq<Stage>, a: nat, k: nat, b: nat)
    requires Walks(s) && a <= k <= b < |s|
    ensures Phase(s[a]) == Phase(s[b]) ==> Phase(s[k]) == Phase(s[a])
  {
    hide Walks, Phase;
    PhasesClimb(s, a, k);
    PhasesClimb(s, k, b);
  }

  lemma WalkToCompletedHasShape(s: seq<Stage>)
    requires Walks(s) && s != [] && s[|s| - 1].Completed?
    ensures CompletedShape(s, FirstPast(s, 1), FirstPast(s, 2))
  {
    hide Walks, FirstPast;
    var n, i, j := |s| - 1, FirstPast(s, 1), FirstPast(s, 2);
    StepFacts(s, 0);
    StepFacts(s, n);
    StepFacts(s, j);
    assert 0 < j < n && s[n - 1].Verifying?;
    PhasesClimb(s, j, n - 1);
    forall k | j <= k < n ensures s[k].Verifying? {
      BetweenPhases(s, j, k, n - 1);
    }
    assert s[j - 1].Executing? && i < j;
    PhasesClimb(s, i, j - 1);
    forall k | i <= k < j ensures s[k].AwaitingApproval? || s[k].Executing? {
      BetweenPhases(s, i, k, j - 1);
    }
  }

  lemma ShapeWalks(s: seq<Stage>, i: nat, j: nat)
    requires CompletedShape(s, i, j)
    ensures Walks(s)
  {
    forall k | 0 <= k < |s| ensures MayFollow(Before(s, k), s[k]) {
      if 0 < k < i {
        assert s[k - 1].ContractResolved?;
      } else if k == i || i < k < j {
        assert s[k].AwaitingApproval? || s[k].Executing?;
      } else if j <= k {
        assert k < |s| - 1 ==> s[k].Verifying?;
      }
    }
  }

  /**
   All that a turn can go through: the contract, then approval and execution in any mix, then verification once
   something was executed, and at most one ending: completed only from verification, blocked from anywhere.
   */
  predicate WalkShape(s: seq<Stage>, i: nat, j: nat, m: nat) {
    && i <= j <= m <= |s| && (s != [] ==> i >= 1)
    && (forall k :: 0 <= k < i ==> s[k].ContractResolved?)
    && (forall k :: i <= k < j ==> s[k].AwaitingApproval? || s[k].Executing?)
    && (forall k :: j <= k < m ==> s[k].Verifying?)
    && (j < m ==> i < j && s[j - 1].Executing?)
    && (m < |s| ==> m == |s| - 1 && (s[m].Blocked? || (s[m].Completed? && j < m)))
  }

  lemma WalkHasShape(s: seq<Stage>)
    requires Walks(s)
    ensures WalkShape(s, FirstPast(s, 1), FirstPast(s, 2), FirstPast(s, 3))
  {
    hide Walks, FirstPast;
    var i, j, m := FirstPast(s, 1), FirstPast(s, 2), FirstPast(s, 3);
    forall k | 0 <= k < |s|
      ensures k < i ==> s[k].ContractResolved?
      ensures i <= k ==> Phase(s[k]) >= 1
      ensures j <= k ==> Phase(s[k]) >= 2
      ensures m <= k ==> k == |s| - 1 && s[k].Terminal()
    {
      if i <= k {
        PhasesClimb(s, i, k);
      }
      if j <= k {
        PhasesClimb(s, j, k);
      }
      if m <= k {
        PhasesClimb(s, m, k);
        PhasesClimb(s, k, |s| - 1);
      }
    }
    if s != [] {
      StepFacts(s, 0);
    }
    if j < m {
      StepFacts(s, j);
    }
    if m < |s| {
      StepFacts(s, m);
    }
  }

  lemma ShapeIsWalk(s: seq<Stage>, i: nat, j: nat, m: nat)
    requires WalkShape(s, i, j, m)
    ensures Walks(s)
  {
    forall k | 0 <= k < |s| ensures MayFollow(Before(s, k), s[k]) {
      if 0 < k < i {
        assert s[k - 1].ContractResolved? && s[k].ContractResolved?;
      } else if i <= k < j {
        assert s[k].AwaitingApproval? || s[k].Executing?;
      } else if j <= k < m {
        assert s[k].Verifying?;
      }
    }
  }

  /** The transition table allows exactly these stage sequences. */
  lemma WalksIff(s: seq<Stage>)
    ensures Walks(s) <==> exists i, j, m :: WalkShape(s, i, j, m)
  {
    hide Walks, WalkShape, FirstPast;
    if Walks(s) {
      WalkHasShape(s);
    }
    if i, j, m :| WalkShape(s, i, j, m) {
      ShapeIsWalk(s, i, j, m);
    }
  }

  /** The histories of completed turns are exactly those of the shape, so nothing follows the completion. */
  lemma CompletedHistories(session: string, log: seq<Event>, turn: string, k: nat)
    requires Legal(session, log) && k < |History(log, turn)| && History(log, turn)[k].stage.Completed?
    ensures k == |History(log, turn)| - 1
    ensures exists i, j :: CompletedShape(Stages(History(log, turn)), i, j)
  {
    hide Next, Legal, History, LegalHistory, Walks, CompletedShape, FirstPast, Phase, MayFollow;
    HistoriesAreLegal(session, log, turn);
    LegalHistoryWalks(History(log, turn));
    var s := Stages(History(log, turn));
    PhasesClimb(s, k, |s| - 1);
    WalkToCompletedHasShape(s);
  }

  lemma LegalHistoryWalks(h: seq<Checkpoint>)
    requires LegalHistory(h)
    ensures Walks(Stages(h))
  {
  }

  // ---------- Recoverable turns ----------

  lemma LoadedIdentity(log: seq<Event>, session: string, turn: string)
    ensures Load(log, session, turn).Loaded? ==> Load(log, session, turn).checkpoint.turnId == turn && turn != []
  {
  }

  /** The turns with a checkpoint, the most recently active first. */
  method NewestTurns(log: seq<Event>) returns (turns: seq<string>)
    ensures forall t :: t in turns <==> t != [] && LastIndex(log, t) >= 0
    ensures forall a, b :: 0 <= a < b < |turns| ==> LastIndex(log, turns[a]) > LastIndex(log, turns[b])
  {
    turns := [];
    var seen := {};
    var k := |log|;
    while k > 0
      invariant 0 <= k <= |log|
      invariant seen == ToSet(turns)
      invariant forall t :: t in turns <==> t != [] && LastIndex(log, t) >= k
      invariant forall a, b :: 0 <= a < b < |turns| ==> LastIndex(log, turns[a]) > LastIndex(log, turns[b])
    {
      k := k - 1;
      var e := log[k];
      if e.CheckpointEvent? && e.turnId != [] && e.turnId !in seen {
        assert OfTurn(e, e.turnId) && LastIndex(log, e.turnId) == k;
        seen := seen + {e.turnId};
        turns := turns + [e.turnId];
      }
    }
  }

  /** Exactly the turns whose latest checkpoint can be read and is not terminal, each once, newest first. */
  method ListNonterminal(log: seq<Event>, session: string) returns (checkpoints: seq<Checkpoint>)
    ensures forall c: Checkpoint :: c in checkpoints <==>
      Load(log, session, c.turnId) == Loaded(c) && !c.stage.Terminal()
    ensures forall a, b :: 0 <= a < b < |checkpoints| ==>
      LastIndex(log, checkpoints[a].turnId) > LastIndex(log, checkpoints[b].turnId)
  {
    var turns := NewestTurns(log);
    checkpoints := [];
    for k := 0 to |turns|
      invariant forall c: Checkpoint :: c in checkpoints <==>
        c.turnId in turns[..k] && Load(log, session, c.turnId) == Loaded(c) && !c.stage.Terminal()
      invariant forall a, b :: 0 <= a < b < |checkpoints| ==>
        LastIndex(log, checkpoints[a].turnId) > LastIndex(log, checkpoints[b].turnId)
    {
      LoadedIdentity(log, session, turns[k]);
      var loaded := LoadFromEvents(log, session, turns[k]);
      if loaded.Loaded? && !loaded.checkpoint.stage.Terminal() {
        checkpoints := checkpoints + [loaded.checkpoint];
      }
    }
    forall c: Checkpoint | Load(log, session, c.turnId) == Loaded(c) ensures c.turnId in turns {
      LoadedIdentity(log, session, c.turnId);
    }
  }
}

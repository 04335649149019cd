/**
 What continuous voice mode promises, as a FIFO server: utterances are answered one at a time in the order in which
 they were accepted, and the sound of a turn is played completely, in order, before the next turn begins.
 There are no turn ids to go stale, no pending counters, no idle flag and nothing is ever dropped.
 */
module TurnServer {
  import opened Collections

  type Audio = string
  type Chunk = string

  const QUEUE_LIMIT := 8

  /** What a `voice_chat` stream yields; everything but synthesized audio is only reported. */
  datatype Event = Synthesized(chunk: Chunk) | Report(text: string)

  /** The stream of a turn, given its number and its utterance. Streams are finite. */
  type VoiceChat = (nat, Audio) -> seq<Event>

  datatype Phase = NoTurn | Streaming | Draining

  /**
   `accepted` lists every utterance ever enqueued; `begun` of them were given to turns 1, 2, ...; turn k has consumed
   `heard[k - 1]` events of its stream. `emitted` lists all sound put up for playback, `handed` counts what playback
   took, and `inFlight` says whether the last of it is still playing. `finished` counts the completed turns.
   */
  datatype Server = Server(
    maxTurns: nat,
    playback: bool,
    recording: bool,
    accepted: seq<Audio>,
    begun: nat,
    heard: seq<nat>,
    phase: Phase,
    emitted: seq<(nat, Chunk)>,
    handed: nat,
    inFlight: bool,
    finished: nat)

  datatype Action =
    | Endpoint(utterance: Audio)
    | RecordingEnds
    | Consume
    | StreamEnds
    | Take
    | Played

  predicate Audible(playback: bool, e: Event) {
    playback && e.Synthesized? && e.chunk != []
  }

  /** The sound of the first `n` events of a stream. */
  function Sound(playback: bool, turn: nat, events: seq<Event>): seq<(nat, Chunk)> {
    if events == [] then []
    else
      var last := events[|events| - 1];
      Sound(playback, turn, events[..|events| - 1]) + if Audible(playback, last) then [(turn, last.chunk)] else []
  }

  ghost predicate ConsumedOf(chat: VoiceChat, accepted: seq<Audio>, heard: seq<nat>) {
    |heard| <= |accepted| && forall k :: 0 <= k < |heard| ==> heard[k] <= |chat(k + 1, accepted[k])|
  }

  /** The sound of turns 1 .. |heard|, each up to the events it consumed. */
  ghost function SoundOfTurns(chat: VoiceChat, playback: bool, accepted: seq<Audio>, heard: seq<nat>)
    : seq<(nat, Chunk)>
    requires ConsumedOf(chat, accepted, heard)
  {
    if heard == [] then []
    else
      var k := |heard|;
      SoundOfTurns(chat, playback, accepted, heard[..k - 1])
      + Sound(playback, k, chat(k, accepted[k - 1])[..heard[k - 1]])
  }

  function Initial(maxTurns: nat, playback: bool): Server {
    Server(maxTurns, playback, true, [], 0, [], NoTurn, [], 0, false, 0)
  }

  predicate CanAccept(s: Server)
    requires s.begun <= |s.accepted|
  {
    (s.maxTurns > 0 ==> |s.accepted| < s.maxTurns) && |s.accepted| - s.begun < QUEUE_LIMIT
  }

  predicate Quiet(s: Server) {
    s.handed == |s.emitted| && !s.inFlight
  }

  /** Give the next accepted utterance to a turn if none is running. */
  function Begin(s: Server): Server {
    if s.phase == NoTurn && s.begun < |s.accepted| then
      s.(begun := s.begun + 1, heard := s.heard + [0], phase := Streaming)
    else s
  }

  /** Complete the turn when its stream has ended and all its sound was played. */
  function Settle(s: Server): Server {
    if s.phase == Draining && Quiet(s) then Begin(s.(phase := NoTurn, finished := s.finished + 1)) else s
  }

  function Accept(s: Server, utterance: Audio): Server
    requires s.begun <= |s.accepted|
  {
    if utterance != [] && CanAccept(s) then s.(accepted := s.accepted + [utterance]) else s
  }

  /** The recorder stops listening once the last permitted turn is running. */
  function StopAtLimit(s: Server): Server {
    if s.maxTurns > 0 && s.begun >= s.maxTurns && s.phase != NoTurn then s.(recording := false) else s
  }

  ghost predicate Enabled(chat: VoiceChat, s: Server, a: Action) {
    match a
    case Endpoint(_) => s.recording
    case RecordingEnds => s.recording
    case Consume =>
      && s.phase == Streaming && 0 < s.begun == |s.heard| <= |s.accepted|
      && s.heard[s.begun - 1] < |chat(s.begun, s.accepted[s.begun - 1])|
    case StreamEnds => s.phase == Streaming
    case Take => s.handed < |s.emitted| && !s.inFlight
    case Played => s.inFlight
  }

  function ConsumeNext(chat: VoiceChat, s: Server): Server
    requires 0 < s.begun == |s.heard| <= |s.accepted|
    requires s.heard[s.begun - 1] < |chat(s.begun, s.accepted[s.begun - 1])|
  {
    var at := s.heard[s.begun - 1];
    var event := chat(s.begun, s.accepted[s.begun - 1])[at];
    s.(heard := s.heard[s.begun - 1 := at + 1],
       emitted := s.emitted + if Audible(s.playback, event) then [(s.begun, event.chunk)] else [])
  }

  /** One atomic step: the work done between two points at which a task really suspends. */
  ghost function Apply(chat: VoiceChat, s: Server, a: Action): Server
    requires s.begun <= |s.accepted| && Enabled(chat, s, a)
  {
    match a
    case Endpoint(utterance) => StopAtLimit(Begin(Accept(s, utterance)))
    case RecordingEnds => Begin(s).(recording := false)
    case Consume => ConsumeNext(chat, s)
    case StreamEnds => Settle(s.(phase := Draining))
    case Take => s.(handed := s.handed + 1, inFlight := true)
    case Played => Settle(s.(inFlight := false))
  }

  /** What every reachable state satisfies, apart from the two transient facts in `Settled`. */
  ghost predicate Consistent(chat: VoiceChat, s: Server) {
    && s.begun == |s.heard| <= |s.accepted|
    && |s.accepted| - s.begun <= QUEUE_LIMIT
    && (s.maxTurns > 0 ==> |s.accepted| <= s.maxTurns)
    && s.begun == s.finished + (if s.phase == NoTurn then 0 else 1)
    && ConsumedOf(chat, s.accepted, s.heard)
    && s.emitted == SoundOfTurns(chat, s.playback, s.accepted, s.heard)
    && s.handed <= |s.emitted| && (s.inFlight ==> s.handed > 0)
    && (forall i :: 0 <= i < |s.emitted| && s.handed - (if s.inFlight then 1 else 0) <= i ==>
          s.emitted[i].0 == s.begun)
    && (s.phase == NoTurn ==> Quiet(s))
  }

  ghost predicate Settled(s: Server) {
    && (s.phase == NoTurn ==> s.begun == |s.accepted|)
    && (s.phase == Draining ==> !Quiet(s))
  }

  ghost predicate Inv(chat: VoiceChat, s: Server) {
    Consistent(chat, s) && Settled(s)
  }

  lemma InitialInv(chat: VoiceChat, maxTurns: nat, playback: bool)
    ensures Inv(chat, Initial(maxTurns, playback))
  {
  }

  lemma {:induction false} SoundOfLongerBacklog(chat: VoiceChat, playback: bool, accepted: seq<Audio>, heard: seq<nat>,
                                                more: seq<Audio>)
    requires ConsumedOf(chat, accepted, heard)
    ensures ConsumedOf(chat, accepted + more, heard)
    ensures SoundOfTurns(chat, playback, accepted + more, heard) == SoundOfTurns(chat, playback, accepted, heard)
  {
    if heard != [] {
      SoundOfLongerBacklog(chat, playback, accepted, heard[..|heard| - 1], more);
    }
  }

  lemma AcceptKeeps(chat: VoiceChat, s: Server, utterance: Audio)
    requires Consistent(chat, s)
    ensures Consistent(chat, Accept(s, utterance))
  {
    SoundOfLongerBacklog(chat, s.playback, s.accepted, s.heard, [utterance]);
  }

  lemma BeginKeeps(chat: VoiceChat, s: Server)
    requires Consistent(chat, s)
    ensures Consistent(chat, Begin(s))
    ensures Begin(s).phase == NoTurn ==> Begin(s).begun == |s.accepted|
  {
    if s.phase == NoTurn && s.begun < |s.accepted| {
      var heard := s.heard + [0];
      assert heard[..|heard| - 1] == s.heard;
      assert chat(s.begun + 1, s.accepted[s.begun])[..0] == [];
    }
  }

  lemma SettleKeeps(chat: VoiceChat, s: Server)
    requires Consistent(chat, s) && (s.phase == NoTurn ==> s.begun == |s.accepted|)
    ensures Inv(chat, Settle(s))
  {
    if s.phase == Draining && Quiet(s) {
      BeginKeeps(chat, s.(phase := NoTurn, finished := s.finished + 1));
    }
  }

  lemma ConsumeKeeps(chat: VoiceChat, s: Server)
    requires Inv(chat, s) && Enabled(chat, s, Consume)
    ensures Inv(chat, Apply(chat, s, Consume))
  {
    hide ConsumedOf, SoundOfTurns;
    ConsumeAddsSound(chat, s);
  }

  lemma ConsumeAddsSound(chat: VoiceChat, s: Server)
    requires ConsumedOf(chat, s.accepted, s.heard) && 0 < s.begun == |s.heard| <= |s.accepted|
    requires s.heard[s.begun - 1] < |chat(s.begun, s.accepted[s.begun - 1])|
    requires s.emitted == SoundOfTurns(chat, s.playback, s.accepted, s.heard)
    ensures var t := ConsumeNext(chat, s);
      ConsumedOf(chat, s.accepted, t.heard) && t.emitted == SoundOfTurns(chat, s.playback, s.accepted, t.heard)
  {
    var k, t := s.begun, ConsumeNext(chat, s);
    var events, at := chat(k, s.accepted[k - 1]), s.heard[k - 1];
    assert t.heard[..k - 1] == s.heard[..k - 1];
    assert events[..at + 1][..at] == events[..at];
    forall j | 0 <= j < |t.heard| ensures t.heard[j] <= |chat(j + 1, t.accepted[j])| {
      assert s.heard[j] <= |chat(j + 1, s.accepted[j])|;
    }
  }

  lemma PlaybackKeeps(chat: VoiceChat, s: Server, a: Action)
    requires Inv(chat, s) && Enabled(chat, s, a) && (a.StreamEnds? || a.Take? || a.Played?)
    ensures Inv(chat, Apply(chat, s, a))
  {
    hide ConsumedOf, SoundOfTurns, Settle;
    match a
    case StreamEnds => SettleKeeps(chat, s.(phase := Draining));
    case Take =>
    case Played => SettleKeeps(chat, s.(inFlight := false));
  }

  lemma EndpointKeeps(chat: VoiceChat, s: Server, utterance: Audio)
    requires Inv(chat, s)
    ensures Inv(chat, StopAtLimit(Begin(Accept(s, utterance))))
  {
    hide ConsumedOf, SoundOfTurns;
    AcceptKeeps(chat, s, utterance);
    BeginKeeps(chat, Accept(s, utterance));
  }

  lemma RecorderKeeps(chat: VoiceChat, s: Server, a: Action)
    requires Inv(chat, s) && Enabled(chat, s, a) && (a.Endpoint? || a.RecordingEnds?)
    ensures Inv(chat, Apply(chat, s, a))
  {
    hide ConsumedOf, SoundOfTurns, Accept, StopAtLimit;
    match a
    case Endpoint(utterance) => EndpointKeeps(chat, s, utterance);
    case RecordingEnds => BeginKeeps(chat, s);
  }

  lemma StepKeepsInv(chat: VoiceChat, s: Server, a: Action)
    requires Inv(chat, s) && Enabled(chat, s, a)
    ensures Inv(chat, Apply(chat, s, a))
  {
    hide Inv, Enabled, Apply;
    if a.StreamEnds? || a.Take? || a.Played? {
      PlaybackKeeps(chat, s, a);
    } else if a.Consume? {
      ConsumeKeeps(chat, s);
    } else {
      RecorderKeeps(chat, s, a);
    }
  }

  /** What an endpoint does, by the limits themselves: who is accepted, who starts, and when listening stops. */
  lemma EndpointEffect(chat: VoiceChat, s: Server, utterance: Audio)
    requires Inv(chat, s) && s.recording
    ensures var t := Apply(chat, s, Endpoint(utterance));
      var waiting := s.accepted[s.begun..];
      var accepts := utterance != [] && |waiting| < 8 && (s.maxTurns == 0 || s.begun + |waiting| < s.maxTurns);
      var starts := accepts && s.phase == NoTurn;
      && t.accepted == s.accepted + (if accepts then [utterance] else [])
      && t.begun == s.begun + (if starts then 1 else 0)
      && t.accepted[..t.begun] == s.accepted[..s.begun] + (if starts then [utterance] else [])
      && t.accepted[t.begun..] == waiting + (if accepts && !starts then [utterance] else [])
      && (t.phase == NoTurn <==> s.phase == NoTurn && !starts)
      && (t.recording <==> s.maxTurns == 0 || t.begun < s.maxTurns || t.phase == NoTurn)
  {
    hide ConsumedOf, SoundOfTurns;
    var t := Apply(chat, s, Endpoint(utterance));
    assert s.phase == NoTurn ==> s.accepted[s.begun..] == [];
    assert s.accepted[..|s.accepted|] == s.accepted;
  }

  /** When a turn is over and what follows it. */
  lemma SettleEffect(chat: VoiceChat, s: Server)
    requires Consistent(chat, s)
    ensures var t := Settle(s);
      var ends := s.phase == Draining && s.handed == |s.emitted| && !s.inFlight;
      var waiting := s.accepted[s.begun..];
      && t.accepted == s.accepted && t.finished == s.finished + (if ends then 1 else 0)
      && (!ends ==> t == s)
      && (ends && waiting == [] ==> t.phase == NoTurn && t.begun == s.begun)
      && (ends && waiting != [] ==>
            && t.phase == Streaming && t.begun == s.begun + 1 && t.accepted[t.begun..] == waiting[1..]
            && t.accepted[..t.begun] == s.accepted[..s.begun] + [waiting[0]])
  {
    hide ConsumedOf, SoundOfTurns;
  }

  // ---------- Runs ----------

  ghost predicate IsRun(chat: VoiceChat, states: seq<Server>, actions: seq<Action>) {
    && |states| == |actions| + 1
    && forall i :: 0 <= i < |actions| ==>
      && states[i].begun <= |states[i].accepted| && Enabled(chat, states[i], actions[i])
      && states[i + 1] == Apply(chat, states[i], actions[i])
  }

  lemma {:induction false} RunsKeepInv(chat: VoiceChat, states: seq<Server>, actions: seq<Action>, k: nat)
    requires IsRun(chat, states, actions) && Inv(chat, states[0]) && k < |states|
    ensures Inv(chat, states[k])
  {
    if k > 0 {
      RunsKeepInv(chat, states, actions, k - 1);
      StepKeepsInv(chat, states[k - 1], actions[k - 1]);
    }
  }

  /** Histories only grow: nothing accepted, emitted or handed to playback is ever taken back. */
  ghost predicate Extends(later: Server, earlier: Server) {
    && earlier.accepted <= later.accepted && earlier.emitted <= later.emitted
    && earlier.handed <= later.handed && earlier.finished <= later.finished && earlier.begun <= later.begun
  }

  lemma StepExtends(chat: VoiceChat, s: Server, a: Action)
    requires s.begun <= |s.accepted| && Enabled(chat, s, a)
    ensures Extends(Apply(chat, s, a), s)
  {
    hide ConsumedOf, SoundOfTurns, Quiet;
  }

  lemma RunStep(chat: VoiceChat, states: seq<Server>, actions: seq<Action>, k: nat)
    requires IsRun(chat, states, actions) && k + 1 < |states|
    ensures k < |actions|
    ensures states[k].begun <= |states[k].accepted| && Enabled(chat, states[k], actions[k])
    ensures states[k + 1] == Apply(chat, states[k], actions[k])
  {
    hide Enabled, Apply;
  }

  lemma ExtendsReflexive(s: Server)
    ensures Extends(s, s)
  {
  }

  lemma ExtendsTransitive(c: Server, b: Server, a: Server)
    requires Extends(c, b) && Extends(b, a)
    ensures Extends(c, a)
  {
  }

  lemma {:induction false} RunsExtendHistories(chat: VoiceChat, states: seq<Server>, actions: seq<Action>, i: nat,
                                               j: nat)
    requires IsRun(chat, states, actions) && i <= j < |states|
    ensures Extends(states[j], states[i])
    decreases j
  {
    hide *;
    if i == j {
      ExtendsReflexive(states[i]);
    } else {
      RunStep(chat, states, actions, j - 1);
      RunsExtendHistories(chat, states, actions, i, j - 1);
      StepExtends(chat, states[j - 1], actions[j - 1]);
      ExtendsTransitive(states[j], states[j - 1], states[i]);
    }
  }

  /** Once the session is idle, every accepted utterance was answered and all of its sound was played. */
  lemma IdleRunsAnsweredEverything(chat: VoiceChat, maxTurns: nat, playback: bool, states: seq<Server>,
                                   actions: seq<Action>, k: nat)
    requires IsRun(chat, states, actions) && states[0] == Initial(maxTurns, playback) && k < |states|
    requires states[k].phase == NoTurn
    ensures states[k].finished == |states[k].accepted| && ConsumedOf(chat, states[k].accepted, states[k].heard)
    ensures |states[k].heard| == |states[k].accepted| && Quiet(states[k])
    ensures states[k].emitted[..states[k].handed]
      == SoundOfTurns(chat, states[k].playback, states[k].accepted, states[k].heard)
  {
    InitialInv(chat, maxTurns, playback);
    RunsKeepInv(chat, states, actions, k);
    assert states[k].emitted[..states[k].handed] == states[k].emitted;
  }

  // ---------- Progress ----------

  /** While a turn runs, a task other than the recorder can move. */
  lemma BusyIsNotStuck(chat: VoiceChat, s: Server)
    requires Inv(chat, s) && s.phase != NoTurn
    ensures exists a :: (a == StreamEnds || a == Take || a == Played) && Enabled(chat, s, a)
  {
    if s.phase == Streaming {
      assert Enabled(chat, s, StreamEnds);
    } else if s.inFlight {
      assert Enabled(chat, s, Played);
    } else {
      assert Enabled(chat, s, Take);
    }
  }

  function TurnsLeft(s: Server): int {
    |s.accepted| - s.begun + if s.phase == NoTurn then 0 else 1
  }

  ghost function StreamLeft(chat: VoiceChat, s: Server): int {
    if s.phase == Streaming && 0 < s.begun == |s.heard| <= |s.accepted|
    then 1 + |chat(s.begun, s.accepted[s.begun - 1])| - s.heard[s.begun - 1] else 0
  }

  function PlaybackLeft(s: Server): int {
    2 * (|s.emitted| - s.handed) + if s.inFlight then 1 else 0
  }

  ghost predicate RanksBelow(chat: VoiceChat, t: Server, s: Server) {
    || TurnsLeft(t) < TurnsLeft(s)
    || (TurnsLeft(t) == TurnsLeft(s) && StreamLeft(chat, t) < StreamLeft(chat, s))
    || (TurnsLeft(t) == TurnsLeft(s) && StreamLeft(chat, t) == StreamLeft(chat, s) && PlaybackLeft(t) < PlaybackLeft(s))
  }

  /** Every step of a turn or of playback brings the session closer to idle, and touches nothing of the recorder's. */
  ghost predicate ProgressesFrom(chat: VoiceChat, t: Server, s: Server) {
    && RanksBelow(chat, t, s) && TurnsLeft(s) >= 0 && StreamLeft(chat, s) >= 0 && PlaybackLeft(s) >= 0
    && t.accepted == s.accepted && t.recording == s.recording
  }

  lemma StepsProgress(chat: VoiceChat, s: Server, a: Action)
    requires Inv(chat, s) && Enabled(chat, s, a) && !a.Endpoint? && !a.RecordingEnds?
    ensures ProgressesFrom(chat, Apply(chat, s, a), s)
  {
    assert s.phase == Streaming ==> s.heard[s.begun - 1] <= |chat(s.begun - 1 + 1, s.accepted[s.begun - 1])|;
  }
}

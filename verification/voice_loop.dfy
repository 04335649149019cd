/**
 The continuous voice loop: recorder, turn tasks and playback worker share a queue, one active turn, per-turn pending
 counts and an idle flag. Every public method is one atomic step, from one point where a task really suspends to the
 next. Each step is proved to be a step of the FIFO server, so the guards against stale turns never fire and the
 clearing of the queue never drops an utterance.
 */
module VoiceLoop {
  import opened Collections
  import opened TurnServer

  /** The shared variables of the loop, and three logs: what turns were given, what was played, what was completed. */
  datatype View = View(
    queued: seq<Audio>,
    nextTurnId: nat,
    active: Option<nat>,
    started: nat,
    processingDone: set<nat>,
    pending: map<nat, nat>,
    playbackQueue: seq<(nat, Chunk)>,
    tasks: map<nat, seq<Event>>,
    playing: Option<(nat, Chunk)>,
    recording: bool,
    spoken: seq<Audio>,
    played: seq<(nat, Chunk)>,
    finalized: seq<nat>)

  function UpTo(n: nat): seq<nat> {
    if n == 0 then [] else UpTo(n - 1) + [n]
  }

  ghost predicate Shaped(chat: VoiceChat, s: Server) {
    && s.begun == |s.heard| <= |s.accepted|
    && s.handed <= |s.emitted| && (s.inFlight ==> s.handed > 0)
    && s.begun == s.finished + (if s.phase == NoTurn then 0 else 1)
    && (s.phase == NoTurn ==> Quiet(s))
    && (s.phase == Streaming ==> s.heard[s.begun - 1] <= |chat(s.begun, s.accepted[s.begun - 1])|)
  }

  /** What the loop's variables hold when the server is in state `s`. */
  ghost function ViewOf(chat: VoiceChat, s: Server): View
    requires Shaped(chat, s)
  {
    var idle := s.phase == NoTurn;
    View(
      s.accepted[s.begun..], s.begun, if idle then None else Some(s.begun), s.begun,
      if s.phase == Draining then {s.begun} else {},
      if idle then map[] else map[s.begun := |s.emitted| - s.handed + if s.inFlight then 1 else 0],
      s.emitted[s.handed..],
      if s.phase == Streaming
        then map[s.begun := chat(s.begun, s.accepted[s.begun - 1])[s.heard[s.begun - 1]..]] else map[],
      if s.inFlight then Some(s.emitted[s.handed - 1]) else None,
      s.recording, s.accepted[..s.begun], s.emitted[..s.handed], UpTo(s.finished))
  }

  lemma WithinLimit(chat: VoiceChat, s: Server)
    requires Consistent(chat, s)
    ensures s.maxTurns > 0 ==> |s.accepted| <= s.maxTurns
  {
  }

  lemma ConsistentIsShaped(chat: VoiceChat, s: Server)
    requires Consistent(chat, s)
    ensures Shaped(chat, s)
  {
    if s.phase == Streaming {
      assert s.heard[s.begun - 1] <= |chat(s.begun - 1 + 1, s.accepted[s.begun - 1])|;
    }
  }

  lemma ViewOfAccept(chat: VoiceChat, s: Server, utterance: Audio)
    requires Shaped(chat, s)
    ensures Shaped(chat, Accept(s, utterance))
    ensures ViewOf(chat, Accept(s, utterance)) ==
      if utterance != [] && CanAccept(s)
      then ViewOf(chat, s).(queued := ViewOf(chat, s).queued + [utterance]) else ViewOf(chat, s)
  {
    var t := Accept(s, utterance);
    if t != s {
      assert t.accepted[t.begun..] == s.accepted[s.begun..] + [utterance];
      assert t.accepted[..t.begun] == s.accepted[..s.begun];
    }
  }

  lemma ViewOfBegin(chat: VoiceChat, s: Server)
    requires Shaped(chat, s)
    ensures Shaped(chat, Begin(s))
    ensures s.phase != NoTurn || s.begun == |s.accepted| ==> Begin(s) == s
    ensures s.phase == NoTurn && s.begun < |s.accepted| ==>
      var v, id := ViewOf(chat, s), s.begun + 1;
      && v.queued != [] && v.nextTurnId == v.started == s.begun && v.pending == map[] && v.tasks == map[]
      && ViewOf(chat, Begin(s)) == v.(
        queued := v.queued[1..], nextTurnId := id, active := Some(id), started := id,
        pending := map[id := 0], tasks := map[id := chat(id, v.queued[0])], spoken := v.spoken + [v.queued[0]])
  {
    if s.phase == NoTurn && s.begun < |s.accepted| {
      var t := Begin(s);
      assert t.accepted[t.begun..] == s.accepted[s.begun..][1..];
      assert t.accepted[..t.begun] == s.accepted[..s.begun] + [s.accepted[s.begun]];
      assert chat(t.begun, s.accepted[s.begun])[0..] == chat(t.begun, s.accepted[s.begun]);
    }
  }

  lemma ViewOfFinish(chat: VoiceChat, s: Server)
    requires Shaped(chat, s) && s.phase == Draining && Quiet(s)
    ensures var t := s.(phase := NoTurn, finished := s.finished + 1);
      && Shaped(chat, t)
      && ViewOf(chat, t) == ViewOf(chat, s).(
        active := None, processingDone := {}, pending := map[], finalized := ViewOf(chat, s).finalized + [s.begun])
  {
  }

  lemma ViewOfConsume(chat: VoiceChat, s: Server)
    requires Inv(chat, s) && Enabled(chat, s, Consume)
    requires Shaped(chat, s) && Shaped(chat, ConsumeNext(chat, s))
    ensures var v, id, event := ViewOf(chat, s), s.begun, chat(s.begun, s.accepted[s.begun - 1])[s.heard[s.begun - 1]];
      && v.tasks.Keys == {id} && v.tasks[id] != [] && event == v.tasks[id][0]
      && id in v.pending && v.active == Some(id)
      && ViewOf(chat, ConsumeNext(chat, s)) ==
        var w := v.(tasks := v.tasks[id := v.tasks[id][1..]]);
        if Audible(s.playback, event)
        then w.(pending := v.pending[id := v.pending[id] + 1],
                playbackQueue := v.playbackQueue + [(id, event.chunk)]) else w
  {
    var events, at, t := chat(s.begun, s.accepted[s.begun - 1]), s.heard[s.begun - 1], ConsumeNext(chat, s);
    assert events[at + 1..] == events[at..][1..];
    assert t.emitted[..t.handed] == s.emitted[..s.handed];
    assert ViewOf(chat, t).tasks == ViewOf(chat, s).tasks[s.begun := events[at..][1..]];
    assert ViewOf(chat, s).pending.Keys == {s.begun};
    if Audible(s.playback, events[at]) {
      assert t.emitted[t.handed..] == s.emitted[s.handed..] + [(s.begun, events[at].chunk)];
    }
  }

  lemma ViewOfTake(chat: VoiceChat, s: Server)
    requires Inv(chat, s) && Enabled(chat, s, Take) && Shaped(chat, s)
    ensures var v, t := ViewOf(chat, s), s.(handed := s.handed + 1, inFlight := true);
      && Shaped(chat, t) && v.playbackQueue != [] && Some(v.playbackQueue[0].0) == v.active
      && ViewOf(chat, t) == v.(playbackQueue := v.playbackQueue[1..], playing := Some(v.playbackQueue[0]),
                               played := v.played + [v.playbackQueue[0]])
  {
    var t := s.(handed := s.handed + 1, inFlight := true);
    assert s.emitted[s.handed].0 == s.begun;
    assert t.emitted[t.handed..] == s.emitted[s.handed..][1..];
    assert t.emitted[..t.handed] == s.emitted[..s.handed] + [s.emitted[s.handed]];
  }

  lemma ViewOfPlayed(chat: VoiceChat, s: Server)
    requires Inv(chat, s) && s.inFlight && Shaped(chat, s)
    ensures var v, t := ViewOf(chat, s), s.(inFlight := false);
      && Consistent(chat, t) && Shaped(chat, t) && s.phase != NoTurn
      && v.playing != None && v.playing.value.0 == s.begun && v.pending.Keys == {s.begun} && v.pending[s.begun] > 0
      && ViewOf(chat, t) == v.(playing := None, pending := map[s.begun := v.pending[s.begun] - 1])
  {
    assert s.emitted[s.handed - 1].0 == s.begun;
  }

  lemma ViewOfStreamEnd(chat: VoiceChat, s: Server)
    requires Inv(chat, s) && s.phase == Streaming && Shaped(chat, s)
    ensures var t := s.(phase := Draining);
      && Consistent(chat, t) && Shaped(chat, t)
      && ViewOf(chat, t) == ViewOf(chat, s).(tasks := map[], processingDone := {s.begun})
  {
  }

  lemma SettleCases(s: Server)
    ensures Settle(s) ==
      if s.phase == Draining && Quiet(s) then Begin(s.(phase := NoTurn, finished := s.finished + 1)) else s
  {
  }

  lemma IdleIsCaughtUp(chat: VoiceChat, s: Server)
    requires Inv(chat, s)
    ensures s.phase == NoTurn ==> s.begun == |s.accepted|
  {
  }

  /** What an endpoint makes of the loop's variables. */
  ghost predicate EndpointServed(v: View, w: View, maxTurns: nat, utterance: Audio) {
    var accepts := utterance != [] && |v.queued| < 8 && (maxTurns == 0 || v.started + |v.queued| < maxTurns);
    var starts := accepts && v.active == None;
    && w.started == v.started + (if starts then 1 else 0)
    && w.active == (if starts then Some(v.started + 1) else v.active)
    && w.spoken == v.spoken + (if starts then [utterance] else [])
    && w.queued == v.queued + (if accepts && !starts then [utterance] else [])
    && (w.recording <==> maxTurns == 0 || w.started < maxTurns || w.active == None)
  }

  lemma EndpointView(chat: VoiceChat, s: Server, utterance: Audio)
    requires Inv(chat, s) && s.recording && Shaped(chat, s)
    requires Shaped(chat, Apply(chat, s, Endpoint(utterance)))
    ensures EndpointServed(ViewOf(chat, s), ViewOf(chat, Apply(chat, s, Endpoint(utterance))), s.maxTurns, utterance)
    ensures var v := ViewOf(chat, s);
      Apply(chat, s, Endpoint(utterance)).accepted == s.accepted
        + if utterance != [] && |v.queued| < 8 && (s.maxTurns == 0 || v.started + |v.queued| < s.maxTurns)
          then [utterance] else []
  {
    EndpointEffect(chat, s, utterance);
    hide Inv, Apply;
  }

  lemma RecordingEndView(chat: VoiceChat, s: Server)
    requires Shaped(chat, s)
    ensures Shaped(chat, s.(recording := false))
    ensures ViewOf(chat, s.(recording := false)) == ViewOf(chat, s).(recording := false)
  {
  }

  /** The turn is released and the oldest waiting utterance, if any, is spoken next; or nothing happens yet. */
  ghost predicate TurnEnded(v: View, w: View, ends: bool, turnId: nat) {
    && w.finalized == v.finalized + (if ends then [turnId] else [])
    && (!ends ==> w.active == Some(turnId) && w.spoken == v.spoken && w.queued == v.queued)
    && (ends && v.queued == [] ==> w.active == None && w.spoken == v.spoken && w.queued == [])
    && (ends && v.queued != [] ==>
          w.active == Some(turnId + 1) && w.spoken == v.spoken + [v.queued[0]] && w.queued == v.queued[1..])
  }

  lemma SettledView(chat: VoiceChat, s: Server)
    requires Consistent(chat, s) && s.phase != NoTurn && Shaped(chat, s) && Shaped(chat, Settle(s))
    ensures var v := ViewOf(chat, s);
      && v.active == Some(s.begun) && s.begun in v.pending
      && TurnEnded(v, ViewOf(chat, Settle(s)), s.begun in v.processingDone && v.pending[s.begun] == 0, s.begun)
  {
    hide Consistent, Settle, Quiet;
    SettleEffect(chat, s);
    CountUp(s.finished);
    hide UpTo;
  }

  lemma CountUp(n: nat)
    ensures UpTo(n + 1) == UpTo(n) + [n + 1]
  {
  }

  class Loop {
    const maxTurns: nat
    const playback: bool
    const chat: VoiceChat

    var queuedUtterances: seq<Audio>
    var nextTurnId: nat
    var activeTurnId: Option<nat>
    var startedTurns: nat
    var turnProcessingDone: set<nat>
    var turnPendingPlaybackChunks: map<nat, nat>
    var turnsIdle: bool
    var playbackQueue: seq<(nat, Chunk)>
    var turnTasks: map<nat, seq<Event>>      // what each live turn task has still to read from its stream
    var playing: Option<(nat, Chunk)>        // what the playback worker is playing
    var recording: bool

    ghost var spoken: seq<Audio>
    ghost var played: seq<(nat, Chunk)>
    ghost var finalized: seq<nat>
    ghost var server: Server

    ghost predicate Holds(v: View)
      reads `queuedUtterances, `nextTurnId, `activeTurnId, `startedTurns, `turnProcessingDone
      reads `turnPendingPlaybackChunks, `playbackQueue, `turnTasks, `playing, `recording, `spoken, `played, `finalized
    {
      && queuedUtterances == v.queued && nextTurnId == v.nextTurnId && activeTurnId == v.active
      && startedTurns == v.started && turnProcessingDone == v.processingDone
      && turnPendingPlaybackChunks == v.pending && playbackQueue == v.playbackQueue && turnTasks == v.tasks
      && playing == v.playing && recording == v.recording
      && spoken == v.spoken && played == v.played && finalized == v.finalized
    }

    ghost predicate Represents(s: Server)
      reads `queuedUtterances, `nextTurnId, `activeTurnId, `startedTurns, `turnProcessingDone
      reads `turnPendingPlaybackChunks, `playbackQueue, `turnTasks, `playing, `recording, `spoken, `played, `finalized
    {
      && s.maxTurns == maxTurns && s.playback == playback
      && Shaped(chat, s) && Holds(ViewOf(chat, s))
    }

    ghost predicate Valid()
      reads this
    {
      Represents(server) && Inv(chat, server) && (turnsIdle <==> server.phase == NoTurn)
    }

    constructor (maxTurns: nat, playback: bool, chat: VoiceChat)
      ensures Valid() && server == Initial(maxTurns, playback)
      ensures this.chat == chat && this.maxTurns == maxTurns && this.playback == playback
    {
      this.maxTurns, this.playback, this.chat := maxTurns, playback, chat;
      queuedUtterances, nextTurnId, activeTurnId, startedTurns := [], 0, None, 0;
      turnProcessingDone, turnPendingPlaybackChunks, turnsIdle := {}, map[], true;
      playbackQueue, turnTasks, playing, recording := [], map[], None, true;
      spoken, played, finalized, server := [], [], [], Initial(maxTurns, playback);
      new;
      InitialInv(chat, maxTurns, playback);
    }

    /** The variables the guards look at, in the server's terms. */
    lemma GuardsRead()
      requires Represents(server)
      ensures server.maxTurns == maxTurns && server.playback == playback && recording == server.recording
      ensures activeTurnId == if server.phase == NoTurn then None else Some(server.begun)
      ensures startedTurns == server.begun <= |server.accepted|
      ensures |queuedUtterances| == |server.accepted| - server.begun
      ensures turnProcessingDone == if server.phase == Draining then {server.begun} else {}
      ensures server.phase != NoTurn ==>
        && turnPendingPlaybackChunks.Keys == {server.begun}
        && (turnPendingPlaybackChunks[server.begun] > 0 <==> !Quiet(server))
      ensures turnTasks.Keys == if server.phase == Streaming then {server.begun} else {}
    {
    }

    /** The variables at a glance. */
    ghost function Shown(): View
      reads `queuedUtterances, `nextTurnId, `activeTurnId, `startedTurns, `turnProcessingDone
      reads `turnPendingPlaybackChunks, `playbackQueue, `turnTasks, `playing, `recording, `spoken, `played, `finalized
    {
      View(queuedUtterances, nextTurnId, activeTurnId, startedTurns, turnProcessingDone, turnPendingPlaybackChunks,
           playbackQueue, turnTasks, playing, recording, spoken, played, finalized)
    }

    lemma ShowsTheServer()
      requires Represents(server)
      ensures server.maxTurns == maxTurns && Shaped(chat, server) && Shown() == ViewOf(chat, server)
    {
    }

    /** What the loop promises of its own variables in every valid state. */
    lemma ValidLoopFacts()
      requires Valid()
      ensures turnsIdle <==> activeTurnId == None && queuedUtterances == []
      ensures |queuedUtterances| <= 8
      ensures maxTurns > 0 ==> startedTurns + |queuedUtterances| <= maxTurns
      ensures !WouldDropUtterances()
      ensures playbackQueue != [] ==> activeTurnId == Some(playbackQueue[0].0)
      ensures playing != None ==> activeTurnId == Some(playing.value.0)
      ensures startedTurns <= |server.accepted| && spoken == server.accepted[..startedTurns]
    {
      GuardsRead();
      if playbackQueue != [] {
        assert server.emitted[server.handed].0 == server.begun;
      }
      if playing != None {
        assert server.emitted[server.handed - 1].0 == server.begun;
      }
    }

    // ---------- The closures ----------

    method StartTurn(audio: Audio)
      modifies `nextTurnId, `activeTurnId, `startedTurns, `turnsIdle, `turnPendingPlaybackChunks, `turnTasks, `spoken
      ensures nextTurnId == old(nextTurnId) + 1 && startedTurns == old(startedTurns) + 1
      ensures activeTurnId == Some(nextTurnId) && !turnsIdle
      ensures turnPendingPlaybackChunks == old(turnPendingPlaybackChunks)[nextTurnId := 0]
      ensures turnTasks == old(turnTasks)[nextTurnId := chat(nextTurnId, audio)]
      ensures spoken == old(spoken) + [audio]
    {
      nextTurnId := nextTurnId + 1;
      var turnId := nextTurnId;
      activeTurnId := Some(turnId);
      startedTurns := startedTurns + 1;
      turnsIdle := false;
      turnPendingPlaybackChunks := turnPendingPlaybackChunks[turnId := 0];
      turnTasks := turnTasks[turnId := chat(turnId, audio)];
      spoken := spoken + [audio];
    }

    predicate CanEnqueueUtterance()
      reads this
    {
      if maxTurns > 0 && maxTurns - startedTurns - |queuedUtterances| <= 0 then false
      else |queuedUtterances| < 8
    }

    /** The case in which queued utterances would be thrown away. */
    predicate WouldDropUtterances()
      reads this
    {
      activeTurnId == None && queuedUtterances != [] && maxTurns > 0 && startedTurns >= maxTurns
    }

    /** `popleft` and start. */
    method StartOldest()
      requires Represents(server) && server.phase == NoTurn && server.begun < |server.accepted|
      modifies this
      ensures recording == old(recording) && !turnsIdle
      ensures Represents(server) && server == Begin(old(server))
    {
      ViewOfBegin(chat, server);
      hide ViewOf, Shaped, Begin;
      var nextAudio := queuedUtterances[0];
      queuedUtterances := queuedUtterances[1..];
      StartTurn(nextAudio);
      server := Begin(server);
    }

    method MaybeStartNextTurn()
      requires Represents(server)
      modifies this
      ensures recording == old(recording)
      ensures old(WouldDropUtterances()) ==> queuedUtterances == []
      ensures !old(WouldDropUtterances()) ==> Represents(server) && server == Begin(old(server))
      ensures !old(WouldDropUtterances()) ==> turnsIdle == (old(turnsIdle) && server == old(server))
    {
      GuardsRead();
      hide Represents;
      if activeTurnId != None {
        return;
      }
      if queuedUtterances == [] {
        return;
      }
      if maxTurns > 0 && startedTurns >= maxTurns {
        queuedUtterances := [];
        return;
      }
      StartOldest();
    }

    method ReleaseTurn(turnId: nat)
      requires Represents(server) && server.phase == Draining && Quiet(server) && turnId == server.begun
      modifies `activeTurnId, `turnProcessingDone, `turnPendingPlaybackChunks, `finalized, `server
      ensures Represents(server) && server == old(server).(phase := NoTurn, finished := old(server).finished + 1)
    {
      ViewOfFinish(chat, server);
      activeTurnId := None;
      turnProcessingDone := turnProcessingDone - {turnId};
      turnPendingPlaybackChunks := turnPendingPlaybackChunks - {turnId};
      assert turnProcessingDone == {} && turnPendingPlaybackChunks == map[];
      finalized := finalized + [turnId];
      server := server.(phase := NoTurn, finished := server.finished + 1);
    }

    /** Release the turn, start the next one if there is one, and raise the idle flag if there is none. */
    method FinishTurn(turnId: nat)
      requires Represents(server) && server.phase == Draining && Quiet(server) && turnId == server.begun && !turnsIdle
      requires server.maxTurns > 0 ==> |server.accepted| <= server.maxTurns
      modifies this
      ensures Represents(server) && server == Begin(old(server).(phase := NoTurn, finished := old(server).finished + 1))
      ensures turnsIdle <==> server.phase == NoTurn && server.begun == |server.accepted|
    {
      hide Represents;
      ReleaseTurn(turnId);
      GuardsRead();
      MaybeStartNextTurn();
      GuardsRead();
      if activeTurnId == None && queuedUtterances == [] {
        turnsIdle := true;
      }
    }

    method FinalizeTurnIfReady(turnId: nat)
      requires Represents(server) && Consistent(chat, server) && server.phase != NoTurn && !turnsIdle
      requires turnId == server.begun
      modifies this
      ensures Valid() && server == Settle(old(server))
    {
      hide Represents, Consistent, Inv, Begin, Settle, Quiet;
      SettleKeeps(chat, server);
      WithinLimit(chat, server);
      IdleIsCaughtUp(chat, Settle(server));
      SettleCases(server);
      GuardsRead();
      if activeTurnId == Some(turnId) {
        if turnId in turnProcessingDone {
          if !(turnId in turnPendingPlaybackChunks && turnPendingPlaybackChunks[turnId] > 0) {
            FinishTurn(turnId);
          }
        }
      }
    }

    // ---------- The recorder ----------

    method Enqueue(utterance: Audio)
      requires Represents(server)
      modifies `queuedUtterances, `server
      ensures Represents(server) && server == Accept(old(server), utterance)
    {
      ViewOfAccept(chat, server, utterance);
      if utterance != [] && CanEnqueueUtterance() {
        queuedUtterances := queuedUtterances + [utterance];
      }
      server := Accept(server, utterance);
    }

    method StopRecording()
      requires Represents(server)
      modifies `recording, `server
      ensures Represents(server) && server == old(server).(recording := false)
    {
      recording := false;
      server := server.(recording := false);
    }

    method EnqueueAndStart(utterance: Audio)
      requires Represents(server) && Consistent(chat, server)
      modifies this
      ensures Represents(server) && server == Begin(Accept(old(server), utterance)) && recording == old(recording)
      ensures turnsIdle == (old(turnsIdle) && server.phase == old(server).phase)
    {
      AcceptKeeps(chat, server, utterance);
      WithinLimit(chat, Accept(server, utterance));
      hide Represents, Consistent;
      Enqueue(utterance);
      GuardsRead();
      MaybeStartNextTurn();
    }

    /**
     From the end of an utterance to the next wait for a chunk, or out of the loop. The utterance is accepted if it is
     not empty and both limits leave room for it; it is spoken at once when no turn is active.
     */
    method OnEndpoint(utterance: Audio)
      requires Valid() && recording
      modifies this
      ensures Valid() && server == Apply(chat, old(server), Endpoint(utterance))
      ensures
        var accepts := utterance != [] && |old(queuedUtterances)| < 8
                       && (maxTurns == 0 || old(startedTurns) + |old(queuedUtterances)| < maxTurns);
        server.accepted == old(server.accepted) + (if accepts then [utterance] else [])
      ensures EndpointServed(old(Shown()), Shown(), maxTurns, utterance)
    {
      hide Represents, Inv, Apply, EndpointServed;
      GuardsRead();
      ShowsTheServer();
      ghost var before := server;
      ServeEndpoint(utterance);
      ShowsTheServer();
      EndpointView(chat, before, utterance);
    }

    method ServeEndpoint(utterance: Audio)
      requires Valid() && recording
      modifies this
      ensures Valid() && server == Apply(chat, old(server), Endpoint(utterance))
    {
      GuardsRead();
      StepKeepsInv(chat, server, Endpoint(utterance));
      EnqueueAndStart(utterance);
      hide Represents, Inv;
      GuardsRead();
      if maxTurns > 0 && startedTurns >= maxTurns && activeTurnId != None {
        StopRecording();
      }
    }

    /** The recorder's loop is left: start what is queued if nothing runs, then wait for `turns_idle`. */
    method OnRecordingEnd()
      requires Valid() && recording
      modifies this
      ensures Valid() && server == Apply(chat, old(server), RecordingEnds)
      ensures Shown() == old(Shown()).(recording := false)
    {
      StepKeepsInv(chat, server, RecordingEnds);
      WithinLimit(chat, server);
      IdleIsCaughtUp(chat, server);
      ShowsTheServer();
      RecordingEndView(chat, server);
      hide Represents, Inv, Consistent, ViewOf, Shaped;
      GuardsRead();
      MaybeStartNextTurn();
      StopRecording();
      ShowsTheServer();
    }

    lemma Revalidate()
      requires server.maxTurns == maxTurns && server.playback == playback && Inv(chat, server)
      requires Shaped(chat, server) && (turnsIdle <==> server.phase == NoTurn)
      requires var v := ViewOf(chat, server);
        && queuedUtterances == v.queued && nextTurnId == v.nextTurnId && activeTurnId == v.active
        && startedTurns == v.started && turnProcessingDone == v.processingDone
        && turnPendingPlaybackChunks == v.pending && playbackQueue == v.playbackQueue && turnTasks == v.tasks
        && playing == v.playing && recording == v.recording
        && spoken == v.spoken && played == v.played && finalized == v.finalized
      ensures Valid()
    {
    }

    // ---------- A turn task ----------

    method OnTurnEvent(turnId: nat)
      requires Valid() && turnId in turnTasks && turnTasks[turnId] != []
      modifies this
      ensures Valid() && Enabled(chat, old(server), Consume) && server == Apply(chat, old(server), Consume)
      ensures ProgressesFrom(chat, server, old(server))
      ensures var event := old(turnTasks)[turnId][0];
        && turnTasks == old(turnTasks)[turnId := old(turnTasks)[turnId][1..]]
        && playbackQueue == old(playbackQueue)
             + (if playback && event.Synthesized? && event.chunk != [] then [(turnId, event.chunk)] else [])
    {
      hide *;
      ghost var next := AfterEvent(turnId);
      ReadEvent(turnId);
      server := next;
      Revalidate();
    }

    lemma AfterEvent(turnId: nat) returns (next: Server)
      requires Valid() && turnId in turnTasks && turnTasks[turnId] != []
      ensures Enabled(chat, server, Consume) && next == Apply(chat, server, Consume)
      ensures ProgressesFrom(chat, next, server)
      ensures next.maxTurns == maxTurns && next.playback == playback
      ensures turnsIdle <==> next.phase == NoTurn
      ensures Inv(chat, next) && Shaped(chat, next)
      ensures var w, event := ViewOf(chat, next), turnTasks[turnId][0];
        && w.queued == queuedUtterances && w.nextTurnId == nextTurnId && w.active == activeTurnId == Some(turnId)
        && w.started == startedTurns && w.processingDone == turnProcessingDone && w.playing == playing
        && w.recording == recording && w.spoken == spoken && w.played == played && w.finalized == finalized
        && w.tasks == turnTasks[turnId := turnTasks[turnId][1..]]
        && turnId in turnPendingPlaybackChunks
        && w.pending == (if Audible(playback, event)
             then turnPendingPlaybackChunks[turnId := turnPendingPlaybackChunks[turnId] + 1]
             else turnPendingPlaybackChunks)
        && w.playbackQueue ==
             if Audible(playback, event) then playbackQueue + [(turnId, event.chunk)] else playbackQueue
      ensures Audible(playback, turnTasks[turnId][0]) <==>
        playback && turnTasks[turnId][0].Synthesized? && turnTasks[turnId][0].chunk != []
    {
      GuardsRead();
      assert Enabled(chat, server, Consume);
      next := ConsumeNext(chat, server);
      StepKeepsInv(chat, server, Consume);
      StepsProgress(chat, server, Consume);
      ConsistentIsShaped(chat, next);
      ViewOfConsume(chat, server);
    }

    /** One turn of the loop over the stream's events. */
    method ReadEvent(turnId: nat)
      requires turnId in turnTasks && turnTasks[turnId] != []
      modifies `turnTasks, `turnPendingPlaybackChunks, `playbackQueue
      ensures turnTasks == old(turnTasks[turnId := turnTasks[turnId][1..]])
      ensures var event, pending := old(turnTasks[turnId][0]), old(turnPendingPlaybackChunks);
        if activeTurnId == Some(turnId) && Audible(playback, event) then
          && playbackQueue == old(playbackQueue) + [(turnId, event.chunk)]
          && turnPendingPlaybackChunks == pending[turnId := if turnId in pending then pending[turnId] + 1 else 1]
        else playbackQueue == old(playbackQueue) && turnPendingPlaybackChunks == pending
    {
      var event := turnTasks[turnId][0];
      turnTasks := turnTasks[turnId := turnTasks[turnId][1..]];
      if activeTurnId != Some(turnId) {
        return;
      }
      if event.Synthesized? {
        if playback && event.chunk != [] {
          var pending := if turnId in turnPendingPlaybackChunks then turnPendingPlaybackChunks[turnId] else 0;
          turnPendingPlaybackChunks := turnPendingPlaybackChunks[turnId := pending + 1];
          playbackQueue := playbackQueue + [(turnId, event.chunk)];
        }
      }
    }

    /** The task's stream is over and its chunks are all queued. */
    method MarkDone(turnId: nat)
      requires Represents(server) && Inv(chat, server) && server.phase == Streaming && turnId == server.begun
      modifies `turnTasks, `turnProcessingDone, `server
      ensures Represents(server) && Consistent(chat, server) && server == old(server).(phase := Draining)
    {
      ViewOfStreamEnd(chat, server);
      GuardsRead();
      hide Inv, Shaped, ViewOf, Consistent;
      turnTasks := turnTasks - {turnId};
      turnProcessingDone := turnProcessingDone + {turnId};
      assert turnTasks == map[];
      server := server.(phase := Draining);
    }

    /** The stream is exhausted, or raised: the task's `finally` block. */
    method OnTurnEnd(turnId: nat)
      requires Valid() && turnId in turnTasks
      modifies this
      ensures Valid() && Enabled(chat, old(server), StreamEnds) && server == Apply(chat, old(server), StreamEnds)
      ensures ProgressesFrom(chat, server, old(server))
      ensures turnId in old(turnPendingPlaybackChunks)
      ensures TurnEnded(old(Shown()), Shown(), old(turnPendingPlaybackChunks)[turnId] == 0, turnId)
      ensures turnsIdle <==> activeTurnId == None
    {
      GuardsRead();
      StepsProgress(chat, server, StreamEnds);
      hide Represents, Inv, Consistent, ProgressesFrom, Settle, TurnEnded, ViewOf;
      MarkDone(turnId);
      EndTurn(turnId);
    }

    /** Finalise, in the variables' terms. */
    method EndTurn(turnId: nat)
      requires Represents(server) && Consistent(chat, server) && server.phase != NoTurn && !turnsIdle
      requires turnId == server.begun
      modifies this
      ensures Valid() && server == Settle(old(server)) && (turnsIdle <==> activeTurnId == None)
      ensures old(activeTurnId) == Some(turnId) && turnId in old(turnPendingPlaybackChunks)
      ensures TurnEnded(old(Shown()), Shown(),
                        turnId in old(turnProcessingDone) && old(turnPendingPlaybackChunks)[turnId] == 0, turnId)
    {
      hide Represents, Inv, Consistent, Settle, TurnEnded, ViewOf, Shaped;
      ghost var before := server;
      ShowsTheServer();
      FinalizeTurnIfReady(turnId);
      ShowsTheServer();
      GuardsRead();
      SettledView(chat, before);
    }

    // ---------- The playback worker ----------

    method OnPlaybackGet()
      requires Valid() && playbackQueue != [] && playing == None
      modifies this
      ensures Valid() && Enabled(chat, old(server), Take) && server == Apply(chat, old(server), Take)
      ensures ProgressesFrom(chat, server, old(server))
      ensures playing == Some(old(playbackQueue)[0]) && playbackQueue == old(playbackQueue)[1..]
      ensures played == old(played) + [old(playbackQueue)[0]]
    {
      assert Enabled(chat, server, Take);
      StepKeepsInv(chat, server, Take);
      StepsProgress(chat, server, Take);
      GetChunk();
    }

    method GetChunk()
      requires Represents(server) && Inv(chat, server) && Enabled(chat, server, Take)
      modifies `playbackQueue, `playing, `played, `server
      ensures Represents(server) && server == old(server).(handed := old(server).handed + 1, inFlight := true)
      ensures old(playbackQueue) != [] && playing == Some(old(playbackQueue)[0])
      ensures playbackQueue == old(playbackQueue)[1..] && played == old(played) + [old(playbackQueue)[0]]
    {
      ViewOfTake(chat, server);
      hide Inv, Shaped, ViewOf;
      var (turnId, chunk) := playbackQueue[0];
      playbackQueue := playbackQueue[1..];
      if activeTurnId == Some(turnId) {
        playing := Some((turnId, chunk));
        played := played + [(turnId, chunk)];
        server := server.(handed := server.handed + 1, inFlight := true);
      }
    }

    /** The `finally` block's bookkeeping for the chunk that was played. */
    method MarkPlayed() returns (turnId: nat)
      requires Represents(server) && Inv(chat, server) && server.inFlight
      modifies `playing, `turnPendingPlaybackChunks, `server
      ensures Represents(server) && Consistent(chat, server) && server == old(server).(inFlight := false)
      ensures turnId in old(turnPendingPlaybackChunks)
      ensures turnPendingPlaybackChunks == map[turnId := old(turnPendingPlaybackChunks)[turnId] - 1]
      ensures turnId == server.begun == old(playing).value.0 && server.phase != NoTurn
    {
      ViewOfPlayed(chat, server);
      hide Inv, Shaped, ViewOf, Consistent;
      turnId := playing.value.0;
      playing := None;
      var pending := if turnId in turnPendingPlaybackChunks then turnPendingPlaybackChunks[turnId] else 0;
      if pending > 0 {
        turnPendingPlaybackChunks := turnPendingPlaybackChunks[turnId := pending - 1];
      }
      server := server.(inFlight := false);
    }

    lemma PlayingIsInFlight()
      requires Represents(server)
      ensures playing != None <==> server.inFlight
    {
    }

    /** The chunk was played, or playing it failed: the worker's `finally` block. */
    method OnChunkPlayed()
      requires Valid() && playing != None
      modifies this
      ensures Valid() && Enabled(chat, old(server), Played) && server == Apply(chat, old(server), Played)
      ensures ProgressesFrom(chat, server, old(server))
      ensures var turnId := old(playing).value.0;
        && turnId in old(turnPendingPlaybackChunks)
        && TurnEnded(old(Shown()), Shown(),
                     turnId in old(turnProcessingDone) && old(turnPendingPlaybackChunks)[turnId] == 1, turnId)
      ensures turnsIdle <==> activeTurnId == None
    {
      PlayingIsInFlight();
      StepsProgress(chat, server, Played);
      hide Represents, Inv, Consistent, ProgressesFrom, Settle, TurnEnded, ViewOf;
      BusyIsNotIdle();
      var turnId := MarkPlayed();
      EndTurn(turnId);
    }

    lemma BusyIsNotIdle()
      requires Valid() && server.inFlight
      ensures !turnsIdle
    {
    }

    // ---------- Reaching idle ----------

    ghost predicate SomeTaskCanMove()
      reads this
    {
      || (activeTurnId != None && activeTurnId.value in turnTasks)
      || (playbackQueue != [] && playing == None)
      || playing != None
    }

    lemma BusyLoopIsNotStuck()
      requires Valid() && !turnsIdle
      ensures SomeTaskCanMove()
    {
      BusyIsNotStuck(chat, server);
    }

    lemma IdleLoopAnsweredEverything()
      requires Valid() && turnsIdle
      ensures queuedUtterances == [] && playbackQueue == [] && playing == None
      ensures spoken == server.accepted && finalized == UpTo(|spoken|)
      ensures ConsumedOf(chat, spoken, server.heard) && |server.heard| == |spoken|
      ensures played == SoundOfTurns(chat, playback, spoken, server.heard)
    {
      assert server.accepted[..|server.accepted|] == server.accepted;
      assert server.emitted[..|server.emitted|] == server.emitted;
    }

    /**
     Whatever the scheduler does, a session that no longer records becomes idle: `await turns_idle.wait()` returns.
     By then every accepted utterance had its turn and all of its sound was played.
     */
    method RunUntilIdle()
      requires Valid() && !server.recording
      modifies this
      ensures Valid() && turnsIdle && server.accepted == old(server.accepted)
      ensures queuedUtterances == [] && playbackQueue == [] && playing == None
      ensures spoken == server.accepted && finalized == UpTo(|spoken|)
    {
      hide Valid, Represents, Inv, Consistent;
      while !turnsIdle
        invariant Valid() && !server.recording && server.accepted == old(server.accepted)
        decreases TurnsLeft(server), StreamLeft(chat, server), PlaybackLeft(server)
      {
        BusyLoopIsNotStuck();
        if {
          case activeTurnId != None && activeTurnId.value in turnTasks && turnTasks[activeTurnId.value] != [] =>
            OnTurnEvent(activeTurnId.value);
          case activeTurnId != None && activeTurnId.value in turnTasks =>
            OnTurnEnd(activeTurnId.value);
          case playbackQueue != [] && playing == None =>
            OnPlaybackGet();
          case playing != None =>
            OnChunkPlayed();
        }
      }
      IdleLoopAnsweredEverything();
    }
  }
}

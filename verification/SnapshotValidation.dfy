/** The validation passes of the source, loop by loop, against their meaning. */
module SnapshotValidation {
  import opened Common
  import opened Contract
  import opened EventArchive
  import opened MatchEngine
  import opened Snapshot
  import opened SnapshotProofs

  /** The phase of an admitted prefix, as the running flags of ValidateArchive. */
  datatype Phase = Phase(joinedFirst: bool, joinedSecond: bool, commands: nat, completed: bool)

  predicate InPhase(phase: Phase, events: seq<Event>)
  {
    && phase.joinedFirst == HasJoined(events, 1) && phase.joinedSecond == HasJoined(events, 2)
    && phase.commands == CommandCount(events) && phase.completed == Terminated(events)
  }

  /** The checks on one event that do not depend on the phase. */
  predicate EnvelopeAdmitted(cfg: Config, events: seq<Event>, i: nat)
    requires i < |events|
  {
    var f := events[i].facts;
    && f.matchId == events[0].facts.matchId && f.challengeId == events[0].facts.challengeId
    && f.sequence == i + 1 && f.version == i + 2
    && (i > 0 ==> events[i - 1].facts.occurredAt <= f.occurredAt)
    && EventSealed(cfg, events[i]) && f.eventId == EventId(f.matchId, f.causation, f.sequence)
  }

  method AdmitEvent(cfg: Config, events: seq<Event>, i: nat, phase: Phase) returns (ok: bool, next: Phase)
    requires i < |events| && InPhase(phase, events[..i])
    ensures ok <==> ArchiveAdmits(cfg, events, i)
    ensures ok ==> InPhase(next, events[..i + 1])
  {
    next := phase;
    if !EnvelopeAdmitted(cfg, events, i) {
      return false, next;
    }
    CountersAppend(events[..i], events[i]);
    assert events[..i + 1] == events[..i] + [events[i]];
    var f := events[i].facts;
    match f.kind {
      case ParticipantJoined =>
        ok := phase.commands == 0 && !phase.completed && 1 <= f.slot <= 2 &&
              !(if f.slot == 1 then phase.joinedFirst else phase.joinedSecond) && f.payloadType == JOIN_PAYLOAD_TYPE;
        next := if f.slot == 1 then phase.(joinedFirst := true) else phase.(joinedSecond := true);
      case CommandApplied =>
        ok := phase.joinedFirst && phase.joinedSecond && !phase.completed && 1 <= f.slot <= 2;
        next := phase.(commands := phase.commands + 1);
      case MatchCompleted =>
        ok := !phase.completed && i == |events| - 1 && phase.commands != 0 && f.slot == 0 &&
              f.payloadType == TERMINAL_PAYLOAD_TYPE;
        next := phase.(completed := true);
      case Unsupported(_) =>
        ok := false;
    }
  }

  /** ValidateArchive: one pass with running flags. */
  method ValidateArchive(cfg: Config, events: seq<Event>) returns (ok: bool)
    ensures ok <==> ValidArchive(cfg, events)
  {
    if events == [] {
      return false;
    }
    var phase := Phase(false, false, 0, false);
    for i := 0 to |events|
      invariant InPhase(phase, events[..i])
      invariant forall j :: 0 <= j < i ==> ArchiveAdmits(cfg, events, j)
    {
      ok, phase := AdmitEvent(cfg, events, i, phase);
      if !ok {
        return;
      }
    }
    ok := true;
  }

  /** validateRecordedCommandQuota. */
  method ValidateQuota(e: Engine) returns (ok: bool)
    ensures ok <==> QuotaHolds(e)
  {
    if |e.commands| > MAX_COMMANDS {
      return false;
    }
    var used, rest := 0, e.commands;
    while rest != map[]
      invariant used + PayloadUsed(rest) == PayloadUsed(e.commands) && used <= MAX_COMMAND_PAYLOAD
      decreases |rest|
    {
      var id :| id in rest;
      PayloadUsedSplit(rest, id);
      if |rest[id].command.payload| > MAX_COMMAND_PAYLOAD - used {
        return false;
      }
      used := used + |rest[id].command.payload|;
      rest := rest - {id};
    }
    ok := true;
  }

  /** The records pass: every record is bound to one event, no event to two. */
  method BindRecords(cfg: Config, e: Engine) returns (ok: bool, bySequence: map<nat, string>)
    ensures ok <==> RecordsHold(cfg, e)
    ensures ok ==> Indexes(e, bySequence)
  {
    bySequence := map[];
    var rest := e.commands.Keys;
    while rest != {}
      invariant rest <= e.commands.Keys
      invariant forall id :: id in e.commands && id !in rest ==>
                  RecordHolds(cfg, e, id) && e.commands[id].event.facts.sequence in bySequence &&
                  bySequence[e.commands[id].event.facts.sequence] == id
      invariant forall sequence :: sequence in bySequence ==>
                  bySequence[sequence] !in rest && Maps(e, bySequence[sequence], sequence)
      decreases |rest|
    {
      var id :| id in rest;
      if !RecordHolds(cfg, e, id) {
        return false, bySequence;
      }
      var sequence := e.commands[id].event.facts.sequence;
      if sequence in bySequence {
        assert Maps(e, bySequence[sequence], sequence);
        return false, bySequence;
      }
      bySequence := bySequence[sequence := id];
      rest := rest - {id};
    }
    ok := true;
  }

  /** `bySequence` names, for an event, the one command record bound to it. */
  ghost predicate Indexes(e: Engine, bySequence: map<nat, string>)
  {
    && (forall sequence :: sequence in bySequence ==> Maps(e, bySequence[sequence], sequence))
    && (forall id :: id in e.commands ==>
          e.commands[id].event.facts.sequence in bySequence && bySequence[e.commands[id].event.facts.sequence] == id &&
          (e.commands[id].command.slot == 1 || e.commands[id].command.slot == 2))
  }

  method CheckJoinEvent(e: Engine, bySequence: map<nat, string>, i: nat) returns (ok: bool)
    requires Indexes(e, bySequence) && i < |e.events|
    ensures ok <==> JoinEventHolds(e, i)
  {
    var f := e.events[i].facts;
    var p := e.participants.At(f.slot);
    var claim := p.authorization.claim;
    ok := p.joined && f.causation == Cites(claim.authorizationId) &&
          f.payload == JoinPayload(claim.slot, claim.subjectUserId, claim.authorizationId, claim.agentId) &&
          claim.issuedAt <= f.occurredAt < claim.expiresAt && i + 1 !in bySequence;
    assert i + 1 in bySequence ==> Maps(e, bySequence[i + 1], i + 1);
  }

  method CheckCommandEvent(e: Engine, bySequence: map<nat, string>, i: nat, first: nat, second: nat) returns (ok: bool)
    requires Indexes(e, bySequence) && i < |e.events|
    requires first == SlotCommands(e.events[..i], 1) && second == SlotCommands(e.events[..i], 2)
    ensures ok <==> CommandEventHolds(e, i)
  {
    if i + 1 !in bySequence {
      assert e.events[i].facts.causation.Cites? ==> !Maps(e, e.events[i].facts.causation.id, i + 1);
      return false;
    }
    var f, id := e.events[i].facts, bySequence[i + 1];
    assert Maps(e, id, i + 1);
    var c := e.commands[id].command;
    var claim := e.participants.At(c.slot).authorization.claim;
    var cursor := if c.slot == 1 then first else second;
    ok := f.causation == Cites(id) && c.sequence == cursor + 1 && c.expectedVersion == i + 1 && f.version == i + 2 &&
          f.slot == c.slot && f.payloadType == c.payloadType && f.payload == CommandPayload(c.payload) &&
          claim.issuedAt <= c.issuedAt <= f.occurredAt;
  }

  method CheckTerminalEvent(e: Engine, bySequence: map<nat, string>, i: nat, joinedFirst: bool, joinedSecond: bool)
    returns (ok: bool)
    requires Indexes(e, bySequence) && i < |e.events|
    requires joinedFirst == HasJoined(e.events[..i], 1) && joinedSecond == HasJoined(e.events[..i], 2)
    ensures ok <==> TerminalEventHolds(e, i)
  {
    var f := e.events[i].facts;
    ok := joinedFirst && joinedSecond && e.terminalFacts.Some? && e.completion.Some? &&
          f.causation == Completes(e.terminalFacts.value) && f.payload == TerminalPayload(e.terminalFacts.value) &&
          f.occurredAt == e.completion.value.body.completedAt && i + 1 !in bySequence;
    assert i + 1 in bySequence ==> Maps(e, bySequence[i + 1], i + 1);
  }

  datatype Cursor = Cursor(joinedFirst: bool, joinedSecond: bool, first: nat, second: nat, commands: nat, terminal: bool)

  /** The running values of the replay pass after these events. */
  predicate Tracks(cursor: Cursor, events: seq<Event>)
  {
    && cursor.joinedFirst == HasJoined(events, 1) && cursor.joinedSecond == HasJoined(events, 2)
    && cursor.first == SlotCommands(events, 1) && cursor.second == SlotCommands(events, 2)
    && cursor.commands == CommandCount(events) && cursor.terminal == Terminated(events)
  }

  method ReplayEvent(e: Engine, bySequence: map<nat, string>, i: nat, cursor: Cursor) returns (ok: bool, next: Cursor)
    requires Indexes(e, bySequence) && i < |e.events| && Tracks(cursor, e.events[..i])
    requires (e.events[i].facts.kind == ParticipantJoined || e.events[i].facts.kind == CommandApplied) ==>
               e.events[i].facts.slot == 1 || e.events[i].facts.slot == 2
    ensures ok <==> EventHolds(e, i)
    ensures Tracks(next, e.events[..i + 1])
  {
    CountersAppend(e.events[..i], e.events[i]);
    assert e.events[..i + 1] == e.events[..i] + [e.events[i]];
    var isFirst := e.events[i].facts.slot == 1;
    match e.events[i].facts.kind {
      case ParticipantJoined =>
        ok := CheckJoinEvent(e, bySequence, i);
        next := if isFirst then cursor.(joinedFirst := true) else cursor.(joinedSecond := true);
      case CommandApplied =>
        ok := CheckCommandEvent(e, bySequence, i, cursor.first, cursor.second);
        next := (if isFirst then cursor.(first := cursor.first + 1) else cursor.(second := cursor.second + 1))
          .(commands := cursor.commands + 1);
      case MatchCompleted =>
        ok := CheckTerminalEvent(e, bySequence, i, cursor.joinedFirst, cursor.joinedSecond);
        next := cursor.(terminal := true);
      case Unsupported(_) =>
        ok, next := false, cursor;
    }
  }

  /** The replay pass over the events. */
  method ReplayEvents(e: Engine, bySequence: map<nat, string>) returns (ok: bool)
    requires Indexes(e, bySequence)
    requires forall i ::
      (0 <= i < |e.events| &&
       (e.events[i].facts.kind == ParticipantJoined || e.events[i].facts.kind == CommandApplied)) ==>
      e.events[i].facts.slot == 1 || e.events[i].facts.slot == 2
    ensures ok <==> EventsHold(e) && ReplayHolds(e)
  {
    var cursor := Cursor(false, false, 0, 0, 0, false);
    for i := 0 to |e.events|
      invariant Tracks(cursor, e.events[..i])
      invariant forall j :: 0 <= j < i ==> EventHolds(e, j)
    {
      ok, cursor := ReplayEvent(e, bySequence, i, cursor);
      if !ok {
        return;
      }
    }
    assert e.events[..|e.events|] == e.events;
    var status := if cursor.terminal then Completed else if cursor.commands > 0 then Active
                  else if cursor.joinedFirst && cursor.joinedSecond then Ready
                  else if cursor.joinedFirst || cursor.joinedSecond then Waiting else Created;
    ok := cursor.commands == |e.commands| &&
          e.participants.first.joined == cursor.joinedFirst && e.participants.second.joined == cursor.joinedSecond &&
          e.participants.first.lastSequence == cursor.first && e.participants.second.lastSequence == cursor.second &&
          e.status == status;
  }

  /** Restore accepts a document exactly when it is restorable. */
  method ValidateRestoredState(cfg: Config, e: Engine) returns (ok: bool)
    ensures ok <==> Restorable(cfg, e)
  {
    ok := ValidateQuota(e);
    if !ok || !IdentitiesHold(cfg, e) {
      return false;
    }
    if e.events != [] {
      if e.events[0].facts.matchId != e.matchId || e.events[0].facts.challengeId != e.challengeId {
        return false;
      }
      ok := ValidateArchive(cfg, e.events);
      if !ok {
        return false;
      }
    }
    var bound, bySequence := BindRecords(cfg, e);
    if !bound {
      return false;
    }
    forall i | 0 <= i < |e.events| &&
               (e.events[i].facts.kind == ParticipantJoined || e.events[i].facts.kind == CommandApplied)
      ensures e.events[i].facts.slot == 1 || e.events[i].facts.slot == 2
    {
      assert ArchiveAdmits(cfg, e.events, i);
    }
    ok := ReplayEvents(e, bySequence);
    if ok {
      ok := CompletionHolds(cfg, e);
    }
  }
}

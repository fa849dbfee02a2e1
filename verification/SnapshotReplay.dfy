/** Every document that the snapshot validator accepts is the result of accepted
    operations: its last event can be undone and performed again. */
module SnapshotReplay {
  import opened Common
  import opened Contract
  import opened EventArchive
  import opened MatchEngine
  import opened EngineProgress
  import opened Snapshot
  import opened SnapshotProofs

  // ------------------------------------------------------------ the last event

  ghost predicate EndsWith(cfg: Config, f: Engine, kind: EventKind)
  {
    Restorable(cfg, f) && f.events != [] && f.events[|f.events| - 1].facts.kind == kind
  }

  function Last(f: Engine): EventFacts
    requires f.events != []
  {
    f.events[|f.events| - 1].facts
  }

  /** What the archive contract says of the last event, in terms of the prefix. */
  lemma LastEventFits(cfg: Config, f: Engine)
    requires Restorable(cfg, f) && f.events != []
    ensures var before := f.events[..|f.events| - 1];
      && ArchiveAdmits(cfg, f.events, |f.events| - 1) && EventHolds(f, |f.events| - 1)
      && f.events == before + [f.events[|f.events| - 1]]
      && (before != [] ==> ValidArchive(cfg, before)) && !Terminated(before)
      && Last(f).matchId == f.matchId && Last(f).challengeId == f.challengeId
  {
    assert EventHolds(f, |f.events| - 1);
    ArchivePrefix(cfg, f.events);
  }

  /** The engine before its last event, with everything that event recorded undone. */
  function WithoutLast(f: Engine): Engine
    requires f.events != [] && 0 < f.version
  {
    var before := f.events[..|f.events| - 1];
    f.(events := before, version := f.version - 1, status := ReplayedStatus(before))
  }

  /** Everything but the last event still stands without it. */
  lemma PrefixHolds(cfg: Config, f: Engine, e: Engine)
    requires Restorable(cfg, f) && f.events != []
    requires Appends(e, f, f.events[|f.events| - 1])
    requires forall i :: 0 <= i < |e.events| && e.events[i].facts.kind == ParticipantJoined ==>
               e.participants.At(e.events[i].facts.slot).joined
    requires forall id :: id in f.commands && id !in e.commands ==> f.commands[id].event.facts.sequence == |f.events|
    ensures IdentitiesHold(cfg, e) && ArchiveHolds(cfg, e) && EventsHold(e)
  {
    LastEventFits(cfg, f);
    forall i | 0 <= i < |e.events| ensures EventHolds(e, i) {
      assert EventHolds(f, i) && ArchiveAdmits(cfg, f.events, i);
      TerminationIsAnEvent(e.events, i);
      PrefixEventHolds(f, e, i);
    }
  }

  lemma PrefixEventHolds(f: Engine, e: Engine, i: nat)
    requires f.events != [] && Appends(e, f, f.events[|f.events| - 1]) && i < |e.events| && EventHolds(f, i)
    requires var facts := f.events[i].facts;
      && facts.kind != MatchCompleted && (facts.slot == 1 || facts.slot == 2)
      && (facts.kind == ParticipantJoined ==> e.participants.At(facts.slot).joined)
    ensures EventHolds(e, i)
  {
    assert e.events[..i] == f.events[..i];
  }

  /** buildEvent, asked for the last event again, seals exactly that event. */
  lemma Rebuilt(cfg: Config, f: Engine, e: Engine)
    requires Restorable(cfg, f) && f.events != []
    requires e.events == f.events[..|f.events| - 1] && e.version == f.version - 1
    requires e.matchId == f.matchId && e.challengeId == f.challengeId
    ensures var l := Last(f);
      BuildEvent(cfg, e, l.kind, l.causation, l.occurredAt, l.slot, l.payloadType, l.payload)
        == Some(f.events[|f.events| - 1])
  {
    LastEventFits(cfg, f);
  }

  lemma {:induction false} JoinsSeen(events: seq<Event>, i: nat)
    requires i < |events| && events[i].facts.kind == ParticipantJoined
    ensures HasJoined(events, events[i].facts.slot)
  {
    if i < |events| - 1 {
      JoinsSeen(events[..|events| - 1], i);
    }
  }

  // ---------------------------------------------------------------- undo a join

  function BeforeJoin(f: Engine): Engine
    requires f.events != [] && 0 < f.version
  {
    var slot := Last(f).slot;
    WithoutLast(f).(participants := f.participants.With(slot, f.participants.At(slot).(joined := false)))
  }

  lemma JoinUndone(cfg: Config, f: Engine)
    requires EndsWith(cfg, f, ParticipantJoined)
    ensures Restorable(cfg, BeforeJoin(f))
  {
    var e, event := BeforeJoin(f), f.events[|f.events| - 1];
    LastEventFits(cfg, f);
    CountersAppend(e.events, event);
    assert f.commands == map[];
    assert Appends(e, f, event);
    forall i | 0 <= i < |e.events| && e.events[i].facts.kind == ParticipantJoined
      ensures e.participants.At(e.events[i].facts.slot).joined
    {
      assert ArchiveAdmits(cfg, f.events, i);
      JoinsSeen(e.events, i);
    }
    PrefixHolds(cfg, f, e);
  }

  lemma JoinRedone(cfg: Config, f: Engine)
    requires EndsWith(cfg, f, ParticipantJoined)
    ensures var claim := f.participants.At(Last(f).slot).authorization.claim;
      Advance(cfg, BeforeJoin(f), JoinInput(claim.subjectUserId, claim.authorizationId, Last(f).occurredAt)) == Some(f)
  {
    var e, slot := BeforeJoin(f), Last(f).slot;
    var claim := f.participants.At(slot).authorization.claim;
    JoinFacts(cfg, f);
    Rebuilt(cfg, f, e);
    var after := Join(cfg, e, claim.subjectUserId, claim.authorizationId, Last(f).occurredAt).0;
    assert after.events == f.events && after.status == f.status;
    assert after.participants == f.participants;
  }

  /** What makes the undone join admissible, and the status it leads to. */
  lemma JoinFacts(cfg: Config, f: Engine)
    requires EndsWith(cfg, f, ParticipantJoined)
    ensures var e, slot, claim := BeforeJoin(f), Last(f).slot, f.participants.At(Last(f).slot).authorization.claim;
      && (slot == 1 || slot == 2) && claim.slot == slot
      && e.status != Completed && FindSlot(e, claim.authorizationId) == Some(slot)
      && AuthorizationActive(cfg, f.participants.At(slot).authorization, Last(f).occurredAt)
      && Last(f).causation == Cites(claim.authorizationId) && Last(f).payloadType == JOIN_PAYLOAD_TYPE
      && Last(f).payload == JoinPayload(claim.slot, claim.subjectUserId, claim.authorizationId, claim.agentId)
      && f.participants.At(slot).joined
      && f.status == (if JoinedCount(e.participants) + 1 == 1 then Waiting else Ready)
      && f.version == |e.events| + 2
  {
    LastEventFits(cfg, f);
    CountersAppend(BeforeJoin(f).events, f.events[|f.events| - 1]);
    assert f.commands == map[];
  }

  // ------------------------------------------------------------- undo a command

  function BeforeCommand(f: Engine): Engine
    requires f.events != [] && 0 < f.version && Last(f).causation.Cites?
  {
    var slot := Last(f).slot;
    var e := WithoutLast(f);
    e.(commands := f.commands - {Last(f).causation.id},
       participants := f.participants.With(slot,
         f.participants.At(slot).(lastSequence := SlotCommands(e.events, slot))))
  }

  /** The last command event and its record, as the validator binds them. */
  lemma CommandFacts(cfg: Config, f: Engine)
    requires EndsWith(cfg, f, CommandApplied)
    ensures Last(f).causation.Cites? && Maps(f, Last(f).causation.id, |f.events|)
    ensures var id := Last(f).causation.id;
      var c, before := f.commands[id].command, f.events[..|f.events| - 1];
      && RecordHolds(cfg, f, id) && f.commands[id] == CommandRecord(c, Fingerprint(c), f.events[|f.events| - 1])
      && Last(f).slot == c.slot && Last(f).payloadType == c.payloadType && Last(f).payload == CommandPayload(c.payload)
      && c.sequence == SlotCommands(before, c.slot) + 1 && c.expectedVersion == |f.events|
      && f.participants.At(c.slot).authorization.claim.issuedAt <= c.issuedAt <= Last(f).occurredAt
      && HasJoined(before, 1) && HasJoined(before, 2) && !Terminated(before)
  {
    LastEventFits(cfg, f);
    assert RecordHolds(cfg, f, Last(f).causation.id);
  }

  lemma CommandUndone(cfg: Config, f: Engine)
    requires EndsWith(cfg, f, CommandApplied)
    ensures Last(f).causation.Cites? && Restorable(cfg, BeforeCommand(f))
  {
    CommandFacts(cfg, f);
    var e, id := BeforeCommand(f), Last(f).causation.id;
    UndoneCommandAppends(cfg, f);
    UndoneRecordsHold(cfg, f, e, id);
    UndoneJoinsStand(cfg, f, e);
    PrefixHolds(cfg, f, e);
    UndoneCommandReplays(cfg, f);
  }

  lemma UndoneJoinsStand(cfg: Config, f: Engine, e: Engine)
    requires EventsHold(f) && f.events != [] && e.events == f.events[..|f.events| - 1]
    requires e.participants.first.joined == f.participants.first.joined
    requires e.participants.second.joined == f.participants.second.joined
    ensures forall i :: 0 <= i < |e.events| && e.events[i].facts.kind == ParticipantJoined ==>
              e.participants.At(e.events[i].facts.slot).joined
  {
    forall i | 0 <= i < |e.events| && e.events[i].facts.kind == ParticipantJoined
      ensures e.participants.At(e.events[i].facts.slot).joined
    {
      assert EventHolds(f, i);
    }
  }

  lemma UndoneCommandAppends(cfg: Config, f: Engine)
    requires EndsWith(cfg, f, CommandApplied)
    ensures Last(f).causation.Cites? && Appends(BeforeCommand(f), f, f.events[|f.events| - 1])
  {
    CommandFacts(cfg, f);
    BeforeCommandAppends(f);
  }

  lemma BeforeCommandAppends(f: Engine)
    requires f.events != [] && 0 < f.version && Last(f).causation.Cites?
    requires Maps(f, Last(f).causation.id, |f.events|)
    ensures Appends(BeforeCommand(f), f, f.events[|f.events| - 1])
  {
  }

  lemma UndoneCommandReplays(cfg: Config, f: Engine)
    requires EndsWith(cfg, f, CommandApplied)
    ensures Last(f).causation.Cites? && ReplayHolds(BeforeCommand(f)) && CompletionHolds(cfg, BeforeCommand(f))
  {
    CommandFacts(cfg, f);
    LastEventFits(cfg, f);
    CommandEndState(cfg, f);
    BeforeCommandReplays(cfg, f);
  }

  lemma BeforeCommandReplays(cfg: Config, f: Engine)
    requires f.events != [] && 0 < f.version && Last(f).causation.Cites? && Last(f).causation.id in f.commands
    requires ReplayHolds(f) && CompletionHolds(cfg, f) && Last(f).kind == CommandApplied
    requires !Terminated(f.events[..|f.events| - 1]) && (Last(f).slot == 1 || Last(f).slot == 2)
    ensures ReplayHolds(BeforeCommand(f)) && CompletionHolds(cfg, BeforeCommand(f))
  {
    var e, event := BeforeCommand(f), f.events[|f.events| - 1];
    assert f.events == e.events + [event];
    CountersAppend(e.events, event);
    assert e.commands.Keys == f.commands.Keys - {Last(f).causation.id};
    assert |e.commands| == |f.commands| - 1;
  }

  lemma UndoneRecordsHold(cfg: Config, f: Engine, e: Engine, id: string)
    requires Restorable(cfg, f) && f.events != [] && Appends(e, f, f.events[|f.events| - 1])
    requires Maps(f, id, |f.events|) && e.commands == f.commands - {id}
    ensures RecordsHold(cfg, e) && QuotaHolds(e) && |e.commands| == |f.commands| - 1
  {
    PayloadUsedSplit(f.commands, id);
    assert e.commands.Keys == f.commands.Keys - {id};
    forall other | other in e.commands ensures RecordHolds(cfg, e, other) {
      assert RecordHolds(cfg, f, other);
    }
  }

  lemma CommandRedone(cfg: Config, f: Engine)
    requires EndsWith(cfg, f, CommandApplied)
    ensures Last(f).causation.Cites? && Maps(f, Last(f).causation.id, |f.events|)
    ensures var c := f.commands[Last(f).causation.id].command;
      var claim := f.participants.At(c.slot).authorization.claim;
      Advance(cfg, BeforeCommand(f), CommandInput(claim.subjectUserId, c, Last(f).occurredAt)) == Some(f)
  {
    CommandFacts(cfg, f);
    var e, id := BeforeCommand(f), Last(f).causation.id;
    var c := f.commands[id].command;
    CommandAuthenticated(cfg, f, e, c);
    UndoneQuotaAllows(f, e, id);
    Rebuilt(cfg, f, e);
    CommandAccepted(cfg, f, e, id);
  }

  lemma UndoneQuotaAllows(f: Engine, e: Engine, id: string)
    requires QuotaHolds(f) && id in f.commands && e.commands == f.commands - {id}
    ensures QuotaAllows(e.commands, |f.commands[id].command.payload|)
  {
    PayloadUsedSplit(f.commands, id);
    assert e.commands.Keys == f.commands.Keys - {id};
  }

  lemma CommandAccepted(cfg: Config, f: Engine, e: Engine, id: string)
    requires EndsWith(cfg, f, CommandApplied) && Last(f).causation == Cites(id) && e == BeforeCommand(f)
    requires id in f.commands
    ensures AcceptCommand(cfg, e, f.commands[id].command.slot, f.commands[id].command, Last(f).occurredAt)
              == (f, MatchEngine.CommandAccepted(f.events[|f.events| - 1]))
  {
    CommandFacts(cfg, f);
    CommandRebuilt(cfg, f, e, id);
    CommandShape(cfg, f, e);
    AcceptForced(cfg, e, f, f.commands[id].command, Last(f).occurredAt, f.events[|f.events| - 1]);
  }

  lemma CommandRebuilt(cfg: Config, f: Engine, e: Engine, id: string)
    requires EndsWith(cfg, f, CommandApplied) && Last(f).causation == Cites(id) && e == BeforeCommand(f)
    requires id in f.commands
    ensures var c := f.commands[id].command;
      BuildEvent(cfg, e, CommandApplied, Cites(c.commandId), Last(f).occurredAt, c.slot, c.payloadType,
                 CommandPayload(c.payload)) == Some(f.events[|f.events| - 1])
  {
    CommandFacts(cfg, f);
    Rebuilt(cfg, f, e);
  }

  lemma CommandShape(cfg: Config, f: Engine, e: Engine)
    requires EndsWith(cfg, f, CommandApplied) && Last(f).causation.Cites? && e == BeforeCommand(f)
    ensures var slot := Last(f).slot;
      && (slot == 1 || slot == 2) && e.participants.At(slot).authorization.claim.slot == slot
      && f.participants == e.participants.With(slot, e.participants.At(slot).(
           lastSequence := SlotCommands(f.events[..|f.events| - 1], slot) + 1))
      && e.participants.At(slot).lastSequence == SlotCommands(f.events[..|f.events| - 1], slot)
      && e.participants.At(slot).authorization == f.participants.At(slot).authorization
      && e.version == |f.events| && f.events == e.events + [f.events[|f.events| - 1]]
      && f == e.(events := f.events, version := Last(f).version, status := Active, commands := f.commands,
                 participants := f.participants)
  {
    CommandEndState(cfg, f);
    BeforeCommandIs(f, e);
  }

  lemma BeforeCommandIs(f: Engine, e: Engine)
    requires f.events != [] && Last(f).causation.Cites? && 0 < f.version && e == BeforeCommand(f)
    requires (Last(f).slot == 1 || Last(f).slot == 2) && f.status == Active && f.version == |f.events| + 1 == Last(f).version
    requires f.participants.At(Last(f).slot).lastSequence == SlotCommands(f.events[..|f.events| - 1], Last(f).slot) + 1
    ensures var slot := Last(f).slot;
      && f.participants == e.participants.With(slot, e.participants.At(slot).(
           lastSequence := SlotCommands(f.events[..|f.events| - 1], slot) + 1))
      && e.participants.At(slot).lastSequence == SlotCommands(f.events[..|f.events| - 1], slot)
      && e.participants.At(slot).authorization == f.participants.At(slot).authorization
      && e.version == |f.events| && f.events == e.events + [f.events[|f.events| - 1]]
      && f == e.(events := f.events, version := Last(f).version, status := Active, commands := f.commands,
                 participants := f.participants)
  {
  }

  /** acceptCommand with its checks met appends the event it builds. */
  lemma AcceptForced(cfg: Config, e: Engine, f: Engine, c: Command, now: int, event: Event)
    requires c.slot == 1 || c.slot == 2
    requires var p := e.participants.At(c.slot);
      p.authorization.claim.slot == c.slot && p.authorization.claim.issuedAt <= c.issuedAt <= now &&
      c.sequence == p.lastSequence + 1 && c.expectedVersion == e.version
    requires BuildEvent(cfg, e, CommandApplied, Cites(c.commandId), now, c.slot, c.payloadType,
                        CommandPayload(c.payload)) == Some(event)
    requires c.commandId in f.commands && f.commands[c.commandId] == CommandRecord(c, Fingerprint(c), event)
    requires e.commands == f.commands - {c.commandId} && f.events == e.events + [event]
    requires f == e.(events := f.events, version := event.facts.version, status := Active, commands := f.commands,
                     participants := f.participants)
    requires f.participants ==
             e.participants.With(c.slot, e.participants.At(c.slot).(lastSequence := c.sequence))
    ensures AcceptCommand(cfg, e, c.slot, c, now) == (f, MatchEngine.CommandAccepted(event))
  {
    assert e.commands[c.commandId := CommandRecord(c, Fingerprint(c), event)] == f.commands;
  }

  lemma CommandEndState(cfg: Config, f: Engine)
    requires EndsWith(cfg, f, CommandApplied)
    ensures f.status == Active && f.version == |f.events| + 1 && Last(f).version == f.version
    ensures (Last(f).slot == 1 || Last(f).slot == 2)
    ensures f.participants.At(Last(f).slot).authorization.claim.slot == Last(f).slot
    ensures f.participants.At(Last(f).slot).lastSequence == SlotCommands(f.events[..|f.events| - 1], Last(f).slot) + 1
  {
    LastEventFits(cfg, f);
    CountersAppend(f.events[..|f.events| - 1], f.events[|f.events| - 1]);
  }

  lemma CommandAuthenticated(cfg: Config, f: Engine, e: Engine, c: Command)
    requires EndsWith(cfg, f, CommandApplied) && Last(f).causation.Cites? && e == BeforeCommand(f)
    requires Last(f).causation.id in f.commands && c == f.commands[Last(f).causation.id].command
    ensures Authenticate(cfg, e, f.participants.At(c.slot).authorization.claim.subjectUserId, c) == Ok(c.slot)
  {
    CommandFacts(cfg, f);
    CommandEndState(cfg, f);
    UndoneStatus(cfg, f);
    AuthenticateForced(cfg, e, c);
  }

  lemma UndoneStatus(cfg: Config, f: Engine)
    requires EndsWith(cfg, f, CommandApplied)
    ensures Last(f).causation.Cites?
    ensures var e := BeforeCommand(f);
      (e.status == Ready || e.status == Active) && e.participants.first.joined && e.participants.second.joined
  {
    CommandFacts(cfg, f);
    UndoneCommandReplays(cfg, f);
  }

  lemma AuthenticateForced(cfg: Config, e: Engine, c: Command)
    requires (c.slot == 1 || c.slot == 2) && (e.status == Ready || e.status == Active)
    requires e.participants.first.joined && e.participants.second.joined && Configured(e.participants)
    requires var claim := e.participants.At(c.slot).authorization.claim;
      c.authorizationId == claim.authorizationId && c.matchId == e.matchId && c.challengeId == e.challengeId &&
      c.agentId == claim.agentId && c.agentKeyId == claim.agentKeyId && c.slot == claim.slot &&
      CommandVerified(cfg, c, claim.agentPublicKey)
    ensures Authenticate(cfg, e, e.participants.At(c.slot).authorization.claim.subjectUserId, c) == Ok(c.slot)
  {
  }

  // ---------------------------------------------------------- undo a completion

  function BeforeCompletion(f: Engine): Engine
    requires f.events != [] && 0 < f.version
  {
    WithoutLast(f).(terminalFacts := None, completion := None)
  }

  lemma CompletionUndone(cfg: Config, f: Engine)
    requires EndsWith(cfg, f, MatchCompleted)
    ensures Restorable(cfg, BeforeCompletion(f))
  {
    var e, event := BeforeCompletion(f), f.events[|f.events| - 1];
    LastEventFits(cfg, f);
    CountersAppend(e.events, event);
    assert Appends(e, f, event);
    UndoneJoinsStand(cfg, f, e);
    PrefixHolds(cfg, f, e);
    NoRecordOfCompletion(cfg, f);
    RecordsStay(cfg, f, e);
  }

  lemma NoRecordOfCompletion(cfg: Config, f: Engine)
    requires EndsWith(cfg, f, MatchCompleted)
    ensures forall id :: id in f.commands ==> f.commands[id].event.facts.sequence != |f.events|
  {
    assert EventHolds(f, |f.events| - 1);
  }

  lemma RecordsStay(cfg: Config, f: Engine, e: Engine)
    requires RecordsHold(cfg, f) && f.events != [] && Appends(e, f, f.events[|f.events| - 1])
    requires e.commands == f.commands
    requires e.participants == f.participants && e.matchId == f.matchId && e.challengeId == f.challengeId
    requires forall id :: id in f.commands ==> f.commands[id].event.facts.sequence != |f.events|
    ensures RecordsHold(cfg, e)
  {
    forall id | id in e.commands ensures RecordHolds(cfg, e, id) {
      assert RecordHolds(cfg, f, id);
    }
  }

  lemma CompletionRedone(cfg: Config, f: Engine)
    requires EndsWith(cfg, f, MatchCompleted)
    ensures f.terminalFacts.Some?
    ensures Advance(cfg, BeforeCompletion(f), CompleteInput(f.terminalFacts.value, Last(f).occurredAt)) == Some(f)
  {
    var e, event := BeforeCompletion(f), f.events[|f.events| - 1];
    LastEventFits(cfg, f);
    CountersAppend(e.events, event);
    var facts := f.terminalFacts.value;
    assert BuildEvent(cfg, e, MatchCompleted, Completes(facts), Last(f).occurredAt, 0, TERMINAL_PAYLOAD_TYPE,
                      TerminalPayload(facts)) == Some(event);
  }

  // ------------------------------------------------------------ the main result

  /** Both authorizations are valid at some common time. */
  predicate AdmissionOverlaps(e: Engine)
  {
    var one, two := e.participants.first.authorization.claim, e.participants.second.authorization.claim;
    one.issuedAt < two.expiresAt && two.issuedAt < one.expiresAt
  }

  /** A restorable engine with events is one accepted operation away from a
      restorable engine with one event less. */
  lemma LastStep(cfg: Config, f: Engine) returns (e: Engine)
    requires Restorable(cfg, f) && f.events != []
    ensures Restorable(cfg, e) && OneStep(cfg, e, f) && |e.events| == |f.events| - 1
    ensures AdmissionOverlaps(f) ==> AdmissionOverlaps(e)
  {
    LastEventFits(cfg, f);
    match Last(f).kind
    case ParticipantJoined =>
      JoinUndone(cfg, f);
      JoinRedone(cfg, f);
      e := BeforeJoin(f);
    case CommandApplied =>
      CommandUndone(cfg, f);
      CommandRedone(cfg, f);
      e := BeforeCommand(f);
    case MatchCompleted =>
      CompletionUndone(cfg, f);
      CompletionRedone(cfg, f);
      e := BeforeCompletion(f);
  }

  lemma EmptyIsNew(cfg: Config, f: Engine)
    requires Restorable(cfg, f) && f.events == [] && AdmissionOverlaps(f)
    ensures Reachable(cfg, f)
  {
    var one, two := f.participants.first.authorization, f.participants.second.authorization;
    var now := if one.claim.issuedAt < two.claim.issuedAt then two.claim.issuedAt else one.claim.issuedAt;
    assert f.commands == map[];
    assert NewMatch(cfg, one, two, now) == Some(f);
    NewMatchIsReachable(cfg, one, two, now);
  }

  lemma {:induction false} RestorableIsReachable(cfg: Config, f: Engine)
    requires Restorable(cfg, f) && AdmissionOverlaps(f)
    ensures Reachable(cfg, f)
    decreases |f.events|
  {
    if f.events == [] {
      EmptyIsNew(cfg, f);
    } else {
      var e := LastStep(cfg, f);
      RestorableIsReachable(cfg, e);
      StepIsReachable(cfg, e, f);
    }
  }

  lemma NewMatchIsRestorable(cfg: Config, a: Authorization, b: Authorization, now: int)
    requires NewMatch(cfg, a, b, now).Some?
    ensures Restorable(cfg, NewMatch(cfg, a, b, now).value)
    ensures AdmissionOverlaps(NewMatch(cfg, a, b, now).value)
  {
  }

  lemma AdvanceKeepsRestorable(cfg: Config, e: Engine, input: Input)
    requires Restorable(cfg, e) && Advance(cfg, e, input).Some?
    ensures Restorable(cfg, Advance(cfg, e, input).value)
  {
    match input
    case JoinInput(userId, authorizationId, now) => JoinKeepsRestorable(cfg, e, userId, authorizationId, now);
    case CommandInput(userId, command, now) => CommandKeepsRestorable(cfg, e, userId, command, now);
    case CompleteInput(facts, now) => CompleteKeepsRestorable(cfg, e, facts, now);
  }

  lemma AdvanceKeepsAdmission(cfg: Config, e: Engine, input: Input)
    requires Advance(cfg, e, input).Some?
    ensures AdmissionOverlaps(e) ==> AdmissionOverlaps(Advance(cfg, e, input).value)
  {
  }

  lemma {:induction false} ReplayIsRestorable(cfg: Config, a: Authorization, b: Authorization, now: int, inputs: seq<Input>)
    requires Replay(cfg, a, b, now, inputs).Some?
    ensures Restorable(cfg, Replay(cfg, a, b, now, inputs).value)
    ensures AdmissionOverlaps(Replay(cfg, a, b, now, inputs).value)
  {
    if inputs == [] {
      NewMatchIsRestorable(cfg, a, b, now);
    } else {
      var before := inputs[..|inputs| - 1];
      ReplayIsRestorable(cfg, a, b, now, before);
      AdvanceKeepsRestorable(cfg, Replay(cfg, a, b, now, before).value, inputs[|inputs| - 1]);
      AdvanceKeepsAdmission(cfg, Replay(cfg, a, b, now, before).value, inputs[|inputs| - 1]);
    }
  }

  /** The validator accepts a document exactly when accepted joins, commands and
      a completion produce that very engine from a new match -- given that the
      two admission intervals of the document overlap, which it does not check. */
  lemma RestorableIffReachable(cfg: Config, e: Engine)
    ensures Reachable(cfg, e) <==> Restorable(cfg, e) && AdmissionOverlaps(e)
  {
    if Restorable(cfg, e) && AdmissionOverlaps(e) {
      RestorableIsReachable(cfg, e);
    }
    if Reachable(cfg, e) {
      var a, b, now, inputs :| Replay(cfg, a, b, now, inputs) == Some(e);
      ReplayIsRestorable(cfg, a, b, now, inputs);
    }
  }

  function FreshDocument(one: Authorization, two: Authorization): Engine
  {
    Engine(one.claim.matchId, one.claim.challengeId, Created, 1,
           Pair(Participant(one, false, 0), Participant(two, false, 0)), map[], [], None, None)
  }

  /** The validator accepts the fresh document of any two verified authorizations
      of one match, also when no moment admits both and so no run leads to it. */
  lemma DisjointAdmissionIsRestorable(cfg: Config, one: Authorization, two: Authorization)
    requires AuthorizationVerified(cfg, one) && AuthorizationVerified(cfg, two)
    requires one.claim.slot == 1 && two.claim.slot == 2
    requires Configured(FreshDocument(one, two).participants) && !AdmissionOverlaps(FreshDocument(one, two))
    ensures Restorable(cfg, FreshDocument(one, two)) && !Reachable(cfg, FreshDocument(one, two))
  {
    RestorableIffReachable(cfg, FreshDocument(one, two));
  }

  /** Such documents exist: the second authorization starts at 20, the first one
      has expired at 10. */
  lemma DisjointAdmissionExists()
    ensures exists cfg, e :: Restorable(cfg, e) && !Reachable(cfg, e)
  {
    var cfg := Config(_ => true, (_, _) => true, _ => true, _ => true, _ => "", "authority");
    var early := Authorization(
      Claim("a", "m", "c", "a", "a", "a", "a", "a", 1, "player", "r", "d", "s", 0, 10), "issuer", "signature");
    var late := Authorization(
      Claim("b", "m", "c", "b", "b", "b", "b", "b", 2, "player", "r", "d", "s", 20, 30), "issuer", "signature");
    assert "a"[0] != "b"[0];
    DisjointAdmissionIsRestorable(cfg, early, late);
  }
}

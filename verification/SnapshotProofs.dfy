/** The snapshot validator accepts exactly the engines that accepted operations
    can produce from a new match. */
module SnapshotProofs {
  import opened Common
  import opened Contract
  import opened EventArchive
  import opened MatchEngine
  import opened EngineProgress
  import opened Snapshot

  // ------------------------------------------------------------------ archives

  lemma {:induction false} CountersAppend(events: seq<Event>, event: Event)
    ensures var longer := events + [event];
      && longer[..|events|] == events
      && CommandCount(longer) == CommandCount(events) + (if event.facts.kind == CommandApplied then 1 else 0)
      && (Terminated(longer) <==> event.facts.kind == MatchCompleted || Terminated(events))
      && (forall slot :: HasJoined(longer, slot) <==>
            (event.facts.kind == ParticipantJoined && event.facts.slot == slot) || HasJoined(events, slot))
      && (forall slot :: SlotCommands(longer, slot) == SlotCommands(events, slot) +
            (if event.facts.kind == CommandApplied && event.facts.slot == slot then 1 else 0))
  {
    assert (events + [event])[..|events|] == events;
  }

  lemma {:induction false} TerminationIsAnEvent(events: seq<Event>, i: nat)
    requires i < |events| && !Terminated(events)
    ensures events[i].facts.kind != MatchCompleted
  {
    if i < |events| - 1 {
      TerminationIsAnEvent(events[..|events| - 1], i);
    }
  }

  /** Commands come after both joins. */
  lemma {:induction false} CommandsFollowJoins(cfg: Config, events: seq<Event>, n: nat)
    requires n <= |events| && (forall i :: 0 <= i < |events| ==> ArchiveAdmits(cfg, events, i))
    requires CommandCount(events[..n]) > 0
    ensures HasJoined(events[..n], 1) && HasJoined(events[..n], 2)
  {
    assert events[..n][..n - 1] == events[..n - 1];
    if events[n - 1].facts.kind == CommandApplied {
      assert ArchiveAdmits(cfg, events, n - 1);
    } else {
      CommandsFollowJoins(cfg, events, n - 1);
    }
  }

  /** An archive that is not terminated admits any event that fits its end. */
  lemma {:induction false} ArchiveAppend(cfg: Config, events: seq<Event>, event: Event)
    requires (events != [] ==> ValidArchive(cfg, events)) && !Terminated(events)
    requires ArchiveAdmits(cfg, events + [event], |events|)
    ensures ValidArchive(cfg, events + [event])
  {
    var longer := events + [event];
    forall i | 0 <= i < |longer| ensures ArchiveAdmits(cfg, longer, i) {
      if i < |events| {
        assert ArchiveAdmits(cfg, events, i);
        assert longer[..i] == events[..i];
        TerminationIsAnEvent(events, i);
      }
    }
  }

  /** Removing the last event of a valid archive leaves a valid, open one. */
  lemma ArchivePrefix(cfg: Config, events: seq<Event>)
    requires events != [] && ValidArchive(cfg, events)
    ensures var before := events[..|events| - 1];
      (before != [] ==> ValidArchive(cfg, before)) && !Terminated(before)
  {
    var before := events[..|events| - 1];
    assert ArchiveAdmits(cfg, events, |events| - 1);
    forall i | 0 <= i < |before| ensures ArchiveAdmits(cfg, before, i) {
      assert ArchiveAdmits(cfg, events, i);
      assert before[..i] == events[..i];
      TerminationIsAnEvent(before, i);
    }
  }

  // ----------------------------------------------------------- one event further

  /** `f` is `e` with one more event and, at most, one more command record. */
  predicate Appends(e: Engine, f: Engine, event: Event)
  {
    && f.events == e.events + [event] && f.version == e.version + 1
    && f.matchId == e.matchId && f.challengeId == e.challengeId
    && f.participants.first.authorization == e.participants.first.authorization
    && f.participants.second.authorization == e.participants.second.authorization
    && (e.participants.first.joined ==> f.participants.first.joined)
    && (e.participants.second.joined ==> f.participants.second.joined)
    && (forall id :: id in e.commands ==> id in f.commands && f.commands[id] == e.commands[id])
    && (forall id :: id in f.commands && id !in e.commands ==> f.commands[id].event.facts.sequence == |f.events|)
  }

  lemma RecordKept(cfg: Config, e: Engine, f: Engine, event: Event, id: string)
    requires Appends(e, f, event) && id in e.commands && RecordHolds(cfg, e, id)
    ensures RecordHolds(cfg, f, id)
  {
  }

  lemma EventKept(e: Engine, f: Engine, event: Event, i: nat)
    requires Appends(e, f, event) && !Terminated(e.events) && i < |e.events| && EventHolds(e, i)
    requires f.events[i].facts.slot == 1 || f.events[i].facts.slot == 2
    ensures EventHolds(f, i)
  {
    TerminationIsAnEvent(e.events, i);
    assert f.events[..i] == e.events[..i];
    if e.events[i].facts.kind == ParticipantJoined {
      forall id | id in f.commands ensures f.commands[id].event.facts.sequence != i + 1 {}
    }
  }

  lemma EventsAppend(cfg: Config, e: Engine, f: Engine, event: Event)
    requires Appends(e, f, event) && !Terminated(e.events) && EventsHold(e) && ArchiveHolds(cfg, f)
    requires EventHolds(f, |e.events|)
    ensures EventsHold(f)
  {
    forall i | 0 <= i < |f.events| ensures EventHolds(f, i) {
      assert ArchiveAdmits(cfg, f.events, i);
      if i < |e.events| {
        TerminationIsAnEvent(e.events, i);
        EventKept(e, f, event, i);
      }
    }
  }

  lemma ArchiveHoldsAppend(cfg: Config, e: Engine, f: Engine, event: Event)
    requires Appends(e, f, event) && !Terminated(e.events) && ArchiveHolds(cfg, e)
    requires event.facts.matchId == e.matchId && event.facts.challengeId == e.challengeId
    requires ArchiveAdmits(cfg, f.events, |e.events|)
    ensures ArchiveHolds(cfg, f)
  {
    ArchiveAppend(cfg, e.events, event);
  }

  /** An event of this kind may come next in an open archive. */
  predicate Fits(events: seq<Event>, kind: EventKind, slot: int, payloadType: string)
  {
    match kind
    case ParticipantJoined =>
      CommandCount(events) == 0 && (slot == 1 || slot == 2) && !HasJoined(events, slot) && payloadType == JOIN_PAYLOAD_TYPE
    case CommandApplied => HasJoined(events, 1) && HasJoined(events, 2) && (slot == 1 || slot == 2)
    case MatchCompleted => CommandCount(events) != 0 && slot == 0 && payloadType == TERMINAL_PAYLOAD_TYPE
    case Unsupported(_) => false
  }

  /** The event that buildEvent seals fits the end of the archive whenever its
      kind fits the phase of the match. */
  lemma {:induction false} BuiltEventFits(cfg: Config, e: Engine, kind: EventKind, causation: Causation, now: int, slot: int,
                       payloadType: string, payload: Payload)
    requires IdentitiesHold(cfg, e) && ArchiveHolds(cfg, e) && !Terminated(e.events)
    requires BuildEvent(cfg, e, kind, causation, now, slot, payloadType, payload).Some?
    requires Fits(e.events, kind, slot, payloadType)
    ensures var event := BuildEvent(cfg, e, kind, causation, now, slot, payloadType, payload).value;
      ArchiveAdmits(cfg, e.events + [event], |e.events|)
  {
    var event := BuildEvent(cfg, e, kind, causation, now, slot, payloadType, payload).value;
    assert (e.events + [event])[..|e.events|] == e.events;
  }

  lemma OpenWhileRunning(e: Engine)
    requires ReplayHolds(e) && e.status != Completed
    ensures !Terminated(e.events)
  {
  }

  // ------------------------------------------------------ operations keep it all

  lemma JoinKeepsRestorable(cfg: Config, e: Engine, userId: string, authorizationId: string, now: int)
    requires Restorable(cfg, e) && Join(cfg, e, userId, authorizationId, now).1.JoinAccepted?
    ensures Restorable(cfg, Join(cfg, e, userId, authorizationId, now).0)
  {
    var (f, outcome) := Join(cfg, e, userId, authorizationId, now);
    JoinPrecedesCommands(cfg, e);
    JoinedArchiveHolds(cfg, e, f, outcome.event, FindSlot(e, authorizationId).value, now);
    JoinedRestHolds(cfg, e, f, outcome.event, FindSlot(e, authorizationId).value, now);
  }

  /** `f` is `e` with the participant of this slot joined by this event. */
  predicate TakesSeat(cfg: Config, e: Engine, f: Engine, event: Event, index: int, now: int)
  {
    && (index == 1 || index == 2) && e.status != Completed && !e.participants.At(index).joined
    && var participant := e.participants.At(index);
    && var claim := participant.authorization.claim;
    && AuthorizationActive(cfg, participant.authorization, now)
    && Some(event) == BuildEvent(cfg, e, ParticipantJoined, Cites(claim.authorizationId), now, claim.slot, JOIN_PAYLOAD_TYPE,
                                 JoinPayload(claim.slot, claim.subjectUserId, claim.authorizationId, claim.agentId))
    && f == e.(events := e.events + [event], version := event.facts.version,
               participants := e.participants.With(index, participant.(joined := true)),
               status := if JoinedCount(e.participants) == 0 then Waiting else Ready)
  }

  /** While a participant is missing there are no commands yet. */
  lemma {:induction false} JoinPrecedesCommands(cfg: Config, e: Engine)
    requires ArchiveHolds(cfg, e) && ReplayHolds(e) && RecordsHold(cfg, e)
    ensures !e.participants.first.joined || !e.participants.second.joined ==> CommandCount(e.events) == 0 && e.commands == map[]
  {
    if CommandCount(e.events) > 0 {
      assert e.events[..|e.events|] == e.events;
      CommandsFollowJoins(cfg, e.events, |e.events|);
    }
  }

  lemma JoinedArchiveHolds(cfg: Config, e: Engine, f: Engine, event: Event, index: int, now: int)
    requires IdentitiesHold(cfg, e) && ArchiveHolds(cfg, e) && EventsHold(e) && ReplayHolds(e)
    requires CommandCount(e.events) == 0 && e.commands == map[] && TakesSeat(cfg, e, f, event, index, now)
    ensures ArchiveHolds(cfg, f) && EventsHold(f)
  {
    var claim := e.participants.At(index).authorization.claim;
    OpenWhileRunning(e);
    BuiltEventFits(cfg, e, ParticipantJoined, Cites(claim.authorizationId), now, claim.slot, JOIN_PAYLOAD_TYPE,
                   JoinPayload(claim.slot, claim.subjectUserId, claim.authorizationId, claim.agentId));
    ArchiveHoldsAppend(cfg, e, f, event);
    assert JoinEventHolds(f, |e.events|);
    EventsAppend(cfg, e, f, event);
  }

  lemma JoinedRestHolds(cfg: Config, e: Engine, f: Engine, event: Event, index: int, now: int)
    requires QuotaHolds(e) && IdentitiesHold(cfg, e) && ReplayHolds(e) && CompletionHolds(cfg, e) && RecordsHold(cfg, e)
    requires CommandCount(e.events) == 0 && e.commands == map[] && TakesSeat(cfg, e, f, event, index, now)
    ensures QuotaHolds(f) && IdentitiesHold(cfg, f) && RecordsHold(cfg, f) && ReplayHolds(f) && CompletionHolds(cfg, f)
  {
    OpenWhileRunning(e);
    CountersAppend(e.events, event);
  }

  /** Recording one more command keeps every record bound to its event. */
  lemma RecordsAppend(cfg: Config, e: Engine, f: Engine, event: Event, id: string)
    requires Appends(e, f, event) && RecordsHold(cfg, e) && id !in e.commands
    requires f.commands.Keys == e.commands.Keys + {id} && RecordHolds(cfg, f, id)
    ensures RecordsHold(cfg, f)
  {
    forall other | other in f.commands ensures RecordHolds(cfg, f, other) {
      if other != id {
        RecordKept(cfg, e, f, event, other);
      }
    }
    forall one, two | one in f.commands && two in f.commands &&
                      f.commands[one].event.facts.sequence == f.commands[two].event.facts.sequence
      ensures one == two
    {
      if one in e.commands { assert RecordHolds(cfg, e, one); }
      if two in e.commands { assert RecordHolds(cfg, e, two); }
    }
  }

  lemma QuotaAppend(e: Engine, f: Engine, id: string, record: CommandRecord)
    requires QuotaAllows(e.commands, |record.command.payload|) && id !in e.commands
    requires f.commands == e.commands[id := record]
    ensures QuotaHolds(f)
  {
    PayloadUsedSplit(f.commands, id);
    assert f.commands - {id} == e.commands;
    assert |f.commands| == |e.commands| + 1;
  }

  /** An accepted command is recorded with the event that is appended for it. */
  lemma AcceptedCommandRecord(cfg: Config, e: Engine, userId: string, c: Command, now: int)
    requires IdentitiesHold(cfg, e) && ReplayHolds(e) && ApplyCommand(cfg, e, userId, c, now).1.CommandAccepted?
    ensures var (f, outcome) := ApplyCommand(cfg, e, userId, c, now);
      var p := e.participants.At(c.slot);
      && c.commandId !in e.commands && QuotaAllows(e.commands, |c.payload|) && (c.slot == 1 || c.slot == 2)
      && f.commands == e.commands[c.commandId := CommandRecord(c, Fingerprint(c), outcome.event)]
      && Appends(e, f, outcome.event) && RecordHolds(cfg, f, c.commandId)
      && Some(outcome.event) == BuildEvent(cfg, e, CommandApplied, Cites(c.commandId), now, c.slot, c.payloadType,
                                           CommandPayload(c.payload))
      && p.authorization.claim.issuedAt <= c.issuedAt <= now
      && c.sequence == p.lastSequence + 1 && c.expectedVersion == e.version
      && f == e.(events := f.events, version := f.version, status := Active, commands := f.commands,
                 participants := e.participants.With(c.slot, p.(lastSequence := c.sequence)))
      && (e.status == Ready || e.status == Active)
  {
  }

  lemma CommandReplayHolds(cfg: Config, e: Engine, userId: string, c: Command, now: int)
    requires IdentitiesHold(cfg, e) && ReplayHolds(e) && ApplyCommand(cfg, e, userId, c, now).1.CommandAccepted?
    ensures var f := ApplyCommand(cfg, e, userId, c, now).0;
      ReplayHolds(f) && CommandEventHolds(f, |e.events|) && !Terminated(f.events)
  {
    var (f, outcome) := ApplyCommand(cfg, e, userId, c, now);
    AcceptedCommandRecord(cfg, e, userId, c, now);
    OpenWhileRunning(e);
    CountersAppend(e.events, outcome.event);
    assert Maps(f, c.commandId, |f.events|);
  }

  lemma BothJoined(cfg: Config, e: Engine)
    requires ArchiveHolds(cfg, e) && ReplayHolds(e) && (e.status == Ready || e.status == Active)
    ensures HasJoined(e.events, 1) && HasJoined(e.events, 2)
  {
    if e.status == Active {
      assert e.events[..|e.events|] == e.events;
      CommandsFollowJoins(cfg, e.events, |e.events|);
    }
  }

  lemma CommandArchiveHolds(cfg: Config, e: Engine, f: Engine, event: Event, c: Command, now: int)
    requires IdentitiesHold(cfg, e) && ArchiveHolds(cfg, e) && EventsHold(e) && ReplayHolds(e)
    requires (e.status == Ready || e.status == Active) && (c.slot == 1 || c.slot == 2) && Appends(e, f, event)
    requires Some(event) == BuildEvent(cfg, e, CommandApplied, Cites(c.commandId), now, c.slot, c.payloadType,
                                       CommandPayload(c.payload))
    requires CommandEventHolds(f, |e.events|)
    ensures ArchiveHolds(cfg, f) && EventsHold(f)
  {
    OpenWhileRunning(e);
    BothJoined(cfg, e);
    BuiltEventFits(cfg, e, CommandApplied, Cites(c.commandId), now, c.slot, c.payloadType, CommandPayload(c.payload));
    ArchiveHoldsAppend(cfg, e, f, event);
    EventsAppend(cfg, e, f, event);
  }

  /** Nothing but the archive, the records and the cursor of one slot changes. */
  lemma RestMayStay(cfg: Config, e: Engine, f: Engine, event: Event)
    requires IdentitiesHold(cfg, e) && CompletionHolds(cfg, e) && Appends(e, f, event)
    requires !Terminated(e.events) && !Terminated(f.events)
    requires f.terminalFacts == e.terminalFacts && f.completion == e.completion
    ensures IdentitiesHold(cfg, f) && CompletionHolds(cfg, f)
  {
  }

  lemma CommandKeepsRestorable(cfg: Config, e: Engine, userId: string, c: Command, now: int)
    requires Restorable(cfg, e) && ApplyCommand(cfg, e, userId, c, now).1.CommandAccepted?
    ensures Restorable(cfg, ApplyCommand(cfg, e, userId, c, now).0)
  {
    var (f, outcome) := ApplyCommand(cfg, e, userId, c, now);
    AcceptedCommandRecord(cfg, e, userId, c, now);
    CommandReplayHolds(cfg, e, userId, c, now);
    CommandRestorable(cfg, e, f, outcome.event, c, now);
  }

  lemma CommandRestorable(cfg: Config, e: Engine, f: Engine, event: Event, c: Command, now: int)
    requires Restorable(cfg, e) && Appends(e, f, event) && ReplayHolds(f) && !Terminated(f.events)
    requires (e.status == Ready || e.status == Active) && (c.slot == 1 || c.slot == 2)
    requires Some(event) == BuildEvent(cfg, e, CommandApplied, Cites(c.commandId), now, c.slot, c.payloadType,
                                       CommandPayload(c.payload))
    requires c.commandId !in e.commands && QuotaAllows(e.commands, |c.payload|)
    requires f.commands == e.commands[c.commandId := CommandRecord(c, Fingerprint(c), event)]
    requires RecordHolds(cfg, f, c.commandId) && CommandEventHolds(f, |e.events|)
    requires f.terminalFacts == e.terminalFacts && f.completion == e.completion
    ensures Restorable(cfg, f)
  {
    OpenWhileRunning(e);
    CommandArchiveHolds(cfg, e, f, event, c, now);
    CommandRestStays(cfg, e, f, event, c);
  }

  /** What the archive says nothing of. */
  lemma CommandRestStays(cfg: Config, e: Engine, f: Engine, event: Event, c: Command)
    requires IdentitiesHold(cfg, e) && CompletionHolds(cfg, e) && RecordsHold(cfg, e) && Appends(e, f, event)
    requires !Terminated(e.events) && !Terminated(f.events)
    requires c.commandId !in e.commands && QuotaAllows(e.commands, |c.payload|)
    requires f.commands == e.commands[c.commandId := CommandRecord(c, Fingerprint(c), event)]
    requires RecordHolds(cfg, f, c.commandId)
    requires f.terminalFacts == e.terminalFacts && f.completion == e.completion
    ensures QuotaHolds(f) && IdentitiesHold(cfg, f) && RecordsHold(cfg, f) && CompletionHolds(cfg, f)
  {
    RecordsAppend(cfg, e, f, event, c.commandId);
    QuotaAppend(e, f, c.commandId, f.commands[c.commandId]);
    RestMayStay(cfg, e, f, event);
  }

  lemma CompleteKeepsRestorable(cfg: Config, e: Engine, facts: TerminalFacts, now: int)
    requires Restorable(cfg, e) && e.completion.None? && Complete(cfg, e, facts, now).1.CompletionAnswer?
    ensures Restorable(cfg, Complete(cfg, e, facts, now).0)
  {
    var f := Complete(cfg, e, facts, now).0;
    var event := f.events[|e.events|];
    assert f.events == e.events + [event];
    CompletedArchiveHolds(cfg, e, f, event, facts, now);
    CompletedRecordsHold(cfg, e, f, event);
    CompletedRestHolds(cfg, e, f, event, facts, now);
  }

  /** `f` is `e` closed by this event. */
  predicate Closes(cfg: Config, e: Engine, f: Engine, event: Event, facts: TerminalFacts, now: int)
  {
    && e.status == Active && cfg.terminalFactsValid(facts)
    && Some(event) == BuildEvent(cfg, e, MatchCompleted, Completes(facts), now, 0, TERMINAL_PAYLOAD_TYPE, TerminalPayload(facts))
    && f.completion.Some? && f.completion.value.body == CompletionBodyFor(cfg, e, facts, f.events, now)
    && f.completion.value.signature == cfg.sign(f.completion.value.body)
    && f == e.(events := e.events + [event], version := event.facts.version, status := Completed,
               terminalFacts := Some(facts), completion := f.completion)
  }

  lemma CompletedArchiveHolds(cfg: Config, e: Engine, f: Engine, event: Event, facts: TerminalFacts, now: int)
    requires IdentitiesHold(cfg, e) && ArchiveHolds(cfg, e) && EventsHold(e) && ReplayHolds(e) && RecordsHold(cfg, e)
    requires Closes(cfg, e, f, event, facts, now)
    ensures ArchiveHolds(cfg, f) && EventsHold(f)
  {
    OpenWhileRunning(e);
    assert e.events[..|e.events|] == e.events;
    CommandsFollowJoins(cfg, e.events, |e.events|);
    BuiltEventFits(cfg, e, MatchCompleted, Completes(facts), now, 0, TERMINAL_PAYLOAD_TYPE, TerminalPayload(facts));
    ArchiveHoldsAppend(cfg, e, f, event);
    forall id | id in f.commands ensures f.commands[id].event.facts.sequence != |f.events| {
      assert RecordHolds(cfg, e, id);
    }
    assert TerminalEventHolds(f, |e.events|);
    EventsAppend(cfg, e, f, event);
  }

  lemma CompletedRecordsHold(cfg: Config, e: Engine, f: Engine, event: Event)
    requires RecordsHold(cfg, e) && Appends(e, f, event) && f.commands == e.commands
    ensures RecordsHold(cfg, f)
  {
    forall id | id in f.commands ensures RecordHolds(cfg, f, id) {
      assert RecordHolds(cfg, e, id);
      RecordKept(cfg, e, f, event, id);
    }
  }

  lemma CompletedRestHolds(cfg: Config, e: Engine, f: Engine, event: Event, facts: TerminalFacts, now: int)
    requires QuotaHolds(e) && IdentitiesHold(cfg, e) && ReplayHolds(e) && Closes(cfg, e, f, event, facts, now)
    ensures QuotaHolds(f) && IdentitiesHold(cfg, f) && ReplayHolds(f) && CompletionHolds(cfg, f)
  {
    CountersAppend(e.events, event);
  }
}

/** Restoring an engine from its snapshot document (runtime/internal/core/snapshot.go).

    The authority's signature over a snapshot is taken as given: a document is an
    engine value, and `Restorable` is what validateRestoredState demands of it. */
module Snapshot {
  import opened Common
  import opened Contract
  import opened EventArchive
  import opened MatchEngine

  // -------------------------------------------------------- restored documents

  predicate IdentitiesHold(cfg: Config, e: Engine)
  {
    var one, two := e.participants.first.authorization, e.participants.second.authorization;
    && e.version == |e.events| + 1
    && one.claim.slot == 1 && two.claim.slot == 2
    && AuthorizationVerified(cfg, one) && AuthorizationVerified(cfg, two)
    && Configured(e.participants)
    && e.matchId == one.claim.matchId && e.challengeId == one.claim.challengeId
  }

  /** One command record is bound to one whole event of the archive. */
  predicate RecordHolds(cfg: Config, e: Engine, id: string)
    requires id in e.commands
  {
    var r := e.commands[id];
    && r.command.commandId == id
    && (r.command.slot == 1 || r.command.slot == 2)
    && var claim := e.participants.At(r.command.slot).authorization.claim;
    && r.command.authorizationId == claim.authorizationId && r.command.matchId == e.matchId
    && r.command.challengeId == e.challengeId && r.command.agentId == claim.agentId
    && r.command.agentKeyId == claim.agentKeyId
    && CommandVerified(cfg, r.command, claim.agentPublicKey)
    && r.fingerprint == Fingerprint(r.command)
    && 0 < r.event.facts.sequence <= |e.events|
    && r.event == e.events[r.event.facts.sequence - 1]
  }

  predicate RecordsHold(cfg: Config, e: Engine)
  {
    && (forall id :: id in e.commands ==> RecordHolds(cfg, e, id))
    && (forall id, other ::
          (id in e.commands && other in e.commands &&
           e.commands[id].event.facts.sequence == e.commands[other].event.facts.sequence) ==> id == other)
  }

  predicate Maps(e: Engine, id: string, sequence: nat)
  {
    id in e.commands && e.commands[id].event.facts.sequence == sequence
  }

  /** The command record that an applied command event cites. */
  predicate CommandEventHolds(e: Engine, i: nat)
    requires i < |e.events|
  {
    var f := e.events[i].facts;
    && f.causation.Cites? && Maps(e, f.causation.id, i + 1)
    && var c := e.commands[f.causation.id].command;
    && var claim := e.participants.At(c.slot).authorization.claim;
    && c.sequence == SlotCommands(e.events[..i], c.slot) + 1
    && c.expectedVersion == i + 1 && f.version == i + 2
    && f.slot == c.slot && f.payloadType == c.payloadType && f.payload == CommandPayload(c.payload)
    && claim.issuedAt <= c.issuedAt <= f.occurredAt
  }

  predicate JoinEventHolds(e: Engine, i: nat)
    requires i < |e.events|
  {
    var f := e.events[i].facts;
    var p := e.participants.At(f.slot);
    var claim := p.authorization.claim;
    && p.joined && f.causation == Cites(claim.authorizationId)
    && f.payload == JoinPayload(claim.slot, claim.subjectUserId, claim.authorizationId, claim.agentId)
    && claim.issuedAt <= f.occurredAt < claim.expiresAt
    && (forall id :: id in e.commands ==> e.commands[id].event.facts.sequence != i + 1)
  }

  predicate TerminalEventHolds(e: Engine, i: nat)
    requires i < |e.events|
  {
    var f := e.events[i].facts;
    && HasJoined(e.events[..i], 1) && HasJoined(e.events[..i], 2)
    && e.terminalFacts.Some? && e.completion.Some?
    && f.causation == Completes(e.terminalFacts.value)
    && f.payload == TerminalPayload(e.terminalFacts.value)
    && f.occurredAt == e.completion.value.body.completedAt
    && (forall id :: id in e.commands ==> e.commands[id].event.facts.sequence != i + 1)
  }

  predicate EventHolds(e: Engine, i: nat)
    requires i < |e.events|
  {
    match e.events[i].facts.kind
    case ParticipantJoined => JoinEventHolds(e, i)
    case CommandApplied => CommandEventHolds(e, i)
    case MatchCompleted => TerminalEventHolds(e, i)
    case Unsupported(_) => false
  }

  function ReplayedStatus(events: seq<Event>): Status
  {
    if Terminated(events) then Completed
    else if CommandCount(events) > 0 then Active
    else if HasJoined(events, 1) && HasJoined(events, 2) then Ready
    else if HasJoined(events, 1) || HasJoined(events, 2) then Waiting
    else Created
  }

  predicate CompletionHolds(cfg: Config, e: Engine)
  {
    if Terminated(e.events) then
      && e.terminalFacts.Some? && e.completion.Some?
      && cfg.terminalFactsValid(e.terminalFacts.value)
      && e.completion.value.body ==
           CompletionBodyFor(cfg, e, e.terminalFacts.value, e.events, e.completion.value.body.completedAt)
      && CompletionVerified(cfg, e.completion.value)
    else e.terminalFacts.None? && e.completion.None?
  }

  ghost predicate QuotaHolds(e: Engine)
  {
    |e.commands| <= MAX_COMMANDS && PayloadUsed(e.commands) <= MAX_COMMAND_PAYLOAD
  }

  predicate ArchiveHolds(cfg: Config, e: Engine)
  {
    e.events != [] ==>
      e.events[0].facts.matchId == e.matchId && e.events[0].facts.challengeId == e.challengeId &&
      ValidArchive(cfg, e.events)
  }

  predicate EventsHold(e: Engine)
  {
    forall i :: 0 <= i < |e.events| ==> EventHolds(e, i)
  }

  /** The state that a deterministic replay of the events arrives at. */
  predicate ReplayHolds(e: Engine)
  {
    && CommandCount(e.events) == |e.commands|
    && e.participants.first.joined == HasJoined(e.events, 1)
    && e.participants.second.joined == HasJoined(e.events, 2)
    && e.participants.first.lastSequence == SlotCommands(e.events, 1)
    && e.participants.second.lastSequence == SlotCommands(e.events, 2)
    && e.status == ReplayedStatus(e.events)
  }

  ghost predicate Restorable(cfg: Config, e: Engine)
  {
    && QuotaHolds(e) && IdentitiesHold(cfg, e) && ArchiveHolds(cfg, e) && RecordsHold(cfg, e)
    && EventsHold(e) && ReplayHolds(e) && CompletionHolds(cfg, e)
  }
}

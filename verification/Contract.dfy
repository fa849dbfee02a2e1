/** The signed wire values of one match: authorizations, commands, events and
    completions (runtime/internal/contract).

    A digest is modelled by the value it digests, so it is injective. Signature
    checks and the text and size limits of a value are predicates of the
    `Config`; a completion signature is the authority's deterministic one. */
module Contract {
  import opened Common

  datatype Claim = Claim(
    authorizationId: string, matchId: string, challengeId: string,
    agentId: string, agentDid: string, agentKeyId: string, agentPublicKey: string,
    subjectUserId: string, slot: int, role: string,
    rulesetHash: string, datasetHash: string, challengeSnapshotHash: string,
    issuedAt: int, expiresAt: int)

  datatype Authorization = Authorization(claim: Claim, issuerKeyId: string, signature: string)

  datatype Command = Command(
    commandId: string, authorizationId: string, matchId: string, challengeId: string,
    agentId: string, agentKeyId: string, slot: int, sequence: nat, expectedVersion: nat,
    issuedAt: int, payloadType: string, payload: string, signature: string)

  /** The command fingerprint digests every signed field and the signature. */
  datatype Fingerprint = Fingerprint(command: Command)

  datatype TerminalFacts = TerminalFacts(resultCode: string, winnerSlot: nat, outcomeHash: string)

  datatype EventKind = ParticipantJoined | CommandApplied | MatchCompleted | Unsupported(name: string)

  datatype Payload =
    | JoinPayload(slot: int, userId: string, authorizationId: string, agentId: string)
    | CommandPayload(bytes: string)
    | TerminalPayload(facts: TerminalFacts)

  datatype Causation = Cites(id: string) | Completes(facts: TerminalFacts)

  /** The canonical event id is a digest of these three values. */
  datatype EventId = EventId(matchId: string, causation: Causation, sequence: nat)

  datatype EventFacts = EventFacts(
    eventId: EventId, kind: EventKind, matchId: string, challengeId: string, sequence: nat,
    causation: Causation, occurredAt: int, slot: int, version: nat,
    payloadType: string, payload: Payload)

  datatype EventHash = EventHash(facts: EventFacts)

  datatype Event = Event(facts: EventFacts, hash: EventHash)

  const JOIN_PAYLOAD_TYPE := "trnm.participant.joined.v1"
  const TERMINAL_PAYLOAD_TYPE := "trnm.match.terminal-facts.v1"

  datatype RosterEntry = RosterEntry(
    slot: int, subjectUserId: string, agentId: string, agentDid: string,
    agentKeyId: string, agentPublicKey: string, role: string)

  /** The signed part of a completion. The event root and the archive hash both
      digest the archive, which therefore stands for the two of them. */
  datatype CompletionBody = CompletionBody(
    matchId: string, challengeId: string, facts: TerminalFacts, eventCount: nat,
    archive: seq<Event>, roster: Pair<RosterEntry>,
    rulesetHash: string, datasetHash: string, challengeSnapshotHash: string,
    completedAt: int, authorityKeyId: string)

  datatype Completion = Completion(body: CompletionBody, signature: string)

  datatype Config = Config(
    authorizationSigned: Authorization -> bool,
    commandSigned: (Command, string) -> bool,
    eventAdmissible: EventFacts -> bool,
    terminalFactsValid: TerminalFacts -> bool,
    sign: CompletionBody -> string,
    authorityKeyId: string)

  /** VerifyAuthorizationSignature, including the numeric part of Claim.Validate. */
  predicate AuthorizationVerified(cfg: Config, a: Authorization)
  {
    && (a.claim.slot == 1 || a.claim.slot == 2)
    && 0 <= a.claim.issuedAt < a.claim.expiresAt
    && cfg.authorizationSigned(a)
  }

  /** VerifyAuthorization: the signature and the first-use validity interval. */
  predicate AuthorizationActive(cfg: Config, a: Authorization, now: int)
  {
    AuthorizationVerified(cfg, a) && a.claim.issuedAt <= now < a.claim.expiresAt
  }

  /** VerifyCommand, including the numeric part of CommandEnvelope.Validate. */
  predicate CommandVerified(cfg: Config, c: Command, agentPublicKey: string)
  {
    && (c.slot == 1 || c.slot == 2)
    && 0 < c.sequence && 0 <= c.issuedAt
    && cfg.commandSigned(c, agentPublicKey)
  }

  predicate CompletionVerified(cfg: Config, c: Completion)
  {
    0 < c.body.eventCount && 0 <= c.body.completedAt && cfg.terminalFactsValid(c.body.facts) &&
    c.signature == cfg.sign(c.body)
  }

  /** MatchEvent.Validate. */
  predicate EventSealed(cfg: Config, e: Event)
  {
    && 0 < e.facts.sequence && 0 < e.facts.version && 0 <= e.facts.occurredAt
    && 0 <= e.facts.slot <= 2
    && cfg.eventAdmissible(e.facts)
    && e.hash == EventHash(e.facts)
  }
}

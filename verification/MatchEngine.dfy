/** The deterministic match engine (runtime/internal/core/core.go).

    An engine is a value here; the match state object that owns one is the class
    in MatchRuntime. Every operation returns the engine after the call, which on
    an error or a replay is the engine before it. Times are Unix seconds; Go's
    zero time is negative, so one sign test covers both of the source's tests. */
module MatchEngine {
  import opened Common
  import opened Contract
  import opened EventArchive

  datatype Status = Created | Waiting | Ready | Active | Completed

  datatype Participant = Participant(authorization: Authorization, joined: bool, lastSequence: nat)

  datatype CommandRecord = CommandRecord(command: Command, fingerprint: Fingerprint, event: Event)

  datatype Engine = Engine(
    matchId: string, challengeId: string, status: Status, version: nat,
    participants: Pair<Participant>, commands: map<string, CommandRecord>, events: seq<Event>,
    terminalFacts: Option<TerminalFacts>, completion: Option<Completion>)

  const MAX_COMMANDS := 512
  const MAX_COMMAND_PAYLOAD := 2 * 1024 * 1024

  datatype Rejection =
    | Unauthorized | IdempotencyConflict | WrongSequence | WrongVersion
    | WrongState | OverCapacity | Inadmissible

  // ---------------------------------------------------------------- creation

  /** validateConfiguration: two distinct identities describing one match. */
  predicate Configured(p: Pair<Participant>)
  {
    var one, two := p.first.authorization.claim, p.second.authorization.claim;
    && one.authorizationId != "" && two.authorizationId != ""
    && one.matchId == two.matchId && one.challengeId == two.challengeId
    && one.rulesetHash == two.rulesetHash && one.datasetHash == two.datasetHash
    && one.challengeSnapshotHash == two.challengeSnapshotHash
    && one.authorizationId != two.authorizationId && one.subjectUserId != two.subjectUserId
    && one.agentId != two.agentId && one.agentDid != two.agentDid
    && one.agentKeyId != two.agentKeyId && one.agentPublicKey != two.agentPublicKey
  }

  /** NewMatch: each authorization goes to the slot its claim names. */
  function NewMatch(cfg: Config, a: Authorization, b: Authorization, now: int): Option<Engine>
  {
    if now < 0 || !AuthorizationActive(cfg, a, now) || !AuthorizationActive(cfg, b, now) ||
       a.claim.slot == b.claim.slot
    then None
    else
      var first, second := if a.claim.slot == 1 then a else b, if a.claim.slot == 1 then b else a;
      var roster := Pair(Participant(first, false, 0), Participant(second, false, 0));
      if !Configured(roster) then None
      else Some(Engine(first.claim.matchId, first.claim.challengeId, Created, 1, roster, map[], [], None, None))
  }

  // ------------------------------------------------------------------ events

  /** buildEvent: the next event of the engine, sealed, or nothing. */
  function BuildEvent(cfg: Config, e: Engine, kind: EventKind, causation: Causation, now: int,
                      slot: int, payloadType: string, payload: Payload): Option<Event>
  {
    if now < 0 || (e.events != [] && now < e.events[|e.events| - 1].facts.occurredAt) then None
    else
      var sequence := |e.events| + 1;
      var facts := EventFacts(EventId(e.matchId, causation, sequence), kind, e.matchId, e.challengeId,
                              sequence, causation, now, slot, e.version + 1, payloadType, payload);
      var event := Event(facts, EventHash(facts));
      if EventSealed(cfg, event) then Some(event) else None
  }

  // -------------------------------------------------------------------- join

  datatype JoinOutcome =
    | JoinRejected(reason: Rejection)
    | JoinReplayed
    | JoinAccepted(event: Event)

  function FindSlot(e: Engine, authorizationId: string): Option<int>
  {
    if e.participants.first.authorization.claim.authorizationId == authorizationId then Some(1)
    else if e.participants.second.authorization.claim.authorizationId == authorizationId then Some(2)
    else None
  }

  function JoinedCount(p: Pair<Participant>): nat
  {
    (if p.first.joined then 1 else 0) + (if p.second.joined then 1 else 0)
  }

  function Join(cfg: Config, e: Engine, userId: string, authorizationId: string, now: int)
    : (Engine, JoinOutcome)
  {
    if e.status == Completed then (e, JoinRejected(WrongState))
    else
      match FindSlot(e, authorizationId)
      case None => (e, JoinRejected(Unauthorized))
      case Some(index) =>
        var participant := e.participants.At(index);
        var claim := participant.authorization.claim;
        if userId != claim.subjectUserId then (e, JoinRejected(Unauthorized))
        else if participant.joined then (e, JoinReplayed)
        else if !AuthorizationActive(cfg, participant.authorization, now) then (e, JoinRejected(Unauthorized))
        else
          var joined := JoinedCount(e.participants) + 1;
          var payload := JoinPayload(claim.slot, claim.subjectUserId, claim.authorizationId, claim.agentId);
          match BuildEvent(cfg, e, ParticipantJoined, Cites(claim.authorizationId), now, claim.slot,
                           JOIN_PAYLOAD_TYPE, payload)
          case None => (e, JoinRejected(Inadmissible))
          case Some(event) =>
            (e.(events := e.events + [event], version := event.facts.version,
                participants := e.participants.With(index, participant.(joined := true)),
                status := if joined == 1 then Waiting else Ready),
             JoinAccepted(event))
  }

  // ---------------------------------------------------------------- commands

  datatype CommandOutcome =
    | CommandRejected(reason: Rejection)
    | CommandReplayed(event: Event)
    | CommandAccepted(event: Event)

  /** The identity checks shared by ApplyCommand and PreflightCommand: the slot
      of the participant that may issue this command now. */
  function Authenticate(cfg: Config, e: Engine, userId: string, c: Command): Result<int, Rejection>
  {
    if e.status == Completed then Err(WrongState)
    else if e.status != Ready && e.status != Active then Err(WrongState)
    else
      match FindSlot(e, c.authorizationId)
      case None => Err(Unauthorized)
      case Some(index) =>
        var participant := e.participants.At(index);
        var claim := participant.authorization.claim;
        if !participant.joined || userId != claim.subjectUserId || c.matchId != e.matchId ||
           c.challengeId != e.challengeId || c.agentId != claim.agentId ||
           c.agentKeyId != claim.agentKeyId || c.slot != claim.slot then Err(Unauthorized)
        else if !CommandVerified(cfg, c, claim.agentPublicKey) then Err(Unauthorized)
        else Ok(index)
  }

  // --------------------------------------------------------------- who may command

  function Seats(e: Engine): set<Participant>
  {
    {e.participants.first, e.participants.second}
  }

  /** The session of this user speaks for this seat: it is the subject of the claim
      that the command cites, the claim is about the agent that signed, and the
      signature is under that agent's key. */
  predicate SpeaksFor(cfg: Config, e: Engine, p: Participant, userId: string, c: Command)
  {
    var claim := p.authorization.claim;
    && p.joined && claim.subjectUserId == userId && claim.authorizationId == c.authorizationId
    && c.agentId == claim.agentId && c.agentKeyId == claim.agentKeyId && c.slot == claim.slot
    && c.matchId == e.matchId && c.challengeId == e.challengeId
    && (c.slot == 1 || c.slot == 2) && 0 < c.sequence && 0 <= c.issuedAt
    && cfg.commandSigned(c, claim.agentPublicKey)
  }

  /** A seat of this match that the session speaks for, while commands are taken. */
  ghost predicate MayCommand(cfg: Config, e: Engine, userId: string, c: Command)
  {
    (e.status == Ready || e.status == Active) && exists p :: p in Seats(e) && SpeaksFor(cfg, e, p, userId, c)
  }

  predicate TwoSeats(e: Engine)
  {
    e.participants.first.authorization.claim.authorizationId != e.participants.second.authorization.claim.authorizationId
  }

  lemma SeatFound(e: Engine, authorizationId: string)
    ensures FindSlot(e, authorizationId).Some? ==>
      e.participants.At(FindSlot(e, authorizationId).value) in Seats(e) &&
      e.participants.At(FindSlot(e, authorizationId).value).authorization.claim.authorizationId == authorizationId
    ensures FindSlot(e, authorizationId).None? ==>
      forall p :: p in Seats(e) ==> p.authorization.claim.authorizationId != authorizationId
    ensures TwoSeats(e) ==> forall p :: p in Seats(e) && p.authorization.claim.authorizationId == authorizationId ==>
      FindSlot(e, authorizationId).Some? && p == e.participants.At(FindSlot(e, authorizationId).value)
  {
  }

  /** Only a joined subject of a seat, with a command of its own agent, gets past
      the engine, and in a match of two seats every such one does. */
  lemma AuthorityIsExact(cfg: Config, e: Engine, userId: string, c: Command)
    ensures Authenticate(cfg, e, userId, c).Ok? ==>
      e.participants.At(Authenticate(cfg, e, userId, c).value) in Seats(e) &&
      SpeaksFor(cfg, e, e.participants.At(Authenticate(cfg, e, userId, c).value), userId, c) && MayCommand(cfg, e, userId, c)
    ensures TwoSeats(e) && MayCommand(cfg, e, userId, c) ==> Authenticate(cfg, e, userId, c).Ok?
    ensures TwoSeats(e) && Authenticate(cfg, e, userId, c).Ok? ==>
      forall p :: p in Seats(e) && SpeaksFor(cfg, e, p, userId, c) ==> p == e.participants.At(Authenticate(cfg, e, userId, c).value)
  {
    SeatFound(e, c.authorizationId);
  }

  // ------------------------------------------------------------------------ quota

  /** The total payload of the recorded commands. */
  ghost function PayloadUsed(commands: map<string, CommandRecord>): nat
  {
    if commands == map[] then 0
    else
      var id :| id in commands;
      |commands[id].command.payload| + PayloadUsed(commands - {id})
  }

  ghost predicate QuotaAllows(commands: map<string, CommandRecord>, nextPayload: nat)
  {
    |commands| < MAX_COMMANDS && PayloadUsed(commands) + nextPayload <= MAX_COMMAND_PAYLOAD
  }

  /** checkCommandQuota visits the records in Go's unspecified map order. */
  method CheckCommandQuota(commands: map<string, CommandRecord>, nextPayload: nat) returns (allowed: bool)
    ensures allowed <==> QuotaAllows(commands, nextPayload)
  {
    if |commands| >= MAX_COMMANDS {
      return false;
    }
    var used := 0;
    var rest := commands;
    assert commands - {} == commands;
    while rest != map[]
      invariant used + PayloadUsed(rest) == PayloadUsed(commands)
      invariant used <= MAX_COMMAND_PAYLOAD
      decreases |rest|
    {
      var id :| id in rest;
      PayloadUsedSplit(rest, id);
      if |rest[id].command.payload| > MAX_COMMAND_PAYLOAD - used {
        return false;
      }
      used := used + |rest[id].command.payload|;
      rest := rest - {id};
    }
    allowed := nextPayload <= MAX_COMMAND_PAYLOAD - used;
  }

  lemma {:induction false} PayloadUsedSplit(commands: map<string, CommandRecord>, id: string)
    requires id in commands
    ensures PayloadUsed(commands) == |commands[id].command.payload| + PayloadUsed(commands - {id})
    decreases |commands|
  {
    var first :| first in commands &&
      PayloadUsed(commands) == |commands[first].command.payload| + PayloadUsed(commands - {first});
    if first != id {
      PayloadUsedSplit(commands - {first}, id);
      PayloadUsedSplit(commands - {id}, first);
      assert commands - {first} - {id} == commands - {id} - {first};
    }
  }

  /** ApplyCommand after authentication: replay, quota and cursor checks, then
      one command event. */
  ghost function ApplyCommand(cfg: Config, e: Engine, userId: string, c: Command, now: int)
    : (Engine, CommandOutcome)
  {
    match Authenticate(cfg, e, userId, c)
    case Err(reason) => (e, CommandRejected(reason))
    case Ok(index) =>
      if c.commandId in e.commands then
        (e, if e.commands[c.commandId].fingerprint != Fingerprint(c) then CommandRejected(IdempotencyConflict)
            else CommandReplayed(e.commands[c.commandId].event))
      else if !QuotaAllows(e.commands, |c.payload|) then (e, CommandRejected(OverCapacity))
      else AcceptCommand(cfg, e, index, c, now)
  }

  function AcceptCommand(cfg: Config, e: Engine, index: int, c: Command, now: int)
    : (Engine, CommandOutcome)
  {
    var participant := e.participants.At(index);
    var claim := participant.authorization.claim;
    if c.sequence != participant.lastSequence + 1 then (e, CommandRejected(WrongSequence))
    else if c.expectedVersion != e.version then (e, CommandRejected(WrongVersion))
    else if c.issuedAt < claim.issuedAt || now < c.issuedAt then (e, CommandRejected(Unauthorized))
    else
      match BuildEvent(cfg, e, CommandApplied, Cites(c.commandId), now, claim.slot, c.payloadType,
                       CommandPayload(c.payload))
      case None => (e, CommandRejected(Inadmissible))
      case Some(event) =>
        (e.(events := e.events + [event], version := event.facts.version, status := Active,
            participants := e.participants.With(index, participant.(lastSequence := c.sequence)),
            commands := e.commands[c.commandId := CommandRecord(c, Fingerprint(c), event)]),
         CommandAccepted(event))
  }

  datatype PreflightOutcome =
    | PreflightRejected(reason: Rejection)
    | PreflightReplayed(event: Event)
    | PreflightFresh

  /** PreflightCommand: every check of ApplyCommand that precedes the event. */
  ghost function Preflight(cfg: Config, e: Engine, userId: string, c: Command, now: int): PreflightOutcome
  {
    match Authenticate(cfg, e, userId, c)
    case Err(reason) => PreflightRejected(reason)
    case Ok(index) =>
      var participant := e.participants.At(index);
      if c.commandId in e.commands then
        if e.commands[c.commandId].fingerprint != Fingerprint(c) then PreflightRejected(IdempotencyConflict)
        else PreflightReplayed(e.commands[c.commandId].event)
      else if !QuotaAllows(e.commands, |c.payload|) then PreflightRejected(OverCapacity)
      else if c.sequence != participant.lastSequence + 1 then PreflightRejected(WrongSequence)
      else if c.expectedVersion != e.version then PreflightRejected(WrongVersion)
      else if c.issuedAt < participant.authorization.claim.issuedAt || now < c.issuedAt
      then PreflightRejected(Unauthorized)
      else PreflightFresh
  }

  method RunPreflight(cfg: Config, e: Engine, userId: string, c: Command, now: int) returns (outcome: PreflightOutcome)
    ensures outcome == Preflight(cfg, e, userId, c, now)
    ensures !outcome.PreflightRejected? ==> MayCommand(cfg, e, userId, c)
  {
    AuthorityIsExact(cfg, e, userId, c);
    match Authenticate(cfg, e, userId, c) {
      case Err(reason) =>
        return PreflightRejected(reason);
      case Ok(index) =>
        if c.commandId in e.commands {
          if e.commands[c.commandId].fingerprint != Fingerprint(c) {
            return PreflightRejected(IdempotencyConflict);
          }
          return PreflightReplayed(e.commands[c.commandId].event);
        }
        var allowed := CheckCommandQuota(e.commands, |c.payload|);
        if !allowed {
          return PreflightRejected(OverCapacity);
        }
        var participant := e.participants.At(index);
        if c.sequence != participant.lastSequence + 1 {
          return PreflightRejected(WrongSequence);
        }
        if c.expectedVersion != e.version {
          return PreflightRejected(WrongVersion);
        }
        if c.issuedAt < participant.authorization.claim.issuedAt || now < c.issuedAt {
          return PreflightRejected(Unauthorized);
        }
        return PreflightFresh;
    }
  }

  method RunCommand(cfg: Config, e: Engine, userId: string, c: Command, now: int)
    returns (after: Engine, outcome: CommandOutcome)
    ensures (after, outcome) == ApplyCommand(cfg, e, userId, c, now)
    ensures !outcome.CommandRejected? ==> MayCommand(cfg, e, userId, c)
  {
    AuthorityIsExact(cfg, e, userId, c);
    match Authenticate(cfg, e, userId, c) {
      case Err(reason) =>
        return e, CommandRejected(reason);
      case Ok(index) =>
        if c.commandId in e.commands {
          if e.commands[c.commandId].fingerprint != Fingerprint(c) {
            return e, CommandRejected(IdempotencyConflict);
          }
          return e, CommandReplayed(e.commands[c.commandId].event);
        }
        var allowed := CheckCommandQuota(e.commands, |c.payload|);
        if !allowed {
          return e, CommandRejected(OverCapacity);
        }
        var result := AcceptCommand(cfg, e, index, c, now);
        return result.0, result.1;
    }
  }

  // -------------------------------------------------------------- completion

  datatype CompletionOutcome = CompletionRejected(reason: Rejection) | CompletionAnswer(completion: Completion)

  function EntryOf(p: Participant): RosterEntry
  {
    var c := p.authorization.claim;
    RosterEntry(c.slot, c.subjectUserId, c.agentId, c.agentDid, c.agentKeyId, c.agentPublicKey, c.role)
  }

  function RosterOf(e: Engine): Pair<RosterEntry>
  {
    Pair(EntryOf(e.participants.first), EntryOf(e.participants.second))
  }

  function CompletionBodyFor(cfg: Config, e: Engine, facts: TerminalFacts, archive: seq<Event>, now: int)
    : CompletionBody
  {
    var claim := e.participants.first.authorization.claim;
    CompletionBody(e.matchId, e.challengeId, facts, |archive|, archive, RosterOf(e),
                   claim.rulesetHash, claim.datasetHash, claim.challengeSnapshotHash, now, cfg.authorityKeyId)
  }

  function Complete(cfg: Config, e: Engine, facts: TerminalFacts, now: int): (Engine, CompletionOutcome)
  {
    if !cfg.terminalFactsValid(facts) then (e, CompletionRejected(Inadmissible))
    else if e.completion.Some? then
      (e, if e.terminalFacts != Some(facts) then CompletionRejected(IdempotencyConflict)
          else CompletionAnswer(e.completion.value))
    else if e.status != Active then (e, CompletionRejected(WrongState))
    else
      match BuildEvent(cfg, e, MatchCompleted, Completes(facts), now, 0, TERMINAL_PAYLOAD_TYPE,
                       TerminalPayload(facts))
      case None => (e, CompletionRejected(Inadmissible))
      case Some(event) =>
        var archive := e.events + [event];
        if !ValidArchive(cfg, archive) then (e, CompletionRejected(Inadmissible))
        else
        var body := CompletionBodyFor(cfg, e, facts, archive, now);
        var completion := Completion(body, cfg.sign(body));
        (e.(events := archive, version := event.facts.version, status := Completed,
            terminalFacts := Some(facts), completion := Some(completion)),
         CompletionAnswer(completion))
  }
}

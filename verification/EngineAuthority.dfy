/** Who may act on a match and when: what the engine demands of a join, a command
    and a completion, stated over the claims of the two seats and the events
    (runtime/internal/core/core.go, runtime/internal/core/world_command.go). */
module EngineAuthority {
  import opened Common
  import opened Contract
  import opened EventArchive
  import opened MatchEngine

  /** The command is the next one of its seat, at the version of the engine, not
      before its authorization was issued and not after this moment. */
  predicate InTurn(e: Engine, p: Participant, c: Command, now: int)
  {
    && c.sequence == p.lastSequence + 1 && c.expectedVersion == e.version
    && p.authorization.claim.issuedAt <= c.issuedAt <= now
  }

  /** The record that this very command left. */
  predicate Recorded(e: Engine, c: Command, event: Event)
  {
    c.commandId in e.commands && e.commands[c.commandId].fingerprint == Fingerprint(c) && e.commands[c.commandId].event == event
  }

  /** The event of a command: what was commanded, where it stands, and when. */
  predicate TellsCommand(e: Engine, c: Command, now: int, event: Event)
  {
    var f := event.facts;
    && f.kind == CommandApplied && f.causation == Cites(c.commandId) && f.slot == c.slot
    && f.payloadType == c.payloadType && f.payload == CommandPayload(c.payload)
    && f.sequence == |e.events| + 1 && f.version == e.version + 1 && f.occurredAt == now
    && f.matchId == e.matchId && f.challengeId == e.challengeId
    && f.eventId == EventId(e.matchId, Cites(c.commandId), |e.events| + 1) && event.hash == EventHash(f)
  }

  /** A command is accepted or replayed only for a session that speaks for a seat
      of the match; in the name of nobody else. */
  lemma OnlySubjectsCommand(cfg: Config, e: Engine, userId: string, c: Command, now: int)
    requires !ApplyCommand(cfg, e, userId, c, now).1.CommandRejected?
    ensures (e.status == Ready || e.status == Active) && exists p :: p in Seats(e) && SpeaksFor(cfg, e, p, userId, c)
  {
    AuthorityIsExact(cfg, e, userId, c);
  }

  /** What ends in acceptance, exactly: authority, a new id, quota and turn, and an
      event that the contract admits. Nothing else is refused. */
  lemma AcceptanceIsExact(cfg: Config, e: Engine, userId: string, c: Command, now: int)
    requires TwoSeats(e)
    ensures ApplyCommand(cfg, e, userId, c, now).1.CommandAccepted? <==>
      && (e.status == Ready || e.status == Active) && c.commandId !in e.commands && QuotaAllows(e.commands, |c.payload|)
      && (exists p :: p in Seats(e) && SpeaksFor(cfg, e, p, userId, c) && InTurn(e, p, c, now))
      && 0 <= now && (e.events != [] ==> e.events[|e.events| - 1].facts.occurredAt <= now)
      && (exists event :: TellsCommand(e, c, now, event) && EventSealed(cfg, event))
    ensures ApplyCommand(cfg, e, userId, c, now).1.CommandAccepted? ==>
      TellsCommand(e, c, now, ApplyCommand(cfg, e, userId, c, now).1.event)
  {
    AuthorityIsExact(cfg, e, userId, c);
    var result := ApplyCommand(cfg, e, userId, c, now);
    if result.1.CommandAccepted? {
      assert TellsCommand(e, c, now, result.1.event) && EventSealed(cfg, result.1.event);
    }
  }

  /** A command that is already recorded is answered with its own event, to its own
      subject, and changes nothing. */
  lemma ReplayIsExact(cfg: Config, e: Engine, userId: string, c: Command, now: int, event: Event)
    requires TwoSeats(e)
    ensures ApplyCommand(cfg, e, userId, c, now).1 == CommandReplayed(event) <==>
      MayCommand(cfg, e, userId, c) && Recorded(e, c, event)
    ensures !ApplyCommand(cfg, e, userId, c, now).1.CommandAccepted? ==> ApplyCommand(cfg, e, userId, c, now).0 == e
  {
    AuthorityIsExact(cfg, e, userId, c);
  }

  /** Preflight lets through exactly what would be accepted now, were its event
      admissible, and replays exactly what is replayed. */
  lemma PreflightIsExact(cfg: Config, e: Engine, userId: string, c: Command, now: int)
    requires TwoSeats(e)
    ensures Preflight(cfg, e, userId, c, now).PreflightFresh? <==>
      && (e.status == Ready || e.status == Active) && c.commandId !in e.commands && QuotaAllows(e.commands, |c.payload|)
      && (exists p :: p in Seats(e) && SpeaksFor(cfg, e, p, userId, c) && InTurn(e, p, c, now))
    ensures forall event :: Preflight(cfg, e, userId, c, now) == PreflightReplayed(event) <==>
      MayCommand(cfg, e, userId, c) && Recorded(e, c, event)
  {
    AuthorityIsExact(cfg, e, userId, c);
  }

  /** Nobody but the subject of a seat passes preflight. */
  lemma OnlySubjectsPass(cfg: Config, e: Engine, userId: string, c: Command, now: int)
    requires !Preflight(cfg, e, userId, c, now).PreflightRejected?
    ensures (e.status == Ready || e.status == Active) && exists p :: p in Seats(e) && SpeaksFor(cfg, e, p, userId, c)
  {
    AuthorityIsExact(cfg, e, userId, c);
  }

  // ------------------------------------------------------------------ completions

  /** A completion is answered exactly in two cases: it is the first one of an
      active match and closes a valid archive, or it repeats the facts of the one
      that is there, which it then returns unchanged. */
  lemma CompletionIsExact(cfg: Config, e: Engine, facts: TerminalFacts, now: int)
    ensures Complete(cfg, e, facts, now).1.CompletionAnswer? <==>
      && cfg.terminalFactsValid(facts)
      && if e.completion.Some? then e.terminalFacts == Some(facts)
         else
           e.status == Active && 0 <= now && (e.events != [] ==> e.events[|e.events| - 1].facts.occurredAt <= now) &&
           exists event :: TellsEnd(e, facts, now, event) && EventSealed(cfg, event) && ValidArchive(cfg, e.events + [event])
    ensures e.completion.Some? ==> Complete(cfg, e, facts, now).0 == e
    ensures e.completion.Some? && Complete(cfg, e, facts, now).1.CompletionAnswer? ==>
      Complete(cfg, e, facts, now).1.completion == e.completion.value
    ensures e.completion.None? && Complete(cfg, e, facts, now).1.CompletionAnswer? ==>
      var (f, answer) := Complete(cfg, e, facts, now);
      && |f.events| == |e.events| + 1 && f.events[..|e.events|] == e.events && TellsEnd(e, facts, now, f.events[|e.events|])
      && f.completion == Some(answer.completion) && answer.completion.body.archive == f.events
      && answer.completion.body.facts == facts && answer.completion.body.eventCount == |f.events|
      && answer.completion.body.matchId == e.matchId && answer.completion.body.completedAt == now
      && answer.completion.signature == cfg.sign(answer.completion.body)
  {
    var (f, answer) := Complete(cfg, e, facts, now);
    if e.completion.None? && answer.CompletionAnswer? {
      assert TellsEnd(e, facts, now, f.events[|e.events|]) && f.events == e.events + [f.events[|e.events|]];
    }
  }

  predicate TellsEnd(e: Engine, facts: TerminalFacts, now: int, event: Event)
  {
    var f := event.facts;
    && f.kind == MatchCompleted && f.causation == Completes(facts) && f.slot == 0
    && f.payloadType == TERMINAL_PAYLOAD_TYPE && f.payload == TerminalPayload(facts)
    && f.sequence == |e.events| + 1 && f.version == e.version + 1 && f.occurredAt == now
    && f.matchId == e.matchId && f.challengeId == e.challengeId
    && f.eventId == EventId(e.matchId, Completes(facts), |e.events| + 1) && event.hash == EventHash(f)
  }

  // ----------------------------------------------------------------------- joins

  /** The session of this user may take this seat. */
  predicate SeatOf(p: Participant, userId: string, authorizationId: string)
  {
    p.authorization.claim.authorizationId == authorizationId && p.authorization.claim.subjectUserId == userId
  }

  /** The event of a join: who takes which seat, where it stands, and when. */
  predicate TellsJoin(e: Engine, p: Participant, now: int, event: Event)
  {
    var f, claim := event.facts, p.authorization.claim;
    && f.kind == ParticipantJoined && f.causation == Cites(claim.authorizationId) && f.slot == claim.slot
    && f.payloadType == JOIN_PAYLOAD_TYPE
    && f.payload == JoinPayload(claim.slot, claim.subjectUserId, claim.authorizationId, claim.agentId)
    && f.sequence == |e.events| + 1 && f.version == e.version + 1 && f.occurredAt == now
    && f.matchId == e.matchId && f.challengeId == e.challengeId
    && f.eventId == EventId(e.matchId, Cites(claim.authorizationId), |e.events| + 1) && event.hash == EventHash(f)
  }

  /** Only the subject of the cited claim joins or rejoins. */
  lemma OnlySubjectsJoin(cfg: Config, e: Engine, userId: string, authorizationId: string, now: int)
    requires !Join(cfg, e, userId, authorizationId, now).1.JoinRejected?
    ensures e.status != Completed && exists p :: p in Seats(e) && SeatOf(p, userId, authorizationId)
  {
    SeatFound(e, authorizationId);
  }

  /** A join is accepted exactly for the subject of a free seat whose authorization
      is verified and valid at this moment, if the contract admits its event; it is
      replayed exactly for the subject of a taken seat. */
  lemma JoinIsExact(cfg: Config, e: Engine, userId: string, authorizationId: string, now: int)
    requires TwoSeats(e)
    ensures Join(cfg, e, userId, authorizationId, now).1.JoinAccepted? <==>
      && e.status != Completed && 0 <= now && (e.events != [] ==> e.events[|e.events| - 1].facts.occurredAt <= now)
      && (exists p, event :: p in Seats(e) && SeatOf(p, userId, authorizationId) && !p.joined &&
            AuthorizationActive(cfg, p.authorization, now) && TellsJoin(e, p, now, event) && EventSealed(cfg, event))
    ensures Join(cfg, e, userId, authorizationId, now).1.JoinReplayed? <==>
      e.status != Completed && exists p :: p in Seats(e) && SeatOf(p, userId, authorizationId) && p.joined
    ensures !Join(cfg, e, userId, authorizationId, now).1.JoinAccepted? ==> Join(cfg, e, userId, authorizationId, now).0 == e
    ensures Join(cfg, e, userId, authorizationId, now).1.JoinAccepted? ==>
      exists p :: p in Seats(e) && SeatOf(p, userId, authorizationId) && !p.joined &&
        TellsJoin(e, p, now, Join(cfg, e, userId, authorizationId, now).1.event)
  {
    SeatFound(e, authorizationId);
    var result := Join(cfg, e, userId, authorizationId, now);
    if result.1.JoinAccepted? {
      var p := e.participants.At(FindSlot(e, authorizationId).value);
      assert p in Seats(e) && SeatOf(p, userId, authorizationId) && !p.joined && TellsJoin(e, p, now, result.1.event);
    }
  }

  // -------------------------------------------------------------------- a new match

  /** What tells two participants apart. */
  function Identities(claim: Claim): seq<string>
  {
    [claim.authorizationId, claim.subjectUserId, claim.agentId, claim.agentDid, claim.agentKeyId, claim.agentPublicKey]
  }

  /** What both participants have agreed to. */
  function Terms(claim: Claim): seq<string>
  {
    [claim.matchId, claim.challengeId, claim.rulesetHash, claim.datasetHash, claim.challengeSnapshotHash]
  }

  /** A match is made exactly of two authorizations that are verified and valid now, for
      different slots, on the same terms, and with no identity in common; each of them
      gets the seat of its slot, and nothing has happened yet. */
  lemma {:induction false} CreationIsExact(cfg: Config, a: Authorization, b: Authorization, now: int)
    ensures NewMatch(cfg, a, b, now).Some? <==>
      && 0 <= now && AuthorizationActive(cfg, a, now) && AuthorizationActive(cfg, b, now) && a.claim.slot != b.claim.slot
      && Terms(a.claim) == Terms(b.claim) && a.claim.authorizationId != "" && b.claim.authorizationId != ""
      && (forall i :: 0 <= i < |Identities(a.claim)| ==> Identities(a.claim)[i] != Identities(b.claim)[i])
    ensures NewMatch(cfg, a, b, now).Some? ==>
      var e := NewMatch(cfg, a, b, now).value;
      && e.status == Created && e.version == 1 && e.events == [] && e.commands == map[] && e.completion.None?
      && e.terminalFacts.None? && e.matchId == a.claim.matchId && e.challengeId == a.claim.challengeId
      && e.participants.first.authorization.claim.slot == 1 && e.participants.second.authorization.claim.slot == 2
      && Seats(e) == {Participant(a, false, 0), Participant(b, false, 0)}
  {
    var one, two := Identities(a.claim), Identities(b.claim);
    assert (forall i :: 0 <= i < |one| ==> one[i] != two[i]) <==>
      one[0] != two[0] && one[1] != two[1] && one[2] != two[2] && one[3] != two[3] && one[4] != two[4] && one[5] != two[5];
    var s, t := Terms(a.claim), Terms(b.claim);
    assert s == t <==> s[0] == t[0] && s[1] == t[1] && s[2] == t[2] && s[3] == t[3] && s[4] == t[4];
  }
}

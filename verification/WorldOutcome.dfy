/** When a command of a target instance commits, and what both durable objects hold
    afterwards, stated over the objects and over what the command meets on its way
    (runtime/world_authoritative_match.go, runtime/internal/worldcommand). */
module WorldOutcome {
  import opened Common
  import opened Contract
  import opened MatchEngine
  import opened StoredMatch
  import opened MatchCallbacks
  import opened MatchDelivery
  import opened WorldStore
  import opened WorldAgreement
  import opened WorldStorage

  /** Everything one target command meets on its way: what the wire and the World
      side answer, and the fate of each storage call. */
  datatype Script = Script(
    readable: bool, initialState: string, initialTick: int, openFault: Fault,
    payloadTypeMatches: bool, canonicalPayload: Option<string>,
    codecPrepares: bool, prepareFault: Fault, beginFault: Fault, verdict: Verdict, committedAt: int,
    retireFault: Fault, encodes: bool, commitFault: Fault, failureFault: Fault)

  const MAX_INT64 := 0x7fff_ffff_ffff_ffff

  function IntentOf(userId: string, c: Command, payload: string): Intent
  {
    Intent(c.commandId, userId, c.authorizationId, c.sequence, payload)
  }

  // -------------------------------------------------------------- durable objects

  /** This is the durable World document of the match. */
  predicate StandsAt(o: Objects, id: string, doc: WorldDoc)
  {
    id in o.data.worlds && o.data.worlds[id] == doc
  }

  /** From `a` to `b` only the World document of this match was replaced. */
  predicate Replaced(a: Objects, b: Objects, id: string, doc: WorldDoc)
  {
    b.data.worlds == a.data.worlds[id := doc] && b.data.matches == a.data.matches
  }

  lemma ReplacedTwice(a: Objects, b: Objects, c: Objects, id: string, one: WorldDoc, two: WorldDoc)
    requires Replaced(a, b, id, one) && Replaced(b, c, id, two)
    ensures Replaced(a, c, id, two) && StandsAt(b, id, one)
  {
  }

  /** A reliable write of the World document is acknowledged exactly if the document
      that it expects is the durable one. */
  lemma SwapLands(a: Objects, id: string, doc: WorldDoc, next: WorldDoc)
    ensures var call := Bookkeeping(WorldWrite(id, next, Some(WorldDigest(doc))));
      && (AdmitsCall(a.data, call) <==> StandsAt(a, id, doc))
      && (StandsAt(a, id, doc) ==> Replaced(a, AfterCall(a, call, Reliable), id, next))
  {
  }

  // ------------------------------------------------------------ the two-object commit

  /** The commit of both objects reaches the storage and finds both values that the
      instance knows. */
  predicate Lands(a: Objects, pre: Instance, doc: WorldDoc, script: Script)
  {
    script.encodes && script.commitFault.Reliable? && Stored(a.data.matches, pre.record) && StandsAt(a, pre.logicalId, doc)
  }

  predicate BothReplaced(a: Objects, b: Objects, pre: Instance, after: Engine, doc: WorldDoc)
  {
    && b.data.matches == a.data.matches[pre.record.logicalId := pre.record.(snapshot := after)]
    && b.data.worlds == a.data.worlds[pre.logicalId := doc]
  }

  lemma PairLands(a: Objects, pre: Instance, after: Engine, doc: WorldDoc, next: WorldDoc)
    requires pre.version == Digest(pre.record) && pre.record.logicalId == pre.logicalId
    ensures var call := PairCall(pre, after, next, WorldDigest(doc));
      && (AdmitsCall(a.data, call) <==> Stored(a.data.matches, pre.record) && StandsAt(a, pre.logicalId, doc))
      && (AdmitsCall(a.data, call) ==> BothReplaced(a, AfterCall(a, call, Reliable), pre, after, next))
  {
  }

  // ------------------------------------------------------------------- documents

  /** The document `b` is `a` with this command accepted: one event, one version and
      one revision further, at the state and the tick that the World service named,
      with a receipt for the command and nothing reserved for it. */
  predicate Records(a: WorldDoc, b: WorldDoc, intent: Intent, state: string, tick: int, outcome: string, at: int)
  {
    && b.state == WorldState(a.state.matchId, a.state.roster, a.state.version + 1, a.state.nextSequence + 1,
                             a.state.revision + 1, state, tick, a.state.sequences[intent.participantId := intent.sequence])
    && b.receipts == a.receipts[intent.commandId :=
         Receipt(intent, true, Some(a.state.nextSequence), a.state.version + 1, at, outcome)]
    && b.reservations == a.reservations - {intent.commandId} && b.retired == a.retired
  }

  /** The document `b` is `a` with this command rejected for good. */
  predicate RecordsRejection(a: WorldDoc, b: WorldDoc, intent: Intent, at: int)
  {
    && b.state == a.state
    && b.receipts == a.receipts[intent.commandId := Receipt(intent, false, None, a.state.version, at, "")]
    && b.reservations == a.reservations - {intent.commandId} && b.retired == a.retired
  }

  /** The executor's verdict can be committed on this document. */
  predicate Commitable(doc: WorldDoc, verdict: Verdict)
  {
    match verdict
    case AcceptsCommand(_, nextTick, _) => doc.state.tick <= nextTick
    case RejectsCommand(retryable) => !retryable
    case _ => false
  }

  lemma CandidateRecords(doc: WorldDoc, reservation: Reservation, verdict: Verdict, at: int)
    ensures Candidate(doc, reservation, verdict, at).Some? <==> Commitable(doc, verdict)
    ensures Commitable(doc, verdict) ==>
      var (next, receipt) := Candidate(doc, reservation, verdict, at).value;
      && receipt.accepted == verdict.AcceptsCommand?
      && (verdict.AcceptsCommand? ==>
            Records(doc, next, reservation.intent, verdict.nextState, verdict.nextTick, verdict.outcome, at))
      && (verdict.RejectsCommand? ==> RecordsRejection(doc, next, reservation.intent, at))
  {
  }

  /** A command can be reserved on this document and its attempt begun. */
  predicate Reservable(doc: WorldDoc, intent: Intent, script: Script)
  {
    && intent.commandId !in doc.receipts && script.beginFault.Reliable?
    && if intent.commandId in doc.reservations then doc.reservations[intent.commandId].intent == intent
       else
         intent.sequence == ParticipantSequence(doc.state, intent.participantId) + 1 && script.codecPrepares &&
         script.prepareFault.Reliable?
  }

  /** The document `b` is `a` with an attempt at this command begun. A new reservation
      is fenced by the state it was made at, and numbered above all retired ones. */
  predicate Reserves(a: WorldDoc, b: WorldDoc, intent: Intent, r: Reservation)
  {
    && b == a.(reservations := a.reservations[intent.commandId := r])
    && if intent.commandId in a.reservations then
         r == a.reservations[intent.commandId].(attempts := a.reservations[intent.commandId].attempts + [false])
       else
         && r == Reservation(intent, r.generation, FenceOf(a.state, intent.participantId), [false])
         && 0 < r.generation
         && forall i :: 0 <= i < |a.retired| && a.retired[i].intent.commandId == intent.commandId ==>
              a.retired[i].generation < r.generation
  }

  /** Store.Prepare finds or makes a reservation of this command. */
  predicate Preparable(o: Objects, id: string, doc: WorldDoc, intent: Intent, script: Script)
  {
    && intent.commandId !in doc.receipts
    && if intent.commandId in doc.reservations then doc.reservations[intent.commandId].intent == intent
       else
         intent.sequence == ParticipantSequence(doc.state, intent.participantId) + 1 && script.codecPrepares &&
         script.prepareFault.Reliable? && StandsAt(o, id, doc)
  }

  predicate Prepares(a: WorldDoc, b: WorldDoc, intent: Intent, r: Reservation)
  {
    && r.intent == intent && intent.commandId !in b.receipts
    && b == a.(reservations := a.reservations[intent.commandId := r])
    && if intent.commandId in a.reservations then r == a.reservations[intent.commandId] && a == b
       else
         && r == Reservation(intent, r.generation, FenceOf(a.state, intent.participantId), [])
         && 0 < r.generation
         && forall i :: 0 <= i < |a.retired| && a.retired[i].intent.commandId == intent.commandId ==>
              a.retired[i].generation < r.generation
  }

  lemma ReservedInTurn(a: Objects, b: Objects, c: Objects, id: string, first: WorldDoc, mid: WorldDoc, last: WorldDoc,
                       intent: Intent, r: Reservation, begun: Reservation)
    requires Prepares(first, mid, intent, r) && begun == r.(attempts := r.attempts + [false])
    requires last == mid.(reservations := mid.reservations[intent.commandId := begun]) && Replaced(b, c, id, last)
    requires if intent.commandId in first.reservations then a == b else Replaced(a, b, id, mid)
    ensures Reserves(first, last, intent, begun) && Replaced(a, c, id, last)
  {
    assert [] + [false] == [false];
    assert first.reservations[intent.commandId := r][intent.commandId := begun] == first.reservations[intent.commandId := begun];
  }

  lemma {:induction false} GenerationIsNew(retired: seq<Reservation>, commandId: string)
    ensures var next := NextGeneration(retired, commandId);
      0 < next && forall i :: 0 <= i < |retired| && retired[i].intent.commandId == commandId ==> retired[i].generation < next
  {
    if retired != [] {
      GenerationIsNew(retired[..|retired| - 1], commandId);
      forall i | 0 <= i < |retired| && retired[i].intent.commandId == commandId
        ensures retired[i].generation < NextGeneration(retired, commandId)
      {
        if i < |retired| - 1 {
          assert retired[i] == retired[..|retired| - 1][i];
        }
      }
    }
  }

  /** A reservation that is already there was made at the present state. */
  predicate Unfenced(doc: WorldDoc, intent: Intent)
  {
    intent.commandId in doc.reservations ==>
      doc.reservations[intent.commandId].fence == FenceOf(doc.state, intent.participantId)
  }

  /** What the reservation added is gone again with the commit. */
  lemma RecordsAfterReserving(doc: WorldDoc, mid: WorldDoc, next: WorldDoc, intent: Intent, r: Reservation, state: string,
                              tick: int, outcome: string, at: int)
    requires Reserves(doc, mid, intent, r)
    ensures Records(mid, next, intent, state, tick, outcome, at) ==> Records(doc, next, intent, state, tick, outcome, at)
    ensures RecordsRejection(mid, next, intent, at) ==> RecordsRejection(doc, next, intent, at)
  {
    var id := intent.commandId;
    assert mid.reservations - {id} == doc.reservations - {id};
  }

  // ------------------------------------------------------------------ the document

  /** The document that a command works on: the one that is open, or the stored one
      if it agrees with the engine, or a new one while there were only joins. */
  function Found(store: Option<OpenStore>, o: Objects, id: string, e: Engine, script: Script): Option<WorldDoc>
  {
    if store.Some? then Some(store.value.doc)
    else if !script.readable then None
    else if id in o.data.worlds then (if CursorsAgree(o.data.worlds[id].state, e) then Some(o.data.worlds[id]) else None)
    else if |e.events| <= 2 && script.openFault.Reliable? then Some(FirstDoc(e, script.initialState, script.initialTick))
    else None
  }

  // ------------------------------------------------------------------- the command

  /** The World service and the engine accept the command, and its commit lands. */
  ghost predicate Finishes(cfg: Config, pre: Instance, doc: WorldDoc, a: Objects, userId: string, c: Command, script: Script)
  {
    && script.verdict.AcceptsCommand? && doc.state.tick <= script.verdict.nextTick
    && ApplyCommand(cfg, pre.engine, userId, c, script.committedAt).1.CommandAccepted?
    && Lands(a, pre, doc, script)
  }

  /** How a target command ends; only the last of these stops the instance. */
  datatype Ending = Done | Refused | Fatal

  /** The World service gives no result that could be committed. */
  predicate NoResult(verdict: Verdict)
  {
    verdict.ExecutorFails? || verdict.ResultInvalid? || (verdict.RejectsCommand? && verdict.retryable)
  }

  /** How an attempt ends, at this document with the reservation in it, which is
      fenced if the state has moved on since it was made. */
  ghost function AttemptEnds(cfg: Config, pre: Instance, doc: WorldDoc, a: Objects, userId: string, c: Command, fenced: bool,
                             script: Script): Ending
  {
    if NoResult(script.verdict) then
      if !script.verdict.ResultInvalid? && script.verdict.retryable then Refused else Fatal
    else if fenced then
      if script.retireFault.Reliable? && StandsAt(a, pre.logicalId, doc) then Fatal else Refused
    else if Finishes(cfg, pre, doc, a, userId, c, script) then Done
    else Refused
  }

  /** How a command with this intent ends once the document is open. */
  ghost function EndingOf(cfg: Config, pre: Instance, doc: WorldDoc, a: Objects, userId: string, c: Command, intent: Intent,
                          script: Script): Ending
  {
    if intent.commandId in doc.receipts && doc.receipts[intent.commandId].intent == intent then
      if doc.receipts[intent.commandId].accepted then Fatal else Refused
    else if !Reservable(doc, intent, script) || !StandsAt(a, pre.logicalId, doc) then Fatal
    else AttemptEnds(cfg, pre, doc, a, userId, c, !Unfenced(doc, intent), script)
  }

  /** With the reservation made, the rest of the way is the same. */
  lemma ReservedAgrees(cfg: Config, pre: Instance, doc: WorldDoc, mid: WorldDoc, a: Objects, b: Objects, userId: string,
                       c: Command, intent: Intent, r: Reservation, script: Script)
    requires Reserves(doc, mid, intent, r) && StandsAt(a, pre.logicalId, doc) && Replaced(a, b, pre.logicalId, mid)
    requires Reservable(doc, intent, script)
    ensures r.intent == intent && StandsAt(b, pre.logicalId, mid)
    ensures Lands(b, pre, mid, script) <==> Lands(a, pre, doc, script)
    ensures Finishes(cfg, pre, mid, b, userId, c, script) <==> Finishes(cfg, pre, doc, a, userId, c, script)
    ensures r.fence == FenceOf(mid.state, intent.participantId) <==> Unfenced(doc, intent)
    ensures AttemptEnds(cfg, pre, mid, b, userId, c, r.fence != FenceOf(mid.state, intent.participantId), script) ==
      EndingOf(cfg, pre, doc, a, userId, c, intent, script)
  {
  }

  lemma LeavesFromStart(cfg: Config, pre: Instance, doc: WorldDoc, mid: WorldDoc, a: Objects, b: Objects, userId: string,
                        c: Command, intent: Intent, r: Reservation, script: Script, end: Objects, next: Instance,
                        store: Option<OpenStore>, sent: seq<Notice>)
    requires Reserves(doc, mid, intent, r) && Replaced(a, b, pre.logicalId, mid)
    ensures Leaves(cfg, pre, mid, b, userId, c, intent, script, end, next, store, sent) ==>
      Leaves(cfg, pre, doc, a, userId, c, intent, script, end, next, store, sent)
    ensures LeavesRejection(pre, mid, b, intent, script, end, next, store, sent) ==>
      LeavesRejection(pre, doc, a, intent, script, end, next, store, sent)
  {
    if store.Some? && script.verdict.AcceptsCommand? {
      RecordsAfterReserving(doc, mid, store.value.doc, intent, r, script.verdict.nextState, script.verdict.nextTick,
                            script.verdict.outcome, script.committedAt);
    } else if store.Some? {
      RecordsAfterReserving(doc, mid, store.value.doc, intent, r, "", 0, "", script.committedAt);
    }
  }

  /** The World service rejects the command of this attempt for good, and the commit
      of that lands. */
  predicate RejectionLands(pre: Instance, doc: WorldDoc, a: Objects, fenced: bool, script: Script)
  {
    !fenced && script.verdict.RejectsCommand? && !script.verdict.retryable && Lands(a, pre, doc, script)
  }

  /** The same of a command from its reservation on. */
  predicate RejectedForGood(pre: Instance, doc: WorldDoc, a: Objects, intent: Intent, script: Script)
  {
    && Reservable(doc, intent, script) && Unfenced(doc, intent)
    && RejectionLands(pre, doc, a, false, script)
  }

  /** What a committed command leaves: its event sent to everybody, the match record
      with the engine after it, and the World document that records it. */
  ghost predicate Leaves(cfg: Config, pre: Instance, doc: WorldDoc, a: Objects, userId: string, c: Command, intent: Intent,
                         script: Script, b: Objects, next: Instance, store: Option<OpenStore>, sent: seq<Notice>)
  {
    var (after, outcome) := ApplyCommand(cfg, pre.engine, userId, c, script.committedAt);
    && outcome.CommandAccepted? && sent == [ToAll(outcome.event)]
    && next == pre.(engine := after, record := pre.record.(snapshot := after), version := Digest(pre.record.(snapshot := after)))
    && store.Some? && BothReplaced(a, b, pre, after, store.value.doc)
    && script.verdict.AcceptsCommand?
    && Records(doc, store.value.doc, intent, script.verdict.nextState, script.verdict.nextTick, script.verdict.outcome,
               script.committedAt)
  }

  /** What a rejected command leaves: nothing sent, the instance and the match record
      as they were, and the World document that records the rejection. */
  predicate LeavesRejection(pre: Instance, doc: WorldDoc, a: Objects, intent: Intent, script: Script, b: Objects,
                            next: Instance, store: Option<OpenStore>, sent: seq<Notice>)
  {
    && sent == [] && next == pre && store.Some? && Replaced(a, b, pre.logicalId, store.value.doc)
    && RecordsRejection(doc, store.value.doc, intent, script.committedAt)
  }

  /** An attempt is under way. */
  predicate UnderWay(r: Reservation)
  {
    r.attempts != [] && !r.attempts[|r.attempts| - 1]
  }

  /** The document `b` is `a` with the attempt of this reservation closed. */
  predicate Closes(a: WorldDoc, b: WorldDoc, r: Reservation)
  {
    r.attempts != [] &&
    b == a.(reservations := a.reservations[r.intent.commandId := r.(attempts := r.attempts[|r.attempts| - 1 := true])])
  }

  /** The document `b` is `a` with one more failed attempt at the command, which stays
      reserved as it was. */
  predicate StaysReserved(a: WorldDoc, b: WorldDoc, intent: Intent)
  {
    && intent.commandId in b.reservations
    && var r := b.reservations[intent.commandId];
    && b == a.(reservations := a.reservations[intent.commandId := r]) && r.intent == intent
    && if intent.commandId in a.reservations then
         r == a.reservations[intent.commandId].(attempts := a.reservations[intent.commandId].attempts + [true])
       else r.attempts == [true] && r.fence == FenceOf(a.state, intent.participantId)
  }

  lemma FailureStaysReserved(doc: WorldDoc, mid: WorldDoc, next: WorldDoc, intent: Intent, r: Reservation)
    requires Reserves(doc, mid, intent, r) && r.intent == intent && Closes(mid, next, r)
    ensures StaysReserved(doc, next, intent)
  {
    var id, last := intent.commandId, |r.attempts| - 1;
    var closed := r.(attempts := r.attempts[last := true]);
    assert doc.reservations[id := r][id := closed] == doc.reservations[id := closed];
    if id in doc.reservations {
      var before := doc.reservations[id].attempts;
      assert (before + [false])[|before| := true] == before + [true];
    } else {
      assert closed.attempts == [true];
    }
  }

  /** The document `b` is `a` with this reservation retired. */
  predicate Retires(a: WorldDoc, b: WorldDoc, r: Reservation)
  {
    && b.state == a.state && b.receipts == a.receipts
    && b.reservations == a.reservations - {r.intent.commandId} && b.retired == a.retired + [r]
  }

  /** The reservation that is there is retired, with the attempt that met the fence. */
  predicate RetiresReserved(a: WorldDoc, b: WorldDoc, intent: Intent)
  {
    intent.commandId in a.reservations &&
    var r := a.reservations[intent.commandId];
    Retires(a, b, r.(attempts := r.attempts + [false]))
  }

  lemma FencedIsRetired(doc: WorldDoc, mid: WorldDoc, next: WorldDoc, intent: Intent, r: Reservation)
    requires Reserves(doc, mid, intent, r) && r.intent == intent && !Unfenced(doc, intent) && Retires(mid, next, r)
    ensures RetiresReserved(doc, next, intent)
  {
    var id := intent.commandId;
    assert mid.reservations - {id} == doc.reservations - {id};
  }

  /** A verdict that could be committed meets the fence, and the retirement lands. */
  predicate RetirementLands(pre: Instance, doc: WorldDoc, a: Objects, fenced: bool, script: Script)
  {
    fenced && !NoResult(script.verdict) && script.retireFault.Reliable? && StandsAt(a, pre.logicalId, doc)
  }

  /** A failed execution is recorded. */
  predicate FailureLands(pre: Instance, doc: WorldDoc, a: Objects, script: Script)
  {
    NoResult(script.verdict) && script.failureFault.Reliable? && StandsAt(a, pre.logicalId, doc)
  }

  // -------------------------------------------------------- the whole of a command

  /** The payload is the one of the profile, and the document stands where the engine
      does. */
  predicate Admissible(pre: Instance, doc: WorldDoc, script: Script)
  {
    && script.payloadTypeMatches && script.canonicalPayload.Some?
    && CursorsAgree(doc.state, pre.engine) && pre.engine.version <= MAX_INT64 && |pre.engine.events| + 1 <= MAX_INT64
  }

  /** How a fresh command ends on this document. */
  ghost function FreshEnds(cfg: Config, pre: Instance, doc: WorldDoc, a: Objects, userId: string, c: Command, script: Script)
    : Ending
  {
    if !script.payloadTypeMatches || script.canonicalPayload.None? then Refused
    else if !Admissible(pre, doc, script) then Fatal
    else EndingOf(cfg, pre, doc, a, userId, c, IntentOf(userId, c, script.canonicalPayload.value), script)
  }

  /** What a fresh command leaves when it is committed, rejected for good, or fails. */
  ghost predicate FreshLeaves(cfg: Config, pre: Instance, doc: WorldDoc, a: Objects, userId: string, c: Command, script: Script,
                              ending: Ending, b: Objects, next: Instance, store: Option<OpenStore>, sent: seq<Notice>)
  {
    Admissible(pre, doc, script) ==>
      var intent := IntentOf(userId, c, script.canonicalPayload.value);
      && (ending.Done? ==> Leaves(cfg, pre, doc, a, userId, c, intent, script, b, next, store, sent))
      && (RejectedForGood(pre, doc, a, intent, script) ==> LeavesRejection(pre, doc, a, intent, script, b, next, store, sent))
      && (Reservable(doc, intent, script) && FailureLands(pre, doc, a, script) ==>
            sent == [] && store.Some? && StaysReserved(doc, store.value.doc, intent) &&
            Replaced(a, b, pre.logicalId, store.value.doc))
      && (Reservable(doc, intent, script) && RetirementLands(pre, doc, a, !Unfenced(doc, intent), script) ==>
            sent == [] && store.Some? && RetiresReserved(doc, store.value.doc, intent) &&
            Replaced(a, b, pre.logicalId, store.value.doc))
  }

  /** The objects once the document is open; opening one creates it if need be. */
  function Presented(a: Objects, store: Option<OpenStore>, id: string, doc: WorldDoc): Objects
  {
    if store.Some? then a else a.(data := a.data.(worlds := a.data.worlds[id := doc]))
  }

  /** How a command ends, from the preflight on. */
  ghost function CommandEnds(cfg: Config, pre: Instance, store: Option<OpenStore>, a: Objects, userId: string, c: Command,
                             now: int, script: Script): Ending
  {
    var outcome, found := Preflight(cfg, pre.engine, userId, c, now), Found(store, a, pre.logicalId, pre.engine, script);
    if outcome.PreflightRejected? then Refused
    else if found.None? then Fatal
    else if outcome.PreflightReplayed? then
      if c.commandId in found.value.receipts && found.value.receipts[c.commandId].accepted then Done else Fatal
    else FreshEnds(cfg, pre, found.value, Presented(a, store, pre.logicalId, found.value), userId, c, script)
  }

  /** What a command leaves, from the preflight on: a replay is answered to its sender,
      and nothing is sent but for a replay and a commit. */
  ghost predicate CommandLeaves(cfg: Config, pre: Instance, before: Option<OpenStore>, a: Objects, userId: string, c: Command,
                                now: int, script: Script, ending: Ending, b: Objects, next: Instance, store: Option<OpenStore>,
                                sent: seq<Notice>)
  {
    var outcome, found := Preflight(cfg, pre.engine, userId, c, now), Found(before, a, pre.logicalId, pre.engine, script);
    && (!ending.Done? ==> sent == [])
    && (outcome.PreflightReplayed? && ending.Done? ==> sent == [ToSender(outcome.event)] && next == pre)
    && (outcome.PreflightFresh? && found.Some? ==>
          FreshLeaves(cfg, pre, found.value, Presented(a, before, pre.logicalId, found.value), userId, c, script, ending, b,
                      next, store, sent))
  }

  lemma SameDataEnds(cfg: Config, pre: Instance, doc: WorldDoc, a: Objects, b: Objects, userId: string, c: Command, script: Script)
    requires a.data.matches == b.data.matches && a.data.worlds == b.data.worlds
    ensures FreshEnds(cfg, pre, doc, a, userId, c, script) == FreshEnds(cfg, pre, doc, b, userId, c, script)
  {
  }

  lemma LeavesFromPresented(cfg: Config, pre: Instance, doc: WorldDoc, a: Objects, b: Objects, userId: string, c: Command,
                            script: Script, ending: Ending, end: Objects, next: Instance, store: Option<OpenStore>,
                            sent: seq<Notice>)
    requires a.data.matches == b.data.matches && a.data.worlds == b.data.worlds
    requires FreshLeaves(cfg, pre, doc, a, userId, c, script, ending, end, next, store, sent)
    ensures FreshLeaves(cfg, pre, doc, b, userId, c, script, ending, end, next, store, sent)
  {
  }

  /** What ExecuteFresh promises of an shown document holds of the whole command. */
  lemma FreshCommand(cfg: Config, pre: Instance, before: Option<OpenStore>, a: Objects, b: Objects, doc: WorldDoc,
                     userId: string, c: Command, now: int, script: Script, ending: Ending, end: Objects, next: Instance,
                     store: Option<OpenStore>, sent: seq<Notice>)
    requires Preflight(cfg, pre.engine, userId, c, now).PreflightFresh?
    requires Found(before, a, pre.logicalId, pre.engine, script) == Some(doc)
    requires b.data.matches == a.data.matches
    requires b.data.worlds == Presented(a, before, pre.logicalId, doc).data.worlds
    requires ending == FreshEnds(cfg, pre, doc, b, userId, c, script) && (!ending.Done? ==> sent == [])
    requires FreshLeaves(cfg, pre, doc, b, userId, c, script, ending, end, next, store, sent)
    ensures ending == CommandEnds(cfg, pre, before, a, userId, c, now, script)
    ensures CommandLeaves(cfg, pre, before, a, userId, c, now, script, ending, end, next, store, sent)
  {
    var shown := Presented(a, before, pre.logicalId, doc);
    SameDataEnds(cfg, pre, doc, b, shown, userId, c, script);
    LeavesFromPresented(cfg, pre, doc, b, shown, userId, c, script, ending, end, next, store, sent);
  }

  /** What is known of a command from its three ways: it is refused by the preflight,
      it is answered again, or it is executed on the document that was found. */
  ghost predicate CommandGoes(cfg: Config, pre: Instance, before: Option<OpenStore>, a: Objects, userId: string, c: Command,
                              now: int, script: Script, b: Objects, ending: Ending, end: Objects, next: Instance,
                              store: Option<OpenStore>, sent: seq<Notice>)
  {
    var outcome, found := Preflight(cfg, pre.engine, userId, c, now), Found(before, a, pre.logicalId, pre.engine, script);
    if outcome.PreflightRejected? then ending == Refused && sent == []
    else if found.None? then ending == Fatal && sent == []
    else if outcome.PreflightReplayed? then
      if c.commandId in found.value.receipts && found.value.receipts[c.commandId].accepted
      then ending == Done && sent == [ToSender(outcome.event)] && next == pre
      else ending == Fatal && sent == []
    else
      && b.data.matches == a.data.matches && b.data.worlds == Presented(a, before, pre.logicalId, found.value).data.worlds
      && ending == FreshEnds(cfg, pre, found.value, b, userId, c, script) && (!ending.Done? ==> sent == [])
      && FreshLeaves(cfg, pre, found.value, b, userId, c, script, ending, end, next, store, sent)
  }

  lemma CommandGoesOn(cfg: Config, pre: Instance, before: Option<OpenStore>, a: Objects, userId: string, c: Command, now: int,
                      script: Script, b: Objects, ending: Ending, end: Objects, next: Instance, store: Option<OpenStore>,
                      sent: seq<Notice>)
    requires CommandGoes(cfg, pre, before, a, userId, c, now, script, b, ending, end, next, store, sent)
    ensures ending == CommandEnds(cfg, pre, before, a, userId, c, now, script)
    ensures CommandLeaves(cfg, pre, before, a, userId, c, now, script, ending, end, next, store, sent)
  {
    var outcome, found := Preflight(cfg, pre.engine, userId, c, now), Found(before, a, pre.logicalId, pre.engine, script);
    if outcome.PreflightFresh? && found.Some? {
      FreshCommand(cfg, pre, before, a, b, found.value, userId, c, now, script, ending, end, next, store, sent);
    }
  }

  // ------------------------------------------------------------- a clean command

  /** A command that meets nothing in its way: everything is stored, nothing of the
      command is there yet, the storage and the World service work, and the engine
      accepts it at the time of the commit. */
  ghost predicate Clean(cfg: Config, pre: Instance, doc: WorldDoc, a: Objects, userId: string, c: Command, script: Script)
  {
    && Stored(a.data.matches, pre.record) && StandsAt(a, pre.logicalId, doc)
    && CursorsAgree(doc.state, pre.engine) && DistinctParticipants(pre.engine)
    && pre.engine.version <= MAX_INT64 && |pre.engine.events| + 1 <= MAX_INT64
    && c.commandId !in doc.receipts && c.commandId !in doc.reservations
    && script.payloadTypeMatches && script.canonicalPayload.Some? && script.codecPrepares && script.encodes
    && script.prepareFault.Reliable? && script.beginFault.Reliable? && script.commitFault.Reliable?
    && script.verdict.AcceptsCommand? && doc.state.tick <= script.verdict.nextTick
    && ApplyCommand(cfg, pre.engine, userId, c, script.committedAt).1.CommandAccepted?
  }

  lemma AcceptedInTurn(cfg: Config, e: Engine, userId: string, c: Command, at: int)
    requires ApplyCommand(cfg, e, userId, c, at).1.CommandAccepted? && DistinctParticipants(e)
    ensures c.authorizationId in Sequences(e) && c.sequence == Sequences(e)[c.authorizationId] + 1
  {
    var index := FindSlot(e, c.authorizationId).value;
    assert ApplyCommand(cfg, e, userId, c, at) == AcceptCommand(cfg, e, index, c, at);
  }

  /** A clean command is committed: its place in the turn of its participant is the
      one that the document expects, because the cursors agree. */
  lemma CleanCommits(cfg: Config, pre: Instance, doc: WorldDoc, a: Objects, userId: string, c: Command, script: Script)
    requires Clean(cfg, pre, doc, a, userId, c, script)
    ensures FreshEnds(cfg, pre, doc, a, userId, c, script) == Done
  {
    AcceptedInTurn(cfg, pre.engine, userId, c, script.committedAt);
  }

  /** What it leaves, written out. */
  lemma CleanCommandLeaves(cfg: Config, pre: Instance, before: Option<OpenStore>, a: Objects, userId: string, c: Command,
                           now: int, script: Script, ending: Ending, b: Objects, next: Instance, store: Option<OpenStore>,
                           sent: seq<Notice>)
    requires pre.record.logicalId == pre.logicalId
    requires ending == CommandEnds(cfg, pre, before, a, userId, c, now, script)
    requires CommandLeaves(cfg, pre, before, a, userId, c, now, script, ending, b, next, store, sent)
    ensures
      var found := Found(before, a, pre.logicalId, pre.engine, script);
      Preflight(cfg, pre.engine, userId, c, now).PreflightFresh? && found.Some? &&
      Clean(cfg, pre, found.value, Presented(a, before, pre.logicalId, found.value), userId, c, script) ==>
        var (after, outcome) := ApplyCommand(cfg, pre.engine, userId, c, script.committedAt);
        && ending.Done? && sent == [ToAll(outcome.event)] && next.engine == after
        && next.record == pre.record.(snapshot := after)
        && b.data.matches == a.data.matches[pre.logicalId := next.record] && pre.logicalId in b.data.worlds
        && Records(found.value, b.data.worlds[pre.logicalId], IntentOf(userId, c, script.canonicalPayload.value),
                   script.verdict.nextState, script.verdict.nextTick, script.verdict.outcome, script.committedAt)
  {
    var found := Found(before, a, pre.logicalId, pre.engine, script);
    if Preflight(cfg, pre.engine, userId, c, now).PreflightFresh? && found.Some? {
      var shown := Presented(a, before, pre.logicalId, found.value);
      if Clean(cfg, pre, found.value, shown, userId, c, script) {
        CleanCommits(cfg, pre, found.value, shown, userId, c, script);
      }
    }
  }
}

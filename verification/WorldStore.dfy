/** The World command document of a match and its store operations, as far as the
    two-object commit depends on them (runtime/internal/worldcommand).

    A deterministic World state is a text; the executor and the codec are named
    by their verdicts. The version of a document is a digest of its value. */
module WorldStore {
  import opened Common
  import opened Contract
  import opened MatchEngine
  import opened StoredMatch

  /** The authority cursors and the deterministic state of one match. */
  datatype WorldState = WorldState(
    matchId: string, roster: Pair<RosterEntry>, version: nat, nextSequence: nat, revision: nat,
    state: string, tick: int, sequences: map<string, nat>)

  /** The intent fingerprint digests these request fields. */
  datatype Intent = Intent(commandId: string, userId: string, participantId: string, sequence: nat, payload: string)

  datatype Fence = Fence(version: nat, nextSequence: nat, revision: nat, state: string, tick: int, participantSequence: nat)

  /** Attempts are recorded as finished or open. */
  datatype Reservation = Reservation(intent: Intent, generation: nat, fence: Fence, attempts: seq<bool>)

  datatype Receipt = Receipt(
    intent: Intent, accepted: bool, eventSequence: Option<nat>, version: nat, committedAt: int, outcome: string)

  datatype WorldDoc = WorldDoc(
    state: WorldState, reservations: map<string, Reservation>, receipts: map<string, Receipt>,
    retired: seq<Reservation>)

  datatype WorldVersion = WorldDigest(doc: WorldDoc)

  /** A store opened by one runtime: its document and the version it was read or written at. */
  datatype OpenStore = OpenStore(doc: WorldDoc, version: WorldVersion)

  function ParticipantSequence(s: WorldState, participant: string): nat
  {
    if participant in s.sequences then s.sequences[participant] else 0
  }

  function FenceOf(s: WorldState, participant: string): Fence
  {
    Fence(s.version, s.nextSequence, s.revision, s.state, s.tick, ParticipantSequence(s, participant))
  }

  function Sequences(e: Engine): map<string, nat>
  {
    map[e.participants.first.authorization.claim.authorizationId := e.participants.first.lastSequence,
        e.participants.second.authorization.claim.authorizationId := e.participants.second.lastSequence]
  }

  /** validateWorldStoreAgainstCore; a participant the state does not list reads as 0. */
  predicate CursorsAgree(s: WorldState, e: Engine)
  {
    && s.matchId == e.matchId && s.roster == RosterOf(e)
    && s.version == e.version && s.nextSequence == |e.events| + 1
    && |s.sequences| == |Sequences(e)|
    && (forall p :: p in Sequences(e) ==> ParticipantSequence(s, p) == Sequences(e)[p])
  }

  predicate DistinctParticipants(e: Engine)
  {
    e.participants.first.authorization.claim.authorizationId != e.participants.second.authorization.claim.authorizationId
  }

  /** The cursors agree and neither of the two participants is missing. */
  predicate CursorsMatch(s: WorldState, e: Engine)
  {
    CursorsAgree(s, e) && s.sequences == Sequences(e) && DistinctParticipants(e)
  }

  /** The state of a store that a runtime creates for its engine. */
  function InitialState(e: Engine, state: string, tick: int): WorldState
  {
    WorldState(e.matchId, RosterOf(e), e.version, |e.events| + 1, 1, state, tick, Sequences(e))
  }

  // -------------------------------------------------------------------- prepare

  datatype Prepared =
    | AlreadyCommitted(receipt: Receipt)
    | AlreadyReserved(reservation: Reservation)
    | NewReservation(doc: WorldDoc, reservation: Reservation)
    | Unprepared

  /** Store.Prepare for a request whose fence is read from the same document. */
  function Prepare(doc: WorldDoc, intent: Intent, codecPrepares: bool): Prepared
  {
    if intent.commandId in doc.receipts then
      if doc.receipts[intent.commandId].intent != intent then Unprepared
      else AlreadyCommitted(doc.receipts[intent.commandId])
    else if intent.commandId in doc.reservations then
      if doc.reservations[intent.commandId].intent != intent then Unprepared
      else AlreadyReserved(doc.reservations[intent.commandId])
    else if intent.sequence != ParticipantSequence(doc.state, intent.participantId) + 1 || !codecPrepares then Unprepared
    else
      var reservation := Reservation(intent, NextGeneration(doc.retired, intent.commandId),
                                     FenceOf(doc.state, intent.participantId), []);
      NewReservation(doc.(reservations := doc.reservations[intent.commandId := reservation]), reservation)
  }

  function NextGeneration(retired: seq<Reservation>, commandId: string): nat
  {
    if retired == [] then 1
    else
      var before, last := NextGeneration(retired[..|retired| - 1], commandId), retired[|retired| - 1];
      if last.intent.commandId == commandId && last.generation >= before then last.generation + 1 else before
  }

  function BeginAttempt(doc: WorldDoc, reservation: Reservation): (WorldDoc, Reservation)
  {
    var begun := reservation.(attempts := reservation.attempts + [false]);
    (doc.(reservations := doc.reservations[reservation.intent.commandId := begun]), begun)
  }

  /** RecordFailure keeps the reservation and closes its last attempt. */
  function RecordFailure(doc: WorldDoc, reservation: Reservation): Option<WorldDoc>
  {
    var id := reservation.intent.commandId;
    if id !in doc.reservations || doc.reservations[id] != reservation || reservation.attempts == [] ||
       reservation.attempts[|reservation.attempts| - 1] then None
    else
      var closed := reservation.(attempts := reservation.attempts[|reservation.attempts| - 1 := true]);
      Some(doc.(reservations := doc.reservations[id := closed]))
  }

  // --------------------------------------------------------------------- commit

  datatype Verdict =
    | ExecutorFails(retryable: bool)
    | ResultInvalid
    | RejectsCommand(retryable: bool)
    | AcceptsCommand(nextState: string, nextTick: int, outcome: string)

  /** CommitWith up to the persister: the receipt and the candidate document. */
  function Candidate(doc: WorldDoc, reservation: Reservation, verdict: Verdict, now: int): Option<(WorldDoc, Receipt)>
  {
    var intent := reservation.intent;
    var rest := doc.(reservations := doc.reservations - {intent.commandId});
    match verdict
    case AcceptsCommand(nextState, nextTick, outcome) =>
      if nextTick < doc.state.tick then None
      else
        var state := doc.state.(version := doc.state.version + 1, nextSequence := doc.state.nextSequence + 1,
                                revision := doc.state.revision + 1, state := nextState, tick := nextTick,
                                sequences := doc.state.sequences[intent.participantId := intent.sequence]);
        var receipt := Receipt(intent, true, Some(doc.state.nextSequence), state.version, now, outcome);
        Some((rest.(state := state, receipts := doc.receipts[intent.commandId := receipt]), receipt))
    case RejectsCommand(false) =>
      var receipt := Receipt(intent, false, None, doc.state.version, now, "");
      Some((rest.(receipts := doc.receipts[intent.commandId := receipt]), receipt))
    case _ => None
  }

  predicate Finishing(r: Receipt)
  {
    r.accepted && r.eventSequence.Some?
  }

  /** This accepted receipt carries the greatest event sequence. */
  predicate Latest(receipts: map<string, Receipt>, id: string)
  {
    id in receipts && Finishing(receipts[id]) &&
    forall other :: other in receipts && Finishing(receipts[other]) ==>
      receipts[other].eventSequence.value <= receipts[id].eventSequence.value
  }

  /** LatestAcceptedReceipt visits the receipts in Go's unspecified map order. */
  method LatestAcceptedReceipt(receipts: map<string, Receipt>) returns (latest: Option<Receipt>)
    ensures latest.None? ==> forall id :: id in receipts ==> !Finishing(receipts[id])
    ensures latest.Some? ==> exists id :: Latest(receipts, id) && receipts[id] == latest.value
  {
    latest := None;
    var rest := receipts.Keys;
    while rest != {}
      invariant rest <= receipts.Keys
      invariant latest.None? ==> forall id :: id in receipts && id !in rest ==> !Finishing(receipts[id])
      invariant latest.Some? ==>
        Finishing(latest.value) && (exists id :: id in receipts && receipts[id] == latest.value) &&
        forall id :: id in receipts && id !in rest && Finishing(receipts[id]) ==>
          receipts[id].eventSequence.value <= latest.value.eventSequence.value
      decreases |rest|
    {
      var id :| id in rest;
      rest := rest - {id};
      if Finishing(receipts[id]) &&
         (latest.None? || receipts[id].eventSequence.value > latest.value.eventSequence.value) {
        latest := Some(receipts[id]);
      }
    }
    if latest.Some? {
      ghost var id :| id in receipts && receipts[id] == latest.value;
      assert Latest(receipts, id);
    }
  }

  /** A stale reservation is retired instead of committed. */
  function Retired(doc: WorldDoc, reservation: Reservation): WorldDoc
  {
    doc.(reservations := doc.reservations - {reservation.intent.commandId}, retired := doc.retired + [reservation])
  }

  // ------------------------------------------------------------ storage objects

  datatype WorldWrite = WorldWrite(logicalId: string, doc: WorldDoc, expected: Option<WorldVersion>)

  type Worlds = map<string, WorldDoc>

  predicate AdmitsWorld(worlds: Worlds, w: WorldWrite)
  {
    match w.expected
    case None => w.logicalId !in worlds
    case Some(version) => w.logicalId in worlds && WorldDigest(worlds[w.logicalId]) == version
  }
}

/** The two durable objects of a match under the profile that runs commands
    through the World service: which storage writes there are, and what each of
    them keeps, whenever storage performs it
    (runtime/world_authoritative_match.go, runtime/world_command_storage.go). */
module WorldAgreement {
  import opened Common
  import opened Contract
  import opened MatchEngine
  import opened EngineProgress
  import opened StoredMatch
  import opened RecordOrder
  import opened WorldStore

  // -------------------------------------------------------------- storage calls

  /** Both collections, and for each World document the match record that the
      instance creating it held. */
  datatype Durables = Durables(matches: Store, worlds: Worlds, origins: map<string, Record>)

  /** One storage call: of the match record, of both objects, of the World
      document, or the creation of the World document. */
  datatype Commitment =
    | Alone(m: Write)
    | Both(m: Write, w: WorldWrite)
    | Bookkeeping(w: WorldWrite)
    | Creates(w: WorldWrite, origin: Record)

  /** Nakama's StorageWrite: every version matches or nothing is written. */
  predicate AdmitsCall(d: Durables, c: Commitment)
  {
    match c
    case Alone(m) => Admits(d.matches, m)
    case Both(m, w) => Admits(d.matches, m) && AdmitsWorld(d.worlds, w)
    case Bookkeeping(w) => AdmitsWorld(d.worlds, w)
    case Creates(w, _) => AdmitsWorld(d.worlds, w)
  }

  function Apply(d: Durables, c: Commitment): Durables
  {
    if !AdmitsCall(d, c) then d
    else
      match c
      case Alone(m) => d.(matches := d.matches[m.record.logicalId := m.record])
      case Both(m, w) => d.(matches := d.matches[m.record.logicalId := m.record], worlds := d.worlds[w.logicalId := w.doc])
      case Bookkeeping(w) => d.(worlds := d.worlds[w.logicalId := w.doc])
      case Creates(w, origin) =>
        d.(worlds := d.worlds[w.logicalId := w.doc], origins := d.origins[w.logicalId := origin])
  }

  function Performed(d: Durables, calls: seq<Commitment>): Durables
  {
    if calls == [] then d else Apply(Performed(d, calls[..|calls| - 1]), calls[|calls| - 1])
  }

  lemma {:induction false} PerformedInTurn(d: Durables, one: seq<Commitment>, two: seq<Commitment>)
    ensures Performed(d, one + two) == Performed(Performed(d, one), two)
    decreases |two|
  {
    if two == [] {
      assert one + two == one;
    } else {
      assert (one + two)[..|one + two| - 1] == one + two[..|two| - 1];
      PerformedInTurn(d, one, two[..|two| - 1]);
    }
  }

  /** The match writes among these calls. */
  function MatchWrites(calls: seq<Commitment>): multiset<Write>
  {
    if calls == [] then multiset{}
    else
      var rest, last := MatchWrites(calls[..|calls| - 1]), calls[|calls| - 1];
      if last.Alone? || last.Both? then rest + multiset{last.m} else rest
  }

  lemma {:induction false} MatchWritesOfBoth(one: seq<Commitment>, two: seq<Commitment>)
    ensures MatchWrites(one + two) == MatchWrites(one) + MatchWrites(two)
    decreases |two|
  {
    if two == [] {
      assert one + two == one;
    } else {
      assert (one + two)[..|one + two| - 1] == one + two[..|two| - 1];
      MatchWritesOfBoth(one, two[..|two| - 1]);
    }
  }

  // -------------------------------------------------------------------- cursors

  /** Both durable objects of a match stand at the same cursors. */
  predicate Agreeing(store: Store, worlds: Worlds, id: string)
  {
    id in worlds ==> id in store && CursorsMatch(worlds[id].state, store[id].snapshot)
  }

  /** The document is about the seats of this engine, and as far in the commands
      of each of them; joins and the completion are not compared. */
  predicate Tracks(s: WorldState, e: Engine)
  {
    && s.matchId == e.matchId && s.roster == RosterOf(e)
    && s.sequences == Sequences(e) && DistinctParticipants(e)
    && s.version == s.nextSequence && e.version == |e.events| + 1
  }

  /** The events of an engine that are neither a join nor the completion. */
  function CommandEvents(e: Engine): int
  {
    |e.events| - JoinedCount(e.participants) - (if e.completion.Some? then 1 else 0)
  }

  /** An engine that has seen joins at most. */
  predicate Unplayed(e: Engine)
  {
    && CommandEvents(e) == 0 && e.completion.None? && e.version == |e.events| + 1 && DistinctParticipants(e)
    && e.participants.first.lastSequence == 0 && e.participants.second.lastSequence == 0
  }

  // --------------------------------------------------------------- right writes

  predicate SameSeats(e: Engine, f: Engine)
  {
    && e.matchId == f.matchId
    && e.participants.first.authorization == f.participants.first.authorization
    && e.participants.second.authorization == f.participants.second.authorization
  }

  /** `f` is `e` but for joins and the completion. */
  predicate CommandsStay(e: Engine, f: Engine)
  {
    && SameSeats(e, f) && CommandEvents(f) == CommandEvents(e) && f.version == |f.events| + 1
    && JoinedCount(e.participants) <= JoinedCount(f.participants) && |e.events| <= |f.events|
    && (e.completion.None? ==> f.completion.None? || CommandEvents(e) > 0)
    && e.participants.first.lastSequence == f.participants.first.lastSequence
    && e.participants.second.lastSequence == f.participants.second.lastSequence
  }

  /** A write of the match record alone: the first value of a match, or a value
      of the same commands. */
  predicate AloneOk(m: Write)
  {
    match m.expectation
    case MustBeAbsent => Unplayed(m.record.snapshot) && JoinedCount(m.record.snapshot.participants) == 0
    case MustMatch(version) =>
      version.record.logicalId == m.record.logicalId && CommandsStay(version.record.snapshot, m.record.snapshot)
  }

  /** Every reservation of `a` is in `b`, with the same or more attempts made and closed. */
  predicate ReservationsRise(a: map<string, Reservation>, b: map<string, Reservation>)
  {
    forall id :: id in a ==> id in b && AttemptsRise(a[id], b[id])
  }

  predicate AttemptsRise(a: Reservation, b: Reservation)
  {
    && a.intent == b.intent && a.generation == b.generation && a.fence == b.fence
    && |a.attempts| <= |b.attempts|
    && (forall i :: 0 <= i < |a.attempts| ==> a.attempts[i] ==> b.attempts[i])
  }

  /** The order in which the values of one World document replace each other:
      by receipts, then by retired reservations, then by the work on what is reserved. */
  predicate DocBelow(a: WorldDoc, b: WorldDoc)
  {
    || |a.receipts| < |b.receipts|
    || (a.receipts == b.receipts && a.state == b.state &&
        (|a.retired| < |b.retired| || (a.retired == b.retired && ReservationsRise(a.reservations, b.reservations))))
  }

  /** A commit of both objects moves them by the same number of commands. */
  predicate PairOk(m: Write, w: WorldWrite)
  {
    && m.expectation.MustMatch? && w.expected.Some?
    && m.record.logicalId == m.expectation.version.record.logicalId == w.logicalId
    && DocBelow(w.expected.value.doc, w.doc)
    && InStep(m.expectation.version.record.snapshot, m.record.snapshot, w.expected.value.doc.state, w.doc.state)
  }

  predicate InStep(e: Engine, f: Engine, s: WorldState, t: WorldState)
  {
    && SameSeats(e, f) && JoinedCount(e.participants) == JoinedCount(f.participants) && e.completion == f.completion
    && |f.events| - |e.events| == f.version - e.version == t.version - s.version == t.nextSequence - s.nextSequence
    && |e.events| <= |f.events| && s.matchId == t.matchId && s.roster == t.roster
    && (DistinctParticipants(e) && s.sequences == Sequences(e) ==> t.sequences == Sequences(f))
  }

  /** A write of the World object alone leaves its authority state as it is. */
  predicate BookkeepingOk(w: WorldWrite)
  {
    w.expected.Some? && w.expected.value.doc.state == w.doc.state && DocBelow(w.expected.value.doc, w.doc)
  }

  /** A new document starts at the cursors of the record that its creator held. */
  predicate CreationOk(w: WorldWrite, origin: Record)
  {
    && w.expected.None? && w.logicalId == origin.logicalId && |origin.snapshot.events| <= 2
    && w.doc == FirstDoc(origin.snapshot, w.doc.state.state, w.doc.state.tick)
  }

  function FirstDoc(e: Engine, state: string, tick: int): WorldDoc
  {
    WorldDoc(InitialState(e, state, tick), map[], map[], [])
  }

  predicate CommitmentOk(c: Commitment)
  {
    match c
    case Alone(m) => AloneOk(m)
    case Both(m, w) => PairOk(m, w)
    case Bookkeeping(w) => BookkeepingOk(w)
    case Creates(w, origin) => CreationOk(w, origin)
  }

  /** A creation under way is for a match whose document exists, or whose record
      has only gained joins since. */
  predicate Timely(d: Durables, c: Commitment)
  {
    c.Creates? ==> c.w.logicalId in d.worlds || (c.w.logicalId in d.matches && Descends(c.origin.snapshot, d.matches[c.w.logicalId].snapshot))
  }

  predicate Descends(e: Engine, f: Engine)
  {
    SameSeats(e, f) && Seated(e, f) && |e.events| <= |f.events| && e.version == |e.events| + 1
  }

  // --------------------------------------------------------- what writes keep

  /** What every sequence of right writes keeps of both objects of a match. */
  predicate Coherent(d: Durables, id: string)
  {
    && (id in d.worlds <==> id in d.origins)
    && (id in d.worlds ==> id in d.matches)
    && (id in d.matches ==>
          var e := d.matches[id].snapshot;
          if id !in d.worlds then Unplayed(e)
          else
            && Tracks(d.worlds[id].state, e)
            && d.worlds[id].state.version == |d.origins[id].snapshot.events| + CommandEvents(e) + 1
            && |d.origins[id].snapshot.events| <= JoinedCount(e.participants))
  }

  ghost predicate AllCoherent(d: Durables)
  {
    forall id :: Coherent(d, id)
  }

  /** Every World document is still there, at the same or a later value. */
  ghost predicate DocsAdvance(a: Worlds, b: Worlds)
  {
    forall id :: id in a ==> id in b && DocBelow(a[id], b[id])
  }

  lemma DocBelowReflexive(a: WorldDoc)
    ensures DocBelow(a, a)
  {
  }

  lemma DocBelowTransitive(a: WorldDoc, b: WorldDoc, c: WorldDoc)
    requires DocBelow(a, b) && DocBelow(b, c)
    ensures DocBelow(a, c)
  {
  }

  /** A value that has been left does not come back. */
  lemma DocBelowAntisymmetric(a: WorldDoc, b: WorldDoc)
    requires DocBelow(a, b) && DocBelow(b, a)
    ensures a == b
  {
    assert a.reservations.Keys == b.reservations.Keys;
    forall id | id in a.reservations ensures a.reservations[id] == b.reservations[id] {
      AttemptsAntisymmetric(a.reservations[id], b.reservations[id]);
    }
    assert a.reservations == b.reservations;
  }

  lemma AttemptsAntisymmetric(a: Reservation, b: Reservation)
    requires AttemptsRise(a, b) && AttemptsRise(b, a)
    ensures a == b
  {
    assert a.attempts == b.attempts;
  }

  lemma DocsAdvanceTransitive(a: Worlds, b: Worlds, c: Worlds)
    requires DocsAdvance(a, b) && DocsAdvance(b, c)
    ensures DocsAdvance(a, c)
  {
    forall id | id in a ensures id in c && DocBelow(a[id], c[id]) {
      DocBelowTransitive(a[id], b[id], c[id]);
    }
  }

  lemma ApplyAdvances(d: Durables, c: Commitment)
    requires CommitmentOk(c)
    ensures DocsAdvance(d.worlds, Apply(d, c).worlds)
  {
    forall id | id in d.worlds ensures id in Apply(d, c).worlds && DocBelow(d.worlds[id], Apply(d, c).worlds[id]) {
      DocBelowReflexive(d.worlds[id]);
    }
  }

  lemma AloneKeeps(d: Durables, m: Write, id: string)
    requires AloneOk(m) && Coherent(d, id)
    ensures Coherent(Apply(d, Alone(m)), id)
  {
  }

  lemma PairKeeps(d: Durables, m: Write, w: WorldWrite, id: string)
    requires PairOk(m, w) && Coherent(d, id)
    ensures Coherent(Apply(d, Both(m, w)), id)
  {
  }

  lemma CreationKeeps(d: Durables, w: WorldWrite, origin: Record, id: string)
    requires CreationOk(w, origin) && Timely(d, Creates(w, origin)) && Coherent(d, id)
    ensures Coherent(Apply(d, Creates(w, origin)), id)
  {
    if AdmitsWorld(d.worlds, w) && id == w.logicalId {
      FirstDocTracks(origin.snapshot, d.matches[id].snapshot, w.doc.state);
    }
  }

  lemma FirstDocTracks(e: Engine, f: Engine, s: WorldState)
    requires Descends(e, f) && Unplayed(f) && s == InitialState(e, s.state, s.tick)
    ensures Tracks(s, f) && s.version == |e.events| + CommandEvents(f) + 1 && |e.events| <= JoinedCount(f.participants)
  {
    assert Sequences(e) == Sequences(f);
  }

  /** Every right write keeps what holds of both objects of every match. */
  lemma ApplyKeeps(d: Durables, c: Commitment, id: string)
    requires CommitmentOk(c) && Timely(d, c) && Coherent(d, id)
    ensures Coherent(Apply(d, c), id)
  {
    match c
    case Alone(m) => AloneKeeps(d, m, id);
    case Both(m, w) => PairKeeps(d, m, w, id);
    case Bookkeeping(w) =>
    case Creates(w, origin) => CreationKeeps(d, w, origin, id);
  }

  lemma StaysTimely(d: Durables, c: Commitment, other: Commitment)
    requires CommitmentOk(c) && Timely(d, other)
    ensures Timely(Apply(d, c), other)
  {
  }

  // ----------------------------------------------------------------- agreement

  /** All or nothing: a reader after the commit finds both objects old or both
      new, and at agreeing cursors if they agreed before. */
  lemma CommitIsAllOrNothing(d: Durables, m: Write, w: WorldWrite, id: string)
    requires PairOk(m, w) && Agreeing(d.matches, d.worlds, id)
    ensures var after := Apply(d, Both(m, w));
      && Agreeing(after.matches, after.worlds, id)
      && (AdmitsCall(d, Both(m, w)) ==>
            after.matches == d.matches[w.logicalId := m.record] && after.worlds == d.worlds[w.logicalId := w.doc])
      && (!AdmitsCall(d, Both(m, w)) ==> after == d)
  {
  }

  /** While a record is not completed, both objects agree exactly as long as no
      join is durable that the creator of the World document had not seen. */
  lemma AgreementIsExact(d: Durables, id: string)
    requires Coherent(d, id) && id in d.worlds && d.matches[id].snapshot.completion.None?
    ensures Agreeing(d.matches, d.worlds, id) <==>
      JoinedCount(d.matches[id].snapshot.participants) == |d.origins[id].snapshot.events|
  {
  }

  // ------------------------------------------------------------ one command more

  /** What an accepted command changes, as the World side depends on it. */
  lemma AcceptedCommand(cfg: Config, e: Engine, userId: string, c: Command, at: int)
    requires ApplyCommand(cfg, e, userId, c, at).1.CommandAccepted?
    ensures var (after, outcome) := ApplyCommand(cfg, e, userId, c, at);
      && c.commandId !in e.commands && c.commandId in after.commands
      && after.commands == e.commands[c.commandId := after.commands[c.commandId]]
      && after.events == e.events + [outcome.event] && after.version == e.version + 1
      && SameSeats(e, after) && RosterOf(after) == RosterOf(e)
      && JoinedCount(after.participants) == JoinedCount(e.participants)
      && after.status == Active && after.completion == e.completion
      && outcome.event.facts.sequence == |e.events| + 1 && outcome.event.facts.version == after.version
      && (DistinctParticipants(e) ==>
            DistinctParticipants(after) && Sequences(after) == Sequences(e)[c.authorizationId := c.sequence])
  {
    var index := FindSlot(e, c.authorizationId).value;
    var (after, outcome) := ApplyCommand(cfg, e, userId, c, at);
    assert after == AcceptCommand(cfg, e, index, c, at).0;
  }

  /** The core event and the World candidate never diverge: with agreeing cursors
      the event carries the sequence and version that the receipt promises. */
  lemma CursorsNeverDiverge(cfg: Config, e: Engine, userId: string, c: Command, at: int,
                            doc: WorldDoc, reservation: Reservation, verdict: Verdict)
    requires ApplyCommand(cfg, e, userId, c, at).1.CommandAccepted? && CursorsAgree(doc.state, e)
    requires Candidate(doc, reservation, verdict, at).Some? && Candidate(doc, reservation, verdict, at).value.1.accepted
    ensures var (after, outcome) := ApplyCommand(cfg, e, userId, c, at);
      var (candidate, receipt) := Candidate(doc, reservation, verdict, at).value;
      && receipt.eventSequence == Some(outcome.event.facts.sequence)
      && receipt.version == outcome.event.facts.version && candidate.state.version == after.version
  {
    AcceptedCommand(cfg, e, userId, c, at);
  }

  /** The candidate document is one command further, as the engine is. */
  lemma CandidateInStep(cfg: Config, e: Engine, userId: string, c: Command, at: int,
                        doc: WorldDoc, reservation: Reservation, verdict: Verdict)
    requires ApplyCommand(cfg, e, userId, c, at).1.CommandAccepted?
    requires reservation.intent.participantId == c.authorizationId && reservation.intent.sequence == c.sequence
    requires Candidate(doc, reservation, verdict, at).Some? && Candidate(doc, reservation, verdict, at).value.1.accepted
    ensures InStep(e, ApplyCommand(cfg, e, userId, c, at).0, doc.state, Candidate(doc, reservation, verdict, at).value.0.state)
  {
    AcceptedCommand(cfg, e, userId, c, at);
  }

  /** A new receipt puts the candidate behind every earlier value. */
  lemma CandidateRises(doc: WorldDoc, reservation: Reservation, verdict: Verdict, at: int)
    requires Candidate(doc, reservation, verdict, at).Some? && reservation.intent.commandId !in doc.receipts
    ensures DocBelow(doc, Candidate(doc, reservation, verdict, at).value.0)
  {
    var id, after := reservation.intent.commandId, Candidate(doc, reservation, verdict, at).value.0;
    assert after.receipts - {id} == doc.receipts;
  }

  /** A join persisted after the World document exists ends the agreement: the
      document can never be opened for this engine again. */
  lemma JoinAfterStoreDiverges(cfg: Config, s: WorldState, e: Engine, userId: string, authorizationId: string, now: int)
    requires CursorsAgree(s, e) && Join(cfg, e, userId, authorizationId, now).1.JoinAccepted?
    ensures !CursorsAgree(s, Join(cfg, e, userId, authorizationId, now).0)
  {
  }
}

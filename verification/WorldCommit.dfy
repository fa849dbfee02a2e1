/** A live instance of the target World profile: every accepted command commits
    the World document and the match record together
    (runtime/world_authoritative_match.go, runtime/world_command_storage.go,
    runtime/internal/worldcommand/coordinator.go, store_commit.go). */
module WorldCommit {
  import opened Common
  import opened Contract
  import opened MatchEngine
  import opened Snapshot
  import opened SnapshotValidation
  import opened StoredMatch
  import opened MatchCallbacks
  import opened MatchDelivery
  import opened WorldStore
  import opened WorldAgreement
  import opened WorldStorage
  import opened WorldOutcome

  datatype CommitOutcome = Committed | FailedBeforeWrite | Ambiguous

  // ------------------------------------------------------------ specifications

  /** The fresh command, seen from the match record. */
  ghost predicate FreshCall(cfg: Config, pre: Instance, a: Objects, userId: string, c: Command, answer: WorldAnswer,
                            fault: Fault, b: Objects, next: Option<Instance>, sent: seq<Notice>)
  {
    Shows(FreshTarget(cfg, pre, a.data.matches, MatchWrites(a.late), userId, c, answer, fault), b, next, sent)
  }

  /** Any target command, seen from the match record: the target callback of the
      fencing protocol. */
  ghost predicate TargetCall(cfg: Config, pre: Instance, a: Objects, userId: string, c: Command, now: int, known: bool,
                             answer: WorldAnswer, fault: Fault, b: Objects, next: Option<Instance>, sent: seq<Notice>)
  {
    Shows(OnTargetCommand(cfg, pre, a.data.matches, MatchWrites(a.late), userId, c, now, known, answer, fault), b, next, sent)
  }

  lemma FreshRetry(cfg: Config, pre: Instance, a: Objects, userId: string, c: Command, fault: Fault, b: Objects)
    requires Aside(a, b)
    ensures FreshCall(cfg, pre, a, userId, c, WorldRetry, fault, b, Some(pre), [])
  {
  }

  lemma FreshFatal(cfg: Config, pre: Instance, a: Objects, userId: string, c: Command, fault: Fault, b: Objects)
    requires Aside(a, b)
    ensures FreshCall(cfg, pre, a, userId, c, WorldFatal, fault, b, None, [])
  {
  }

  lemma FreshAccepted(cfg: Config, pre: Instance, a: Objects, userId: string, c: Command, at: int, event: Event,
                      fault: Fault, outage: Fault, b: Objects, next: Option<Instance>, sent: seq<Notice>)
    requires !pre.wedged && ApplyCommand(cfg, pre.engine, userId, c, at).1 == CommandAccepted(event)
    requires outage == fault || outage == Dropped
    requires var after := ApplyCommand(cfg, pre.engine, userId, c, at).0;
      Shows(TargetCommit(pre, after, event, a.data.matches, MatchWrites(a.late), outage), b, next, sent)
    ensures FreshCall(cfg, pre, a, userId, c, WorldAccepts(at, outage == fault), fault, b, next, sent)
  {
  }

  /** A committed rejection rewrites the match value that is there. */
  lemma FreshRejected(cfg: Config, pre: Instance, a: Objects, userId: string, c: Command, fault: Fault, call: Commitment)
    requires !pre.wedged && pre.engine == pre.record.snapshot && pre.version == Digest(pre.record)
    requires call.Both? && call.m == Write(pre.record, MustMatch(pre.version)) && call.w.logicalId == call.m.record.logicalId
    ensures FreshCall(cfg, pre, a, userId, c, WorldRejects, fault, AfterCall(a, call, fault), Some(pre), [])
  {
    assert (a.late + [call])[..|a.late|] == a.late;
    assert pre.record.(snapshot := pre.engine) == pre.record;
    assert Admits(a.data.matches, call.m) ==> a.data.matches[pre.record.logicalId := pre.record] == a.data.matches;
  }

  /** What happens aside, before or after, is not seen from the match record. */
  lemma FreshBeside(cfg: Config, pre: Instance, a: Objects, a': Objects, userId: string, c: Command, answer: WorldAnswer,
                    fault: Fault, b: Objects, b': Objects, next: Option<Instance>, sent: seq<Notice>)
    requires Aside(a, a') && Aside(b, b') && FreshCall(cfg, pre, a', userId, c, answer, fault, b, next, sent)
    ensures FreshCall(cfg, pre, a, userId, c, answer, fault, b', next, sent)
  {
  }

  /** A completed commit is known everywhere; nothing else ends a command well. */
  ghost predicate Settled(store: Option<OpenStore>, engine: Engine, wedged: bool, commandId: string)
  {
    !wedged && store.Some? && commandId in store.value.doc.receipts && store.value.doc.receipts[commandId].accepted &&
    commandId in engine.commands
  }

  /** The reservation of this command is pending in this document. */
  predicate Pending(doc: WorldDoc, c: Command, reservation: Reservation)
  {
    && c.commandId in doc.reservations && c.commandId !in doc.receipts && doc.reservations[c.commandId] == reservation
    && reservation.intent.commandId == c.commandId && reservation.intent.participantId == c.authorizationId
    && reservation.intent.sequence == c.sequence
  }

  lemma AcceptedPairOk(cfg: Config, pre: Instance, userId: string, c: Command, doc: WorldDoc, reservation: Reservation,
                       verdict: Verdict, at: int)
    requires ApplyCommand(cfg, pre.engine, userId, c, at).1.CommandAccepted? && Pending(doc, c, reservation)
    requires Candidate(doc, reservation, verdict, at).Some? && Candidate(doc, reservation, verdict, at).value.1.accepted
    requires pre.record.snapshot == pre.engine && pre.record.logicalId == pre.logicalId && pre.version == Digest(pre.record)
    ensures CallOk(None, PairCall(pre, ApplyCommand(cfg, pre.engine, userId, c, at).0,
                                  Candidate(doc, reservation, verdict, at).value.0, WorldDigest(doc)))
  {
    AcceptedCommand(cfg, pre.engine, userId, c, at);
    CandidateInStep(cfg, pre.engine, userId, c, at, doc, reservation, verdict);
    CandidateRises(doc, reservation, verdict, at);
  }

  lemma RejectedPairOk(pre: Instance, c: Command, doc: WorldDoc, reservation: Reservation, verdict: Verdict, at: int)
    requires Candidate(doc, reservation, verdict, at).Some? && Pending(doc, c, reservation)
    requires !Candidate(doc, reservation, verdict, at).value.1.accepted
    requires pre.record.snapshot == pre.engine && pre.record.logicalId == pre.logicalId && pre.version == Digest(pre.record)
    ensures CallOk(None, PairCall(pre, pre.engine, Candidate(doc, reservation, verdict, at).value.0, WorldDigest(doc)))
  {
    CandidateRises(doc, reservation, verdict, at);
  }

  // -------------------------------------------------------------- the instance

  class TargetMatch {
    const config: Config
    const logicalId: string
    const generation: nat
    var engine: Engine
    var record: Record
    var storageVersion: Version
    var pendingJoinEvents: map<string, Event>
    var store: Option<OpenStore>
    ghost var wedgedBy: Option<string>

    ghost function View(): Instance
      reads this
    {
      Instance(engine, record, storageVersion, logicalId, generation, pendingJoinEvents, true, wedgedBy.Some?)
    }

    /** The record from which this instance could still create a World document. */
    ghost function Origin(): Option<Record>
      reads this
    {
      if store.Some? then None else Some(record)
    }

    /** The engine is the acknowledged one, or it holds one command more: that
        command is still reserved in memory, has no receipt, and leaves the
        engine ahead of the World cursors. */
    ghost predicate Valid()
      reads this
    {
      && storageVersion == Digest(record) && record.logicalId == logicalId
      && (store.Some? ==> store.value.version == WorldDigest(store.value.doc))
      && match wedgedBy
         case None => engine == record.snapshot
         case Some(id) =>
           && store.Some? && id in store.value.doc.reservations && id !in store.value.doc.receipts
           && store.value.doc.state.version < engine.version
           && (forall other :: other in engine.commands && other != id ==> other in record.snapshot.commands)
    }

    /** The World store is open and stands where the engine does. */
    ghost predicate Opened()
      reads this
    {
      Valid() && wedgedBy.None? && store.Some? && CursorsAgree(store.value.doc.state, engine)
    }

    /** MatchInit bound this runtime to the record before the World side is opened. */
    constructor (config: Config, record: Record, version: Version)
      requires version == Digest(record)
      ensures this.config == config && Valid() && store.None? && wedgedBy.None?
      ensures View() == Instance(record.snapshot, record, version, record.logicalId, record.generation, map[], true, false)
    {
      this.config := config;
      this.logicalId, this.generation := record.logicalId, record.generation;
      this.engine, this.record, this.storageVersion := record.snapshot, record, version;
      this.pendingJoinEvents := map[];
      this.store, this.wedgedBy := None, None;
    }

    /** rollback of the persister closure. */
    method Rollback(before: Engine)
      modifies this`engine
      ensures engine == before || engine == old(engine)
      ensures Restorable(config, before) && before.matchId == record.logicalId ==> engine == before
    {
      var restorable := ValidateRestoredState(config, before);
      if restorable && before.matchId == record.logicalId {
        engine := before;
      }
    }

    // ------------------------------------------------------------ the persister

    /** persistWorldAndCoreAtomic for the engine in memory. */
    method PersistAtomic(objects: WorldObjects, expected: WorldVersion, doc: WorldDoc, before: Engine,
                         encodes: bool, fault: Fault) returns (outcome: CommitOutcome)
      modifies this`engine, this`record, this`storageVersion, objects
      ensures var call := PairCall(old(View()), old(engine), doc, expected);
        && objects.View() == (if encodes then AfterCall(old(objects.View()), call, fault) else old(objects.View()))
        && (outcome.FailedBeforeWrite? <==> !encodes)
        && (outcome.Committed? <==> encodes && fault.Reliable? && AdmitsCall(old(objects.View()).data, call))
      ensures outcome.Committed? ==> View() == WorldStorage.Committed(old(View()), old(engine))
      ensures outcome.Ambiguous? ==> View() == old(View())
      ensures outcome.FailedBeforeWrite? ==>
        View() == old(View()) || View() == old(View()).(engine := before)
      ensures outcome.FailedBeforeWrite? && Restorable(config, before) && before.matchId == record.logicalId ==> engine == before
    {
      if !encodes {
        Rollback(before);
        return FailedBeforeWrite;
      }
      var updated := record.(snapshot := engine);
      var acknowledged := objects.StorageWrite(Both(Write(updated, MustMatch(storageVersion)),
                                                    WorldWrite(logicalId, doc, Some(expected))), fault);
      if !acknowledged {
        return Ambiguous;
      }
      record := updated;
      storageVersion := Digest(updated);
      outcome := Committed;
    }

    /** The end of the persister for an accepted receipt, once the core holds the
        command in memory. */
    method PersistApplied(objects: WorldObjects, commandId: string, before: Engine, event: Event, doc: WorldDoc,
                          script: Script)
      returns (committed: bool, ghost settled: bool, ghost outage: Fault)
      requires store.Some? && store.value.version == WorldDigest(store.value.doc)
      requires storageVersion == Digest(record) && record.logicalId == logicalId
      requires wedgedBy.None? && before == record.snapshot && engine.version == before.version + 1
      requires commandId in store.value.doc.reservations && commandId !in store.value.doc.receipts
      requires store.value.doc.state.version == before.version
      requires forall id :: id in engine.commands && id != commandId ==> id in before.commands
      requires CallOk(None, PairCall(View(), engine, doc, store.value.version))
      modifies this`engine, this`record, this`storageVersion, this`wedgedBy, objects
      ensures Valid() && (committed ==> !settled && wedgedBy.None? && engine == old(engine))
      ensures committed <==> Lands(old(objects.View()), old(View()), old(store).value.doc, script)
      ensures committed ==>
        View() == WorldStorage.Committed(old(View()), old(engine)) &&
        BothReplaced(old(objects.View()), objects.View(), old(View()), old(engine), doc)
      ensures settled ==>
        !committed && View() == old(View()).(engine := before) && objects.View() == old(objects.View())
      ensures !settled ==>
        Shows(TargetCommit(old(View()).(engine := before), old(engine), event, old(objects.View()).data.matches,
                           MatchWrites(old(objects.View()).late), outage),
              objects.View(), Some(View()), if committed then [ToAll(event)] else [])
      ensures outage == script.commitFault || outage == Dropped
      ensures Continues(None, old(objects.View()), objects.View())
    {
      ghost var pre, after, a := View().(engine := before), engine, objects.View();
      ghost var call := PairCall(View(), engine, doc, store.value.version);
      PairLands(a, View(), after, store.value.doc, doc);
      PairedCommit(pre, after, event, a, call, script.commitFault);
      DroppedCommit(pre, after, event, a);
      NothingCalled(None, a);
      OneCall(None, a, call, script.commitFault);
      outage := Outage(a, call, script.commitFault);
      var ending := PersistAtomic(objects, store.value.version, doc, before, script.encodes, script.commitFault);
      committed := ending.Committed?;
      settled := engine == before;
      if ending.FailedBeforeWrite? {
        outage := Dropped;
      }
      if !committed && engine != before {
        wedgedBy := Some(commandId);
      }
    }

    /** The persister for an accepted receipt: the core applies the command, and
        both objects are committed. */
    method PersistAccepted(objects: WorldObjects, userId: string, c: Command, doc: WorldDoc, at: int, script: Script)
      returns (committed: bool, applied: Option<Event>, ghost answer: WorldAnswer)
      requires Opened() && c.commandId in store.value.doc.reservations && c.commandId !in store.value.doc.receipts
      requires ApplyCommand(config, engine, userId, c, at).1.CommandAccepted? ==>
        CallOk(None, PairCall(View(), ApplyCommand(config, engine, userId, c, at).0, doc, store.value.version))
      modifies this`engine, this`record, this`storageVersion, this`wedgedBy, objects
      ensures Valid() && (committed ==> wedgedBy.None? && applied.Some? && c.commandId in engine.commands)
      ensures committed <==>
        ApplyCommand(config, old(engine), userId, c, at).1.CommandAccepted? &&
        Lands(old(objects.View()), old(View()), old(store).value.doc, script)
      ensures committed ==>
        var (after, outcome) := ApplyCommand(config, old(engine), userId, c, at);
        && applied == Some(outcome.event) && View() == WorldStorage.Committed(old(View()), after)
        && BothReplaced(old(objects.View()), objects.View(), old(View()), after, doc)
      ensures FreshCall(config, old(View()), old(objects.View()), userId, c, answer, script.commitFault, objects.View(),
                        Some(View()), if committed then [ToAll(applied.value)] else [])
      ensures Continues(None, old(objects.View()), objects.View())
    {
      ghost var pre, a := View(), objects.View();
      NothingCalled(None, a);
      FreshRetry(config, pre, a, userId, c, script.commitFault, a);
      var before := engine;
      var after, outcome := RunCommand(config, engine, userId, c, at);
      engine := after;
      if !outcome.CommandAccepted? {
        Rollback(before);
        return false, None, WorldRetry;
      }
      AcceptedCommand(config, before, userId, c, at);
      ghost var settled, outage;
      committed, settled, outage := PersistApplied(objects, c.commandId, before, outcome.event, doc, script);
      applied := if committed then Some(outcome.event) else None;
      answer := WorldRetry;
      if !settled {
        answer := WorldAccepts(at, outage == script.commitFault);
        FreshAccepted(config, pre, a, userId, c, at, outcome.event, script.commitFault, outage, objects.View(),
                      Some(View()), if committed then [ToAll(outcome.event)] else []);
      }
    }

    /** The persister for a rejected receipt: the match value is rewritten as it is. */
    method PersistRejected(objects: WorldObjects, userId: string, c: Command, doc: WorldDoc, script: Script)
      returns (committed: bool, ghost answer: WorldAnswer)
      requires Opened() && CallOk(None, PairCall(View(), engine, doc, store.value.version))
      modifies this`engine, this`record, this`storageVersion, objects
      ensures Valid() && View() == old(View())
      ensures committed <==> Lands(old(objects.View()), old(View()), old(store).value.doc, script)
      ensures committed ==> Replaced(old(objects.View()), objects.View(), logicalId, doc)
      ensures FreshCall(config, old(View()), old(objects.View()), userId, c, answer, script.commitFault, objects.View(),
                        Some(View()), [])
      ensures Continues(None, old(objects.View()), objects.View())
    {
      ghost var pre, a := View(), objects.View();
      ghost var call := PairCall(pre, engine, doc, store.value.version);
      NothingCalled(None, a);
      OneCall(None, a, call, script.commitFault);
      FreshRetry(config, pre, a, userId, c, script.commitFault, a);
      FreshRejected(config, pre, a, userId, c, script.commitFault, call);
      PairLands(a, pre, engine, store.value.doc, doc);
      var ending := PersistAtomic(objects, store.value.version, doc, engine, script.encodes, script.commitFault);
      committed := ending.Committed?;
      answer := if script.encodes then WorldRejects else WorldRetry;
    }

    // -------------------------------------------------------- the World document

    /** CompareAndSwap of the World object alone; its new content is installed
        only once the write is acknowledged. */
    method Swap(objects: WorldObjects, doc: WorldDoc, fault: Fault) returns (ok: bool)
      requires store.Some? && store.value.version == WorldDigest(store.value.doc)
      requires doc.state == store.value.doc.state && DocBelow(store.value.doc, doc)
      modifies this`store, objects
      ensures store == if ok then Some(OpenStore(doc, WorldDigest(doc))) else old(store)
      ensures ok <==> fault.Reliable? && StandsAt(old(objects.View()), logicalId, old(store).value.doc)
      ensures ok ==> Replaced(old(objects.View()), objects.View(), logicalId, doc)
      ensures Continues(None, old(objects.View()), objects.View()) && Aside(old(objects.View()), objects.View())
    {
      var w := WorldWrite(logicalId, doc, Some(store.value.version));
      OneCall(None, objects.View(), Bookkeeping(w), fault);
      SwapLands(objects.View(), logicalId, store.value.doc, doc);
      ok := objects.StorageWrite(Bookkeeping(w), fault);
      if ok {
        store := Some(OpenStore(doc, WorldDigest(doc)));
      }
    }

    /** The creation of a World document from where this instance stands. */
    ghost function CreationCall(script: Script): Commitment
      reads this
    {
      Creates(WorldWrite(logicalId, FirstDoc(engine, script.initialState, script.initialTick), None), record)
    }

    /** ensureWorldStore: open the document of this match, or create it while only
        joins have happened. */
    method EnsureStore(objects: WorldObjects, script: Script) returns (ok: bool)
      requires Valid()
      modifies this`store, objects
      ensures Valid()
      ensures old(store).Some? ==> ok && store == old(store)
      ensures old(store).Some? || logicalId in old(objects.worlds) ==> objects.View() == old(objects.View())
      ensures ok && old(store).None? ==>
        && store.Some? && CursorsAgree(store.value.doc.state, engine)
        && logicalId in objects.worlds && objects.worlds[logicalId] == store.value.doc
      ensures !ok ==> store == old(store)
      ensures ok <==> Found(old(store), old(objects.View()), logicalId, engine, script).Some?
      ensures ok ==> store.value.doc == Found(old(store), old(objects.View()), logicalId, engine, script).value
      ensures ok && old(store).None? ==> Replaced(old(objects.View()), objects.View(), logicalId, store.value.doc)
      ensures objects.View() == old(objects.View()) ||
        (|engine.events| <= 2 && objects.View() == AfterCall(old(objects.View()), old(CreationCall(script)), script.openFault))
      ensures Continues(old(Origin()), old(objects.View()), objects.View()) && Aside(old(objects.View()), objects.View())
    {
      NothingCalled(Origin(), objects.View());
      if store.Some? {
        return true;
      }
      if !script.readable {
        return false;
      }
      if logicalId in objects.worlds {
        var doc := objects.worlds[logicalId];
        if !CursorsAgree(doc.state, engine) {
          return false;
        }
        store := Some(OpenStore(doc, WorldDigest(doc)));
        return true;
      }
      if |engine.events| + 1 > 3 {
        return false;
      }
      var doc := FirstDoc(engine, script.initialState, script.initialTick);
      var creation := Creates(WorldWrite(logicalId, doc, None), record);
      OneCall(Origin(), objects.View(), creation, script.openFault);
      ok := objects.StorageWrite(creation, script.openFault);
      if ok {
        store := Some(OpenStore(doc, WorldDigest(doc)));
      }
    }

    // ------------------------------------------------------------ the coordinator

    /** Store.Prepare: a committed receipt, or a reservation, which a new one is only
        once it is stored. */
    method FindOrReserve(objects: WorldObjects, intent: Intent, script: Script) returns (prepared: Prepared)
      requires Valid() && wedgedBy.None? && store.Some?
      modifies this`store, objects
      ensures Valid() && store.Some? && store.value.doc.state == old(store.value.doc.state)
      ensures !prepared.NewReservation?
      ensures prepared.AlreadyCommitted? ==>
        (store == old(store) && intent.commandId in store.value.doc.receipts &&
         store.value.doc.receipts[intent.commandId] == prepared.receipt && prepared.receipt.intent == intent)
      ensures prepared.AlreadyCommitted? <==>
        intent.commandId in old(store).value.doc.receipts && old(store).value.doc.receipts[intent.commandId].intent == intent
      ensures prepared.AlreadyReserved? <==> Preparable(old(objects.View()), logicalId, old(store).value.doc, intent, script)
      ensures prepared.AlreadyReserved? ==> Prepares(old(store).value.doc, store.value.doc, intent, prepared.reservation)
      ensures prepared.AlreadyReserved? ==>
        if intent.commandId in old(store).value.doc.reservations then objects.View() == old(objects.View())
        else Replaced(old(objects.View()), objects.View(), logicalId, store.value.doc)
      ensures Continues(None, old(objects.View()), objects.View()) && Aside(old(objects.View()), objects.View())
    {
      NothingCalled(None, objects.View());
      GenerationIsNew(store.value.doc.retired, intent.commandId);
      prepared := Prepare(store.value.doc, intent, script.codecPrepares);
      if prepared.NewReservation? {
        var reserved := Swap(objects, prepared.doc, script.prepareFault);
        prepared := if reserved then AlreadyReserved(prepared.reservation) else Unprepared;
      }
    }

    /** Store.BeginAttempt of a reservation that is there. */
    method Begin(objects: WorldObjects, reservation: Reservation, fault: Fault) returns (ok: bool, begun: Reservation)
      requires Valid() && wedgedBy.None? && store.Some?
      requires reservation.intent.commandId in store.value.doc.reservations
      requires store.value.doc.reservations[reservation.intent.commandId] == reservation
      modifies this`store, objects
      ensures Valid() && store.Some? && store.value.doc.state == old(store.value.doc.state)
      ensures begun == reservation.(attempts := reservation.attempts + [false])
      ensures ok <==> fault.Reliable? && StandsAt(old(objects.View()), logicalId, old(store).value.doc)
      ensures ok ==>
        var doc := old(store).value.doc;
        && store.value.doc == doc.(reservations := doc.reservations[reservation.intent.commandId := begun])
        && Replaced(old(objects.View()), objects.View(), logicalId, store.value.doc)
      ensures Continues(None, old(objects.View()), objects.View()) && Aside(old(objects.View()), objects.View())
    {
      var attempt := BeginAttempt(store.value.doc, reservation);
      begun := attempt.1;
      ok := Swap(objects, attempt.0, fault);
    }

    /** Prepare and BeginAttempt: a committed receipt, or an open attempt. */
    method Reserve(objects: WorldObjects, intent: Intent, script: Script) returns (prepared: Prepared)
      requires Valid() && wedgedBy.None? && store.Some?
      modifies this`store, objects
      ensures Valid() && store.Some? && store.value.doc.state == old(store.value.doc.state)
      ensures !prepared.NewReservation?
      ensures prepared.AlreadyCommitted? ==>
        (store == old(store) && intent.commandId in store.value.doc.receipts &&
         store.value.doc.receipts[intent.commandId] == prepared.receipt && prepared.receipt.intent == intent)
      ensures prepared.AlreadyCommitted? <==>
        intent.commandId in old(store).value.doc.receipts && old(store).value.doc.receipts[intent.commandId].intent == intent
      ensures prepared.AlreadyReserved? <==>
        Reservable(old(store).value.doc, intent, script) && StandsAt(old(objects.View()), logicalId, old(store).value.doc)
      ensures prepared.AlreadyReserved? ==>
        Reserves(old(store).value.doc, store.value.doc, intent, prepared.reservation) &&
        Replaced(old(objects.View()), objects.View(), logicalId, store.value.doc)
      ensures Continues(None, old(objects.View()), objects.View()) && Aside(old(objects.View()), objects.View())
    {
      ghost var a, first := objects.View(), store.value.doc;
      prepared := FindOrReserve(objects, intent, script);
      if prepared.AlreadyReserved? {
        ghost var b, mid := objects.View(), store.value.doc;
        var ok, begun := Begin(objects, prepared.reservation, script.beginFault);
        InTurn(None, a, b, objects.View());
        if ok {
          ReservedInTurn(a, b, objects.View(), logicalId, first, mid, store.value.doc, intent, prepared.reservation, begun);
        }
        prepared := if ok then AlreadyReserved(begun) else Unprepared;
      }
    }

    /** RecordFailure; its own failure changes nothing in memory. */
    method NoteFailure(objects: WorldObjects, reservation: Reservation, fault: Fault)
      requires Valid() && store.Some?
      modifies this`store, objects
      ensures Valid() && store.Some? && store.value.doc.state == old(store.value.doc.state)
      ensures
        var doc, id := old(store).value.doc, reservation.intent.commandId;
        id in doc.reservations && doc.reservations[id] == reservation && UnderWay(reservation) && fault.Reliable? &&
        StandsAt(old(objects.View()), logicalId, doc) ==>
          Closes(doc, store.value.doc, reservation) &&
          Replaced(old(objects.View()), objects.View(), logicalId, store.value.doc)
      ensures Continues(None, old(objects.View()), objects.View()) && Aside(old(objects.View()), objects.View())
    {
      NothingCalled(None, objects.View());
      var noted := RecordFailure(store.value.doc, reservation);
      if noted.Some? {
        var _ := Swap(objects, noted.value, fault);
      }
    }

    /** CommitWith behind the stale fence: a stale reservation is retired. */
    method Fenced(objects: WorldObjects, reservation: Reservation, script: Script) returns (stale: bool, retired: bool)
      requires Valid() && wedgedBy.None? && store.Some?
      modifies this`store, objects
      ensures Valid() && store.Some? && store.value.doc.state == old(store.value.doc.state)
      ensures stale <==> reservation.fence != FenceOf(old(store.value.doc.state), reservation.intent.participantId)
      ensures !stale || !retired ==> store == old(store)
      ensures retired ==>
        Retires(old(store).value.doc, store.value.doc, reservation) &&
        Replaced(old(objects.View()), objects.View(), logicalId, store.value.doc)
      ensures retired <==> stale && script.retireFault.Reliable? && StandsAt(old(objects.View()), logicalId, old(store).value.doc)
      ensures !stale ==> objects.View() == old(objects.View())
      ensures Continues(None, old(objects.View()), objects.View()) && Aside(old(objects.View()), objects.View())
    {
      NothingCalled(None, objects.View());
      stale := reservation.fence != FenceOf(store.value.doc.state, reservation.intent.participantId);
      retired := false;
      if stale {
        retired := Swap(objects, Retired(store.value.doc, reservation), script.retireFault);
      }
    }

    /** The commit of a verified World result: both objects or neither. */
    method CommitResult(objects: WorldObjects, userId: string, c: Command, reservation: Reservation, script: Script)
      returns (ending: Ending, sent: seq<Notice>, ghost answer: WorldAnswer)
      requires Opened() && Pending(store.value.doc, c, reservation)
      requires Candidate(store.value.doc, reservation, script.verdict, script.committedAt).Some?
      modifies this, objects
      ensures Valid() && !ending.Fatal?
      ensures FreshCall(config, old(View()), old(objects.View()), userId, c, answer, script.commitFault, objects.View(),
                        Some(View()), sent)
      ensures !ending.Done? ==> sent == []
      ensures ending.Done? ==> Settled(store, engine, wedgedBy.Some?, c.commandId)
      ensures ending.Done? <==> Finishes(config, old(View()), old(store).value.doc, old(objects.View()), userId, c, script)
      ensures ending.Done? ==>
        Leaves(config, old(View()), old(store).value.doc, old(objects.View()), userId, c, reservation.intent, script,
               objects.View(), View(), store, sent)
      ensures script.verdict.RejectsCommand? && Lands(old(objects.View()), old(View()), old(store).value.doc, script) ==>
        LeavesRejection(old(View()), old(store).value.doc, old(objects.View()), reservation.intent, script, objects.View(),
                        View(), store, sent)
      ensures Continues(None, old(objects.View()), objects.View())
    {
      ghost var pre, a := View(), objects.View();
      NothingCalled(None, a);
      CandidateRecords(store.value.doc, reservation, script.verdict, script.committedAt);
      var (doc, receipt) := Candidate(store.value.doc, reservation, script.verdict, script.committedAt).value;
      sent := [];
      var committed;
      if receipt.accepted {
        if ApplyCommand(config, engine, userId, c, script.committedAt).1.CommandAccepted? {
          AcceptedPairOk(config, pre, userId, c, store.value.doc, reservation, script.verdict, script.committedAt);
        }
        var applied;
        committed, applied, answer := PersistAccepted(objects, userId, c, doc, script.committedAt, script);
        if committed {
          sent := [ToAll(applied.value)];
        }
      } else {
        RejectedPairOk(pre, c, store.value.doc, reservation, script.verdict, script.committedAt);
        committed, answer := PersistRejected(objects, userId, c, doc, script);
      }
      if committed {
        store := Some(OpenStore(doc, WorldDigest(doc)));
        ending := if receipt.accepted then Done else Refused;
      } else {
        ghost var b := objects.View();
        NoteFailure(objects, reservation, script.failureFault);
        InTurn(None, a, b, objects.View());
        FreshBeside(config, pre, a, a, userId, c, answer, script.commitFault, b, objects.View(), Some(View()), sent);
        ending := Refused;
      }
    }

    /** CommitWith and what the coordinator makes of its failure. */
    method FenceAndCommit(objects: WorldObjects, userId: string, c: Command, reservation: Reservation, script: Script)
      returns (ending: Ending, sent: seq<Notice>, ghost answer: WorldAnswer)
      requires Opened() && Pending(store.value.doc, c, reservation)
      modifies this, objects
      ensures !ending.Fatal? ==> Valid()
      ensures FreshCall(config, old(View()), old(objects.View()), userId, c, answer, script.commitFault, objects.View(),
                        if ending.Fatal? then None else Some(View()), sent)
      ensures !ending.Done? ==> sent == []
      ensures ending.Done? ==> Settled(store, engine, wedgedBy.Some?, c.commandId)
      ensures ending.Fatal? ==>
        sent == [] && store.Some? && Retires(old(store).value.doc, store.value.doc, reservation) &&
        Replaced(old(objects.View()), objects.View(), logicalId, store.value.doc)
      ensures ending.Fatal? <==>
        reservation.fence != FenceOf(old(store).value.doc.state, reservation.intent.participantId) &&
        script.retireFault.Reliable? && StandsAt(old(objects.View()), logicalId, old(store).value.doc)
      ensures ending.Done? <==>
        reservation.fence == FenceOf(old(store).value.doc.state, reservation.intent.participantId) &&
        Finishes(config, old(View()), old(store).value.doc, old(objects.View()), userId, c, script)
      ensures ending.Done? ==>
        Leaves(config, old(View()), old(store).value.doc, old(objects.View()), userId, c, reservation.intent, script,
               objects.View(), View(), store, sent)
      ensures
        reservation.fence == FenceOf(old(store).value.doc.state, reservation.intent.participantId) &&
        script.verdict.RejectsCommand? && !script.verdict.retryable &&
        Lands(old(objects.View()), old(View()), old(store).value.doc, script) ==>
          ending.Refused? &&
          LeavesRejection(old(View()), old(store).value.doc, old(objects.View()), reservation.intent, script, objects.View(),
                          View(), store, sent)
      ensures Continues(None, old(objects.View()), objects.View())
    {
      sent := [];
      ghost var pre, a := View(), objects.View();
      CandidateRecords(store.value.doc, reservation, script.verdict, script.committedAt);
      var stale, retired := Fenced(objects, reservation, script);
      ghost var b := objects.View();
      if stale && retired {
        FreshFatal(config, pre, a, userId, c, script.commitFault, b);
        return Fatal, [], WorldFatal;
      }
      if !stale && Candidate(store.value.doc, reservation, script.verdict, script.committedAt).Some? {
        ending, sent, answer := CommitResult(objects, userId, c, reservation, script);
        return;
      }
      NoteFailure(objects, reservation, script.failureFault);
      InTurn(None, a, b, objects.View());
      FreshRetry(config, pre, a, userId, c, script.commitFault, objects.View());
      ending, answer := Refused, WorldRetry;
    }

    /** Coordinator.Execute from the begun attempt on: the executor, the verification
        of its result, and the commit. */
    method Attempt(objects: WorldObjects, userId: string, c: Command, reservation: Reservation, script: Script)
      returns (ending: Ending, sent: seq<Notice>, ghost answer: WorldAnswer)
      requires Opened() && Pending(store.value.doc, c, reservation)
      modifies this, objects
      ensures !ending.Fatal? ==> Valid()
      ensures FreshCall(config, old(View()), old(objects.View()), userId, c, answer, script.commitFault, objects.View(),
                        if ending.Fatal? then None else Some(View()), sent)
      ensures !ending.Done? ==> sent == []
      ensures ending.Done? ==> Settled(store, engine, wedgedBy.Some?, c.commandId)
      ensures ending ==
        AttemptEnds(config, old(View()), old(store).value.doc, old(objects.View()), userId, c,
                    reservation.fence != FenceOf(old(store).value.doc.state, reservation.intent.participantId), script)
      ensures ending.Done? ==>
        Leaves(config, old(View()), old(store).value.doc, old(objects.View()), userId, c, reservation.intent, script,
               objects.View(), View(), store, sent)
      ensures
        RejectionLands(old(View()), old(store).value.doc, old(objects.View()),
                       reservation.fence != FenceOf(old(store).value.doc.state, reservation.intent.participantId), script) ==>
          LeavesRejection(old(View()), old(store).value.doc, old(objects.View()), reservation.intent, script, objects.View(),
                          View(), store, sent)
      ensures
        RetirementLands(old(View()), old(store).value.doc, old(objects.View()),
                        reservation.fence != FenceOf(old(store).value.doc.state, reservation.intent.participantId), script) ==>
          sent == [] && store.Some? && Retires(old(store).value.doc, store.value.doc, reservation) &&
          Replaced(old(objects.View()), objects.View(), logicalId, store.value.doc)
      ensures FailureLands(old(View()), old(store).value.doc, old(objects.View()), script) && UnderWay(reservation) ==>
        sent == [] && store.Some? && Closes(old(store).value.doc, store.value.doc, reservation) &&
        Replaced(old(objects.View()), objects.View(), logicalId, store.value.doc)
      ensures Continues(None, old(objects.View()), objects.View())
    {
      sent := [];
      ghost var pre, a := View(), objects.View();
      if script.verdict.AcceptsCommand? || (script.verdict.RejectsCommand? && !script.verdict.retryable) {
        ending, sent, answer := FenceAndCommit(objects, userId, c, reservation, script);
        return;
      }
      NoteFailure(objects, reservation, script.failureFault);
      FreshFatal(config, pre, a, userId, c, script.commitFault, objects.View());
      FreshRetry(config, pre, a, userId, c, script.commitFault, objects.View());
      var retryable := !script.verdict.ResultInvalid? && script.verdict.retryable;
      ending := if retryable then Refused else Fatal;
      answer := if retryable then WorldRetry else WorldFatal;
    }

    /** Coordinator.Execute for one fresh command. */
    method Execute(objects: WorldObjects, userId: string, c: Command, payload: string, script: Script)
      returns (ending: Ending, sent: seq<Notice>, ghost answer: WorldAnswer)
      requires Opened()
      modifies this, objects
      ensures !ending.Fatal? ==> Valid()
      ensures FreshCall(config, old(View()), old(objects.View()), userId, c, answer, script.commitFault, objects.View(),
                        if ending.Fatal? then None else Some(View()), sent)
      ensures !ending.Done? ==> sent == []
      ensures ending.Done? ==> Settled(store, engine, wedgedBy.Some?, c.commandId)
      ensures ending ==
        EndingOf(config, old(View()), old(store).value.doc, old(objects.View()), userId, c, IntentOf(userId, c, payload), script)
      ensures ending.Done? ==>
        Leaves(config, old(View()), old(store).value.doc, old(objects.View()), userId, c, IntentOf(userId, c, payload), script,
               objects.View(), View(), store, sent)
      ensures
        RejectedForGood(old(View()), old(store).value.doc, old(objects.View()), IntentOf(userId, c, payload), script) ==>
          LeavesRejection(old(View()), old(store).value.doc, old(objects.View()), IntentOf(userId, c, payload), script,
                          objects.View(), View(), store, sent)
      ensures
        Reservable(old(store).value.doc, IntentOf(userId, c, payload), script) &&
        FailureLands(old(View()), old(store).value.doc, old(objects.View()), script) ==>
          sent == [] && store.Some? && StaysReserved(old(store).value.doc, store.value.doc, IntentOf(userId, c, payload)) &&
          Replaced(old(objects.View()), objects.View(), logicalId, store.value.doc)
      ensures
        Reservable(old(store).value.doc, IntentOf(userId, c, payload), script) &&
        RetirementLands(old(View()), old(store).value.doc, old(objects.View()),
                        !Unfenced(old(store).value.doc, IntentOf(userId, c, payload)), script) ==>
          sent == [] && store.Some? && RetiresReserved(old(store).value.doc, store.value.doc, IntentOf(userId, c, payload)) &&
          Replaced(old(objects.View()), objects.View(), logicalId, store.value.doc)
      ensures Continues(None, old(objects.View()), objects.View())
    {
      sent := [];
      ghost var pre, a, first, intent := View(), objects.View(), store.value.doc, IntentOf(userId, c, payload);
      var prepared := Reserve(objects, IntentOf(userId, c, payload), script);
      ghost var b, mid := objects.View(), store.value.doc;
      if prepared.AlreadyReserved? {
        ReservedAgrees(config, pre, first, mid, a, b, userId, c, intent, prepared.reservation, script);
        ending, sent, answer := Attempt(objects, userId, c, prepared.reservation, script);
        InTurn(None, a, b, objects.View());
        FreshBeside(config, pre, a, b, userId, c, answer, script.commitFault, objects.View(), objects.View(),
                    if ending.Fatal? then None else Some(View()), sent);
        LeavesFromStart(config, pre, first, mid, a, b, userId, c, intent, prepared.reservation, script, objects.View(),
                        View(), store, sent);
        if FailureLands(pre, first, a, script) {
          FailureStaysReserved(first, mid, store.value.doc, intent, prepared.reservation);
          ReplacedTwice(a, b, objects.View(), logicalId, mid, store.value.doc);
        }
        if RetirementLands(pre, first, a, !Unfenced(first, intent), script) {
          FencedIsRetired(first, mid, store.value.doc, intent, prepared.reservation);
          ReplacedTwice(a, b, objects.View(), logicalId, mid, store.value.doc);
        }
        return;
      }
      FreshFatal(config, pre, a, userId, c, script.commitFault, b);
      FreshRetry(config, pre, a, userId, c, script.commitFault, b);
      if prepared.AlreadyCommitted? && !prepared.receipt.accepted {
        return Refused, [], WorldRetry;
      }
      return Fatal, [], WorldFatal;
    }

    // ------------------------------------------------------------ the two callbacks

    /** executeTargetCommand for a fresh command once the store is open. An
        instance that was left ahead of the World cursors goes no further. */
    method ExecuteFresh(objects: WorldObjects, userId: string, c: Command, script: Script)
      returns (ending: Ending, sent: seq<Notice>, ghost answer: WorldAnswer)
      requires Valid() && store.Some?
      modifies this, objects
      ensures !ending.Fatal? ==> Valid()
      ensures FreshCall(config, old(View()), old(objects.View()), userId, c, answer, script.commitFault, objects.View(),
                        if ending.Fatal? then None else Some(View()), sent)
      ensures ending == FreshEnds(config, old(View()), old(store).value.doc, old(objects.View()), userId, c, script)
      ensures !ending.Done? ==> sent == []
      ensures FreshLeaves(config, old(View()), old(store).value.doc, old(objects.View()), userId, c, script, ending,
                          objects.View(), View(), store, sent)
      ensures Continues(None, old(objects.View()), objects.View())
    {
      ghost var a := objects.View();
      NothingCalled(None, a);
      FreshRetry(config, View(), a, userId, c, script.commitFault, a);
      FreshFatal(config, View(), a, userId, c, script.commitFault, a);
      if !script.payloadTypeMatches || script.canonicalPayload.None? {
        return Refused, [], WorldRetry;
      }
      if !CursorsAgree(store.value.doc.state, engine) || engine.version > MAX_INT64 || |engine.events| + 1 > MAX_INT64 {
        return Fatal, [], WorldFatal;
      }
      ending, sent, answer := Execute(objects, userId, c, script.canonicalPayload.value, script);
    }

    /** executeTargetCommand. The match record sees exactly the target callback of
        the fencing protocol, every storage call keeps the two objects of the match
        in step, and they go on agreeing. How the command ends and what it leaves in
        both objects is given in full; a command that meets nothing in its way is
        committed, and everybody is sent what the durable record gained. */
    method ExecuteTargetCommand(objects: WorldObjects, userId: string, c: Command, now: int, script: Script)
      returns (ending: Ending, sent: seq<Notice>, ghost known: bool, ghost answer: WorldAnswer)
      requires Valid()
      modifies this, objects
      ensures !ending.Fatal? ==> Valid()
      ensures TargetCall(config, old(View()), old(objects.View()), userId, c, now, known, answer, script.commitFault,
                         objects.View(), if ending.Fatal? then None else Some(View()), sent)
      ensures Continues(old(Origin()), old(objects.View()), objects.View())
      ensures Preflight(config, old(engine), userId, c, now).PreflightRejected? ==> objects.View() == old(objects.View())
      ensures ending == CommandEnds(config, old(View()), old(store), old(objects.View()), userId, c, now, script)
      ensures CommandLeaves(config, old(View()), old(store), old(objects.View()), userId, c, now, script, ending,
                            objects.View(), View(), store, sent)
      ensures
        var found := Found(old(store), old(objects.View()), logicalId, old(engine), script);
        Preflight(config, old(engine), userId, c, now).PreflightFresh? && found.Some? &&
        Clean(config, old(View()), found.value, Presented(old(objects.View()), old(store), logicalId, found.value), userId, c,
              script) ==>
          var (after, outcome) := ApplyCommand(config, old(engine), userId, c, script.committedAt);
          && ending.Done? && sent == [ToAll(outcome.event)] && engine == after && record == old(record).(snapshot := after)
          && objects.matches == old(objects.matches)[logicalId := record] && logicalId in objects.worlds
          && Records(found.value, objects.worlds[logicalId], IntentOf(userId, c, script.canonicalPayload.value),
                     script.verdict.nextState, script.verdict.nextTick, script.verdict.outcome, script.committedAt)
      ensures !ending.Fatal? ==> Tells(old(record).snapshot, record.snapshot, sent)
      ensures old(Agreeing(objects.matches, objects.worlds, logicalId) &&
                  MayOpen(Origin(), objects.View().data, logicalId)) ==>
        Agreeing(objects.matches, objects.worlds, logicalId)
    {
      ghost var a, pre, before, origin := objects.View(), View(), store, Origin();
      ghost var mid;
      ending, sent, known, answer, mid := ExecuteOnce(objects, userId, c, now, script);
      CommandGoesOn(config, pre, before, a, userId, c, now, script, mid, ending, objects.View(), View(), store, sent);
      CleanCommandLeaves(config, pre, before, a, userId, c, now, script, ending, objects.View(), View(), store, sent);
      TargetIsTold(config, pre, a.data.matches, MatchWrites(a.late), userId, c, now, known, answer, script.commitFault);
      if Agreeing(a.data.matches, a.data.worlds, logicalId) && MayOpen(origin, a.data, logicalId) {
        CallsKeepAgreement(origin, a.data, Since(a.done, objects.View().done), logicalId);
      }
    }

    method ExecuteOnce(objects: WorldObjects, userId: string, c: Command, now: int, script: Script)
      returns (ending: Ending, sent: seq<Notice>, ghost known: bool, ghost answer: WorldAnswer, ghost mid: Objects)
      requires Valid()
      modifies this, objects
      ensures !ending.Fatal? ==> Valid()
      ensures TargetCall(config, old(View()), old(objects.View()), userId, c, now, known, answer, script.commitFault,
                         objects.View(), if ending.Fatal? then None else Some(View()), sent)
      ensures Continues(old(Origin()), old(objects.View()), objects.View())
      ensures Preflight(config, old(engine), userId, c, now).PreflightRejected? ==> objects.View() == old(objects.View())
      ensures CommandGoes(config, old(View()), old(store), old(objects.View()), userId, c, now, script, mid, ending,
                          objects.View(), View(), store, sent)
    {
      mid := objects.View();
      NothingCalled(Origin(), mid);
      var outcome := RunPreflight(config, engine, userId, c, now);
      if outcome.PreflightRejected? {
        return Refused, [], false, WorldFatal, mid;
      }
      if outcome.PreflightReplayed? {
        answer := WorldFatal;
        ending, sent, known := AnswerAgain(objects, userId, c, now, outcome.event, script);
      } else {
        known := false;
        ending, sent, answer, mid := OpenAndExecute(objects, userId, c, now, script);
      }
    }

    /** A replay needs the committed World receipt. */
    method AnswerAgain(objects: WorldObjects, userId: string, c: Command, now: int, event: Event, script: Script)
      returns (ending: Ending, sent: seq<Notice>, ghost known: bool)
      requires Valid() && Preflight(config, engine, userId, c, now) == PreflightReplayed(event)
      modifies this`store, objects
      ensures Valid() && View() == old(View())
      ensures TargetCall(config, old(View()), old(objects.View()), userId, c, now, known, WorldFatal, script.commitFault,
                         objects.View(), if ending.Fatal? then None else Some(View()), sent)
      ensures
        var found := Found(old(store), old(objects.View()), logicalId, engine, script);
        if found.Some? && c.commandId in found.value.receipts && found.value.receipts[c.commandId].accepted
        then ending == Done && sent == [ToSender(event)] else ending == Fatal && sent == []
      ensures Continues(old(Origin()), old(objects.View()), objects.View())
    {
      ghost var a, pre := objects.View(), View();
      var ready := EnsureStore(objects, script);
      Replays(config, pre, a, userId, c, now, script.commitFault, objects.View(), event);
      if ready && c.commandId in store.value.doc.receipts && store.value.doc.receipts[c.commandId].accepted {
        return Done, [ToSender(event)], true;
      }
      return Fatal, [], false;
    }

    /** A fresh command goes to the World service once the store is open. */
    method OpenAndExecute(objects: WorldObjects, userId: string, c: Command, now: int, script: Script)
      returns (ending: Ending, sent: seq<Notice>, ghost answer: WorldAnswer, ghost mid: Objects)
      requires Valid() && Preflight(config, engine, userId, c, now).PreflightFresh?
      modifies this, objects
      ensures !ending.Fatal? ==> Valid()
      ensures TargetCall(config, old(View()), old(objects.View()), userId, c, now, false, answer, script.commitFault,
                         objects.View(), if ending.Fatal? then None else Some(View()), sent)
      ensures Found(old(store), old(objects.View()), logicalId, old(engine), script).None? ==> ending == Fatal && sent == []
      ensures
        var found := Found(old(store), old(objects.View()), logicalId, old(engine), script);
        found.Some? ==>
          && mid.data.matches == old(objects.matches)
          && mid.data.worlds == Presented(old(objects.View()), old(store), logicalId, found.value).data.worlds
          && ending == FreshEnds(config, old(View()), found.value, mid, userId, c, script) && (!ending.Done? ==> sent == [])
          && FreshLeaves(config, old(View()), found.value, mid, userId, c, script, ending, objects.View(), View(), store, sent)
      ensures Continues(old(Origin()), old(objects.View()), objects.View())
    {
      ghost var a, pre, origin := objects.View(), View(), Origin();
      var ready := EnsureStore(objects, script);
      mid := objects.View();
      if !ready {
        NotOpened(config, pre, a, userId, c, now, script.commitFault, mid);
        return Fatal, [], WorldFatal, mid;
      }
      ending, sent, answer := ExecuteFresh(objects, userId, c, script);
      AlsoUnopened(origin, mid, objects.View());
      InTurn(origin, a, mid, objects.View());
      FreshBeside(config, pre, a, mid, userId, c, answer, script.commitFault, objects.View(), objects.View(),
                  if ending.Fatal? then None else Some(View()), sent);
    }

    /** The gate of MatchSignal before a completion: nothing is reserved, and the
        outcome is the one of the latest accepted transition. */
    method CompletionGate(objects: WorldObjects, outcomeHash: string, script: Script) returns (open: bool)
      requires Valid()
      modifies this`store, objects
      ensures Valid() && View() == old(View())
      ensures old(wedgedBy).Some? ==> !open
      ensures open ==> store.Some? && |store.value.doc.reservations| == 0
      ensures open ==> exists id :: Latest(store.value.doc.receipts, id) && store.value.doc.receipts[id].outcome == outcomeHash
      ensures
        var found := Found(old(store), old(objects.View()), logicalId, engine, script);
        (found.Some? && |found.value.reservations| == 0 && (exists id :: Latest(found.value.receipts, id)) &&
         (forall id :: Latest(found.value.receipts, id) ==> found.value.receipts[id].outcome == outcomeHash)) ==> open
      ensures Continues(old(Origin()), old(objects.View()), objects.View()) && Aside(old(objects.View()), objects.View())
    {
      var ready := EnsureStore(objects, script);
      if !ready || |store.value.doc.reservations| != 0 {
        return false;
      }
      var latest := LatestAcceptedReceipt(store.value.doc.receipts);
      open := latest.Some? && latest.value.outcome == outcomeHash;
    }
  }

  /** Without a document the instance stops. */
  lemma NotOpened(cfg: Config, pre: Instance, a: Objects, userId: string, c: Command, now: int, fault: Fault, b: Objects)
    requires Aside(a, b) && !Preflight(cfg, pre.engine, userId, c, now).PreflightRejected?
    ensures TargetCall(cfg, pre, a, userId, c, now, false, WorldFatal, fault, b, None, [])
  {
  }

  /** A replayed command is answered from the archive, or stops the instance. */
  lemma Replays(cfg: Config, pre: Instance, a: Objects, userId: string, c: Command, now: int, fault: Fault, b: Objects, event: Event)
    requires Aside(a, b) && Preflight(cfg, pre.engine, userId, c, now) == PreflightReplayed(event)
    ensures TargetCall(cfg, pre, a, userId, c, now, false, WorldFatal, fault, b, None, [])
    ensures c.commandId in pre.record.snapshot.commands ==>
      TargetCall(cfg, pre, a, userId, c, now, true, WorldFatal, fault, b, Some(pre), [ToSender(event)])
  {
  }
}

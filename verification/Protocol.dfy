/** The fencing protocol of one Nakama cluster as a transition system
    (runtime/nakama_match.go, runtime/nakama_rpc.go).

    Operator calls and match instances interleave at their storage calls: a call
    that reads and later writes is two steps, and a write that failed at its
    client may still be performed at any later time. Any call or instance may be
    abandoned at any moment. A step that is not enabled leaves the system alone. */
module Protocol {
  import opened Common
  import opened Contract
  import opened MatchEngine
  import opened Snapshot
  import opened StoredMatch
  import opened MatchCallbacks

  const GENERATION_LIMIT := 0x1_0000_0000_0000_0000

  /** An operator call in flight, after its last completed storage call. */
  datatype Rpc =
    | Starting(logicalId: string, generation: nat)
    | ResumeRead(record: Record)
    | ResumeCleared(record: Record)
    | CompleteRead(record: Record, facts: TerminalFacts)
    | CompleteReplied(record: Record, facts: TerminalFacts, evidence: Evidence)

  /** A runtime match by external id: created, past its first read, or live. */
  datatype Match =
    | Requested(logicalId: string, generation: nat)
    | Loaded(record: Record)
    | Live(instance: Instance)

  /** A completion that a match announced to its clients, or that an operator call
      returned. */
  datatype Answer = Announced(completion: Completion) | Returned(completion: Completion)

  datatype System = System(
    store: Store, floating: multiset<Write>,
    rpcs: map<nat, Rpc>, matches: map<string, Match>, used: set<string>,
    visible: set<(string, Notice)>, answers: set<(string, Answer)>)

  const Empty := System(map[], multiset{}, map[], map[], {}, {}, {})

  datatype Step =
    | Create(rpc: nat, a: Authorization, b: Authorization, now: int, fault: Fault)
    | MatchCreate(rpc: nat, externalId: string)
    | InitRead(externalId: string)
    | InitWrite(externalId: string, target: bool, fault: Fault)
    | ResumeLoad(rpc: nat, logicalId: string)
    | ResumeInspect(rpc: nat)
    | ResumeWrite(rpc: nat, fault: Fault)
    | CompleteLoad(rpc: nat, logicalId: string, facts: TerminalFacts)
    | CompleteSignal(rpc: nat, now: int, fault: Fault)
    | CompleteCheck(rpc: nat)
    | JoinMatch(externalId: string, userId: string, authorizationId: string, session: string, now: int, fault: Fault)
    | JoinedMatch(externalId: string, session: string)
    | PlayCommand(externalId: string, userId: string, command: Command, now: int, fault: Fault)
    | PlayTarget(externalId: string, userId: string, command: Command, now: int, receiptKnown: bool,
                 answer: WorldAnswer, fault: Fault)
    | PerformDelayed(write: Write)
    | LoseDelayed(write: Write)
    | AbandonRpc(rpc: nat)
    | StopMatch(externalId: string)

  // ------------------------------------------------------------ storage reads

  /** The signing configuration of the servers and their verdict on snapshots. */
  datatype Cluster = Cluster(config: Config, restores: Engine -> bool)

  /** The verdict is the one of validateRestoredState. */
  ghost predicate Genuine(c: Cluster)
  {
    forall e :: c.restores(e) <==> Restorable(c.config, e)
  }

  /** loadStoredMatch followed by restoreStoredEngine. */
  predicate Loads(c: Cluster, s: System, logicalId: string)
  {
    logicalId in s.store && c.restores(s.store[logicalId].snapshot) &&
    s.store[logicalId].snapshot.matchId == logicalId
  }

  predicate IsLive(s: System, externalId: string)
  {
    externalId in s.matches && s.matches[externalId].Live?
  }

  // -------------------------------------------------------------------- create

  /** rpcCreateMatch up to the acknowledgement of its first write. */
  function DoCreate(cfg: Config, s: System, rpc: nat, a: Authorization, b: Authorization, now: int, fault: Fault): System
  {
    match NewMatch(cfg, a, b, now)
    case None => s
    case Some(engine) =>
      if rpc in s.rpcs then s
      else
        var record := Record(engine.matchId, engine, "", 1);
        var (store, floating, ack) := Perform(s.store, s.floating, Write(record, MustBeAbsent), fault);
        s.(store := store, floating := floating,
           rpcs := if ack.Acked? then s.rpcs[rpc := Starting(record.logicalId, 1)] else s.rpcs)
  }

  /** nk.MatchCreate: it names the runtime match and asks it to initialize. */
  function DoMatchCreate(s: System, rpc: nat, externalId: string): System
  {
    if rpc in s.rpcs && s.rpcs[rpc].Starting? && externalId != "" && externalId !in s.used then
      s.(rpcs := s.rpcs - {rpc}, used := s.used + {externalId},
         matches := s.matches[externalId := Requested(s.rpcs[rpc].logicalId, s.rpcs[rpc].generation)])
    else s
  }

  // ---------------------------------------------------------------------- init

  function DoInitRead(c: Cluster, s: System, externalId: string): System
  {
    if externalId in s.matches && s.matches[externalId].Requested? then
      var m := s.matches[externalId];
      if Loads(c, s, m.logicalId) && s.store[m.logicalId].generation == m.generation &&
         s.store[m.logicalId].snapshot.completion.None?
      then s.(matches := s.matches[externalId := Loaded(s.store[m.logicalId])])
      else s.(matches := s.matches - {externalId})
    else s
  }

  function DoInitWrite(s: System, externalId: string, target: bool, fault: Fault): System
  {
    if externalId in s.matches && s.matches[externalId].Loaded? then
      var record := s.matches[externalId].record;
      var updated := record.(externalId := externalId);
      var (store, floating, ack) :=
        Perform(s.store, s.floating, Write(updated, MustMatch(Digest(record))), fault);
      var rest := s.(store := store, floating := floating);
      match ack
      case Acked(version) =>
        var inst := Instance(record.snapshot, updated, version, record.logicalId, record.generation,
                             map[], target, false);
        rest.(matches := s.matches[externalId := Live(inst)])
      case _ => rest.(matches := s.matches - {externalId})
    else s
  }

  // -------------------------------------------------------------------- resume

  function DoResumeLoad(c: Cluster, s: System, rpc: nat, logicalId: string): System
  {
    if rpc !in s.rpcs && Loads(c, s, logicalId) then
      var record := s.store[logicalId];
      if record.snapshot.completion.Some? then
        s.(answers := s.answers + {(logicalId, Returned(record.snapshot.completion.value))})
      else s.(rpcs := s.rpcs[rpc := ResumeRead(record)])
    else s
  }

  /** A live current runtime ends the call; an absent one lets it fence. */
  function DoResumeInspect(s: System, rpc: nat): System
  {
    if rpc in s.rpcs && s.rpcs[rpc].ResumeRead? then
      var record := s.rpcs[rpc].record;
      if record.externalId != "" && IsLive(s, record.externalId) then s.(rpcs := s.rpcs - {rpc})
      else s.(rpcs := s.rpcs[rpc := ResumeCleared(record)])
    else s
  }

  function DoResumeWrite(s: System, rpc: nat, fault: Fault): System
  {
    if rpc in s.rpcs && s.rpcs[rpc].ResumeCleared? then
      var record := s.rpcs[rpc].record;
      if record.generation + 1 >= GENERATION_LIMIT then s.(rpcs := s.rpcs - {rpc})
      else
        var updated := record.(externalId := "", generation := record.generation + 1);
        var (store, floating, ack) :=
          Perform(s.store, s.floating, Write(updated, MustMatch(Digest(record))), fault);
        s.(store := store, floating := floating,
           rpcs := if ack.Acked? then s.rpcs[rpc := Starting(updated.logicalId, updated.generation)]
                   else s.rpcs - {rpc})
    else s
  }

  // ------------------------------------------------------------------ complete

  function DoCompleteLoad(c: Cluster, s: System, rpc: nat, logicalId: string, facts: TerminalFacts): System
  {
    if rpc !in s.rpcs && Loads(c, s, logicalId) then
      var record := s.store[logicalId];
      if record.snapshot.completion.Some? then
        var at := record.snapshot.completion.value.body.completedAt;
        match Complete(c.config, record.snapshot, facts, at).1
        case CompletionRejected(_) => s
        case CompletionAnswer(completion) => s.(answers := s.answers + {(logicalId, Returned(completion))})
      else if record.externalId == "" then s
      else s.(rpcs := s.rpcs[rpc := CompleteRead(record, facts)])
    else s
  }

  /** The state of the system after one callback of a live instance. */
  ghost function AfterCallback(s: System, externalId: string, effect: Effect): System
    requires IsLive(s, externalId)
  {
    var logicalId := s.matches[externalId].instance.logicalId;
    s.(store := effect.store, floating := effect.floating,
       matches := if effect.instance.Some? then s.matches[externalId := Live(effect.instance.value)]
                  else s.matches - {externalId},
       visible := s.visible + (set notice | notice in effect.broadcast :: (logicalId, notice)),
       answers := s.answers + (if effect.announced.Some? then {(logicalId, Announced(effect.announced.value))} else {}))
  }

  /** nk.MatchSignal: a target instance with a pending World reservation refuses. */
  ghost function DoCompleteSignal(c: Cluster, s: System, rpc: nat, now: int, fault: Fault): System
  {
    if rpc in s.rpcs && s.rpcs[rpc].CompleteRead? && IsLive(s, s.rpcs[rpc].record.externalId) then
      var record, facts := s.rpcs[rpc].record, s.rpcs[rpc].facts;
      var inst := s.matches[record.externalId].instance;
      if inst.wedged then s.(rpcs := s.rpcs - {rpc})
      else
        var effect := OnSignal(c.config, inst, s.store, s.floating, record.logicalId, record.generation, facts, now, fault);
        AfterCallback(s, record.externalId, effect).(
          rpcs := if effect.reply.Some? then s.rpcs[rpc := CompleteReplied(record, facts, effect.reply.value)]
                  else s.rpcs - {rpc})
    else s
  }

  /** validateCompletionSignalEvidence against the reloaded record. */
  predicate EvidenceHolds(cfg: Config, evidence: Evidence, record: Record, facts: TerminalFacts, signaled: nat)
  {
    && evidence.logicalId == record.logicalId && evidence.externalId == record.externalId
    && evidence.generation == record.generation && record.generation == signaled
    && CompletionVerified(cfg, evidence.completion)
    && record.snapshot.completion == Some(evidence.completion)
    && cfg.terminalFactsValid(facts) && evidence.completion.body.facts == facts
  }

  function DoCompleteCheck(c: Cluster, s: System, rpc: nat): System
  {
    if rpc in s.rpcs && s.rpcs[rpc].CompleteReplied? then
      var call := s.rpcs[rpc];
      var id := call.record.logicalId;
      var done := s.(rpcs := s.rpcs - {rpc});
      if Loads(c, s, id) && Digest(s.store[id]) != Digest(call.record) &&
         EvidenceHolds(c.config, call.evidence, s.store[id], call.facts, call.record.generation)
      then done.(answers := s.answers + {(id, Returned(call.evidence.completion))})
      else done
    else s
  }

  // ----------------------------------------------------------------- all steps

  ghost function Do(c: Cluster, s: System, step: Step): System
  {
    match step
    case Create(rpc, a, b, now, fault) => DoCreate(c.config, s, rpc, a, b, now, fault)
    case MatchCreate(rpc, x) => DoMatchCreate(s, rpc, x)
    case InitRead(x) => DoInitRead(c, s, x)
    case InitWrite(x, target, fault) => DoInitWrite(s, x, target, fault)
    case ResumeLoad(rpc, id) => DoResumeLoad(c, s, rpc, id)
    case ResumeInspect(rpc) => DoResumeInspect(s, rpc)
    case ResumeWrite(rpc, fault) => DoResumeWrite(s, rpc, fault)
    case CompleteLoad(rpc, id, facts) => DoCompleteLoad(c, s, rpc, id, facts)
    case CompleteSignal(rpc, now, fault) => DoCompleteSignal(c, s, rpc, now, fault)
    case CompleteCheck(rpc) => DoCompleteCheck(c, s, rpc)
    case JoinMatch(x, user, auth, session, now, fault) =>
      if !IsLive(s, x) then s
      else AfterCallback(s, x, OnJoin(c.config, s.matches[x].instance, s.store, s.floating, user, auth, session, now, fault))
    case JoinedMatch(x, session) =>
      if !IsLive(s, x) then s
      else AfterCallback(s, x, OnJoined(s.matches[x].instance, s.store, s.floating, session))
    case PlayCommand(x, user, command, now, fault) =>
      if !IsLive(s, x) || s.matches[x].instance.target then s
      else AfterCallback(s, x, OnCommand(c.config, s.matches[x].instance, s.store, s.floating, user, command, now, fault))
    case PlayTarget(x, user, command, now, known, answer, fault) =>
      if !IsLive(s, x) || !s.matches[x].instance.target then s
      else AfterCallback(s, x, OnTargetCommand(c.config, s.matches[x].instance, s.store, s.floating, user, command, now,
                                               known, answer, fault))
    case PerformDelayed(w) =>
      if w in s.floating then s.(store := Commit(s.store, w), floating := s.floating - multiset{w}) else s
    case LoseDelayed(w) => s.(floating := s.floating - multiset{w})
    case AbandonRpc(rpc) => s.(rpcs := s.rpcs - {rpc})
    case StopMatch(x) => s.(matches := s.matches - {x})
  }

  /** The system after a run of steps. */
  ghost function Run(c: Cluster, s: System, steps: seq<Step>): System
  {
    if steps == [] then s else Do(c, Run(c, s, steps[..|steps| - 1]), steps[|steps| - 1])
  }
}

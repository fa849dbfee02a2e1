/** What each callback of a live match instance does, as a function of the
    instance and the storage (runtime/nakama_match.go). The class in MatchRuntime
    is proved to do exactly this; the transition system in Protocol is built
    from it. An absent instance is one that returned nil and is stopped. */
module MatchCallbacks {
  import opened Common
  import opened Contract
  import opened MatchEngine
  import opened StoredMatch

  datatype Instance = Instance(
    engine: Engine, record: Record, version: Version, logicalId: string, generation: nat,
    pending: map<string, Event>, target: bool, wedged: bool)

  datatype Evidence = Evidence(logicalId: string, externalId: string, generation: nat, completion: Completion)

  /** What is sent of an event: to everybody in the match, or to the sender of the
      message that is answered. */
  datatype Notice = ToAll(event: Event) | ToSender(event: Event)

  datatype Effect = Effect(
    instance: Option<Instance>, store: Store, floating: multiset<Write>,
    broadcast: seq<Notice>, announced: Option<Completion>, reply: Option<Evidence>)

  function Quiet(inst: Instance, store: Store, floating: multiset<Write>): Effect
  {
    Effect(Some(inst), store, floating, [], None, None)
  }

  /** persistMutation for an instance whose engine is already `after`. */
  function Persist(inst: Instance, after: Engine, store: Store, floating: multiset<Write>, fault: Fault)
    : (Option<Instance>, Store, multiset<Write>)
  {
    var updated := inst.record.(snapshot := after);
    var (store', floating', ack) := Perform(store, floating, Write(updated, MustMatch(inst.version)), fault);
    match ack
    case Acked(version) => (Some(inst.(engine := after, record := updated, version := version)), store', floating')
    case _ => (None, store', floating')
  }

  function OnJoin(cfg: Config, inst: Instance, store: Store, floating: multiset<Write>,
                  userId: string, authorizationId: string, session: string, now: int, fault: Fault): Effect
  {
    var (after, outcome) := Join(cfg, inst.engine, userId, authorizationId, now);
    if !outcome.JoinAccepted? then Quiet(inst, store, floating)
    else
      var (next, store', floating') := Persist(inst, after, store, floating, fault);
      var kept := if next.None? then None
                  else Some(next.value.(pending := next.value.pending[session := outcome.event]));
      Effect(kept, store', floating', [], None, None)
  }

  /** MatchJoin for one presence. */
  function OnJoined(inst: Instance, store: Store, floating: multiset<Write>, session: string): Effect
  {
    if session !in inst.pending then Quiet(inst, store, floating)
    else
      Effect(Some(inst.(pending := inst.pending - {session})), store, floating, [ToAll(inst.pending[session])], None, None)
  }

  /** One command message of MatchLoop. */
  ghost function OnCommand(cfg: Config, inst: Instance, store: Store, floating: multiset<Write>,
                           userId: string, c: Command, now: int, fault: Fault): Effect
  {
    var (after, outcome) := ApplyCommand(cfg, inst.engine, userId, c, now);
    match outcome
    case CommandRejected(_) => Quiet(inst, store, floating)
    case CommandReplayed(event) => Effect(Some(inst), store, floating, [ToSender(event)], None, None)
    case CommandAccepted(event) =>
      var (next, store', floating') := Persist(inst, after, store, floating, fault);
      Effect(next, store', floating', if next.Some? then [ToAll(event)] else [], None, None)
  }

  predicate Bound(inst: Instance, logicalId: string, generation: nat)
  {
    && 0 < generation
    && logicalId == inst.logicalId && logicalId == inst.record.logicalId && logicalId == inst.engine.matchId
    && generation == inst.generation && generation == inst.record.generation
  }

  function EvidenceOf(record: Record, completion: Completion): Evidence
  {
    Evidence(record.logicalId, record.externalId, record.generation, completion)
  }

  /** completeAndTerminate behind validateCompleteSignalBinding. */
  function OnSignal(cfg: Config, inst: Instance, store: Store, floating: multiset<Write>,
                    logicalId: string, generation: nat, facts: TerminalFacts, now: int, fault: Fault): Effect
  {
    if !Bound(inst, logicalId, generation) then Quiet(inst, store, floating)
    else
      var (after, outcome) := Complete(cfg, inst.engine, facts, now);
      match outcome
      case CompletionRejected(_) => Quiet(inst, store, floating)
      case CompletionAnswer(completion) =>
        if inst.engine.completion.Some? then
          Effect(Some(inst), store, floating, [], None, Some(EvidenceOf(inst.record, inst.engine.completion.value)))
        else
          var (next, store', floating') := Persist(inst, after, store, floating, fault);
          Effect(next, store', floating', [], if next.Some? then Some(completion) else None,
                 if next.Some? then Some(EvidenceOf(next.value.record, completion)) else None)
  }

  /** What the World side decides about a fresh command of a target instance. */
  datatype WorldAnswer =
    | WorldRetry
    | WorldFatal
    | WorldRejects
    | WorldAccepts(at: int, admitted: bool)

  /** The commit of an accepted target command, as the match record sees it. */
  function TargetCommit(inst: Instance, after: Engine, event: Event, store: Store, floating: multiset<Write>,
                        fault: Fault): Effect
  {
    var (next, store', floating') := Persist(inst, after, store, floating, fault);
    if next.Some? then Effect(next, store', floating', [ToAll(event)], None, None)
    else Effect(Some(inst.(engine := after, wedged := true)), store', floating', [], None, None)
  }

  /** A fresh target command. A committed rejection rewrites the match value
      unchanged. A commit without acknowledgement keeps the mutated engine and
      wedges the instance, whose next fresh command fails its cursor check. */
  ghost function FreshTarget(cfg: Config, inst: Instance, store: Store, floating: multiset<Write>,
                             userId: string, c: Command, answer: WorldAnswer, fault: Fault): Effect
  {
    if answer.WorldRetry? then Quiet(inst, store, floating)
    else if inst.wedged || answer.WorldFatal? then Effect(None, store, floating, [], None, None)
    else if answer.WorldRejects? then
      var (store', floating', _) :=
        Perform(store, floating, Write(inst.record.(snapshot := inst.engine), MustMatch(inst.version)), fault);
      Quiet(inst, store', floating')
    else
      var (after, outcome) := ApplyCommand(cfg, inst.engine, userId, c, answer.at);
      if !outcome.CommandAccepted? then Quiet(inst, store, floating)
      else TargetCommit(inst, after, outcome.event, store, floating, if answer.admitted then fault else Dropped)
  }

  /** executeTargetCommand as the match record sees it; the World objects are in
      WorldCommit. A replay needs the committed World receipt. */
  ghost function OnTargetCommand(cfg: Config, inst: Instance, store: Store, floating: multiset<Write>,
                                 userId: string, c: Command, now: int, receiptKnown: bool,
                                 answer: WorldAnswer, fault: Fault): Effect
  {
    match Preflight(cfg, inst.engine, userId, c, now)
    case PreflightRejected(_) => Quiet(inst, store, floating)
    case PreflightReplayed(event) =>
      if receiptKnown && c.commandId in inst.record.snapshot.commands
      then Effect(Some(inst), store, floating, [ToSender(event)], None, None)
      else Effect(None, store, floating, [], None, None)
    case PreflightFresh => FreshTarget(cfg, inst, store, floating, userId, c, answer, fault)
  }
}

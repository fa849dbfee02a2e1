/** One live match instance, as the object the source keeps
    (authoritativeMatchState and its callbacks in runtime/nakama_match.go).

    Each callback is proved to do what MatchCallbacks says of the instance, the
    storage and the broadcasts, and to return a live state only when the engine
    in memory is the one in the record it was last acknowledged for. */
module MatchRuntime {
  import opened Common
  import opened Contract
  import opened MatchEngine
  import opened Snapshot
  import opened SnapshotValidation
  import opened StoredMatch
  import opened MatchCallbacks
  import opened MatchDelivery

  /** The storage as its clients see it. What happens to a call on its way is an
      argument of the call; writes still under way are not readable. */
  class StorageGateway {
    var objects: Store
    ghost var floating: multiset<Write>

    constructor ()
      ensures objects == map[] && floating == multiset{}
    {
      objects := map[];
      floating := multiset{};
    }

    method StorageWrite(w: Write, fault: Fault) returns (ack: Ack)
      modifies this
      ensures (objects, floating, ack) == Perform(old(objects), old(floating), w, fault)
    {
      ack := Failed;
      match fault {
        case Reliable =>
          if Admits(objects, w) {
            ack := Acked(Digest(w.record));
          } else {
            ack := Conflict;
          }
          objects := Commit(objects, w);
        case AckLost =>
          objects := Commit(objects, w);
        case Dropped =>
        case Delayed =>
          floating := floating + multiset{w};
      }
    }
  }

  /** One realtime message; an undecodable payload has no command. */
  datatype Message = Message(opCode: int, size: nat, command: Option<Command>, userId: string, now: int, fault: Fault)

  const OP_CODE_COMMAND := 1
  const MAXIMUM_COMMAND_BYTES := 128 * 1024
  const MAXIMUM_GENERATION_SECONDS := 6 * 60 * 60

  predicate Playable(m: Message)
  {
    m.opCode == OP_CODE_COMMAND && 0 < m.size <= MAXIMUM_COMMAND_BYTES && m.command.Some?
  }

  predicate GenerationExpired(tick: int, tickRate: int)
  {
    tick < 0 || tickRate < 1 || tick >= tickRate * MAXIMUM_GENERATION_SECONDS
  }

  // -------------------------------------------------------------- specifications

  /** MatchJoin: the pending events of these sessions, each delivered once. */
  function AfterJoined(inst: Instance, sessions: seq<string>): (Instance, seq<Notice>)
    decreases |sessions|
  {
    if sessions == [] then (inst, [])
    else
      var (before, sent) := AfterJoined(inst, sessions[..|sessions| - 1]);
      var effect := OnJoined(before, map[], multiset{}, sessions[|sessions| - 1]);
      (effect.instance.value, sent + effect.broadcast)
  }

  /** MatchLoop: the messages in order until the instance stops. */
  ghost function AfterMessages(cfg: Config, inst: Instance, store: Store, floating: multiset<Write>,
                               messages: seq<Message>): Effect
    decreases |messages|
  {
    if messages == [] then Quiet(inst, store, floating)
    else
      var before := AfterMessages(cfg, inst, store, floating, messages[..|messages| - 1]);
      var m := messages[|messages| - 1];
      if before.instance.None? || !Playable(m) then before
      else
        var effect := OnCommand(cfg, before.instance.value, before.store, before.floating, m.userId,
                                m.command.value, m.now, m.fault);
        effect.(broadcast := before.broadcast + effect.broadcast)
  }

  // ------------------------------------------------------ the commands of a loop

  /** The engine after the commands of these messages, in order. */
  ghost function Applied(cfg: Config, e: Engine, messages: seq<Message>): Engine
    decreases |messages|
  {
    if messages == [] then e
    else
      var before, m := Applied(cfg, e, messages[..|messages| - 1]), messages[|messages| - 1];
      if Playable(m) then ApplyCommand(cfg, before, m.userId, m.command.value, m.now).0 else before
  }

  /** What these messages are answered with, in order. */
  ghost function Answers(cfg: Config, e: Engine, messages: seq<Message>): seq<Notice>
    decreases |messages|
  {
    if messages == [] then []
    else
      var first, m := messages[..|messages| - 1], messages[|messages| - 1];
      Answers(cfg, e, first) +
      (if Playable(m) then Answer(ApplyCommand(cfg, Applied(cfg, e, first), m.userId, m.command.value, m.now).1) else [])
  }

  /** The command of message i is a new one that the engine accepts. */
  ghost predicate AcceptsAt(cfg: Config, e: Engine, messages: seq<Message>, i: nat)
    requires i < |messages|
  {
    var m := messages[i];
    Playable(m) && ApplyCommand(cfg, Applied(cfg, e, messages[..i]), m.userId, m.command.value, m.now).1.CommandAccepted?
  }

  /** Every command that the engine accepts reaches the storage and is acknowledged,
      for an instance with the durable record. */
  ghost predicate AllReach(cfg: Config, e: Engine, messages: seq<Message>, stored: bool)
  {
    forall i :: 0 <= i < |messages| && AcceptsAt(cfg, e, messages, i) ==> messages[i].fault.Reliable? && stored
  }

  lemma OneMoreReaches(cfg: Config, e: Engine, before: seq<Message>, m: Message, stored: bool)
    ensures AllReach(cfg, e, before + [m], stored) <==>
      AllReach(cfg, e, before, stored) &&
      (Playable(m) && ApplyCommand(cfg, Applied(cfg, e, before), m.userId, m.command.value, m.now).1.CommandAccepted? ==>
         m.fault.Reliable? && stored)
  {
    var all := before + [m];
    assert all[..|before|] == before;
    forall i | 0 <= i < |before| ensures AcceptsAt(cfg, e, all, i) <==> AcceptsAt(cfg, e, before, i) {
      assert all[..i] == before[..i];
    }
    assert AcceptsAt(cfg, e, all, |before|) <==>
      Playable(m) && ApplyCommand(cfg, Applied(cfg, e, before), m.userId, m.command.value, m.now).1.CommandAccepted?;
    if AllReach(cfg, e, all, stored) {
      forall i | 0 <= i < |before| && AcceptsAt(cfg, e, before, i) ensures before[i].fault.Reliable? && stored {
        assert AcceptsAt(cfg, e, all, i) && all[i] == before[i];
      }
    }
  }

  lemma OneMoreApplied(cfg: Config, e: Engine, before: seq<Message>, m: Message, f: Engine)
    requires f == Applied(cfg, e, before)
    ensures Applied(cfg, e, before + [m]) ==
      if Playable(m) then ApplyCommand(cfg, f, m.userId, m.command.value, m.now).0 else f
    ensures Answers(cfg, e, before + [m]) ==
      Answers(cfg, e, before) +
      (if Playable(m) then Answer(ApplyCommand(cfg, f, m.userId, m.command.value, m.now).1) else [])
  {
    assert (before + [m])[..|before|] == before;
  }

  /** What goes to everybody is what the engine gained. */
  lemma {:induction false} AnswersAreNews(cfg: Config, e: Engine, messages: seq<Message>)
    ensures var f := Applied(cfg, e, messages);
      e.events <= f.events && ToEverybody(Answers(cfg, e, messages)) == Beyond(e, f)
    decreases |messages|
  {
    if messages != [] {
      var first, m := messages[..|messages| - 1], messages[|messages| - 1];
      AnswersAreNews(cfg, e, first);
      var f, told := Applied(cfg, e, first), Answers(cfg, e, first);
      assert messages == first + [m];
      OneMoreApplied(cfg, e, first, m, f);
      if Playable(m) {
        var (g, outcome) := ApplyCommand(cfg, f, m.userId, m.command.value, m.now);
        AppliedEvents(cfg, f, m.userId, m.command.value, m.now);
        TwoRounds(told, Answer(outcome));
        BeyondTwice(e, f, g);
      } else {
        assert told + [] == told;
      }
    }
  }

  /** The instance and storage that a loop leaves behind, seen from the commands. */
  ghost predicate LoopLeaves(cfg: Config, inst: Instance, store: Store, messages: seq<Message>, effect: Effect)
  {
    && (effect.instance.Some? <==> AllReach(cfg, inst.engine, messages, Stored(store, inst.record)))
    && (effect.instance.Some? ==>
          var next := effect.instance.value;
          && next.engine == Applied(cfg, inst.engine, messages) && effect.broadcast == Answers(cfg, inst.engine, messages)
          && next.version == Digest(next.record) && next.engine == next.record.snapshot
          && (Stored(effect.store, next.record) <==> Stored(store, inst.record))
          && (next.engine != inst.engine ==> Stored(effect.store, next.record)))
  }

  lemma {:induction false} OneMoreLeaves(cfg: Config, inst: Instance, store: Store, before: seq<Message>, m: Message,
                                         mid: Instance, effect: Effect, step: Effect, next: Effect)
    requires LoopLeaves(cfg, inst, store, before, effect) && effect.instance == Some(mid) && Playable(m)
    requires step == OnCommand(cfg, mid, effect.store, effect.floating, m.userId, m.command.value, m.now, m.fault)
    requires next == step.(broadcast := effect.broadcast + step.broadcast)
    ensures LoopLeaves(cfg, inst, store, before + [m], next)
  {
    CommandIsTold(cfg, mid, effect.store, effect.floating, m.userId, m.command.value, m.now, m.fault);
    CommandKeepsDurable(cfg, mid, effect.store, effect.floating, m.userId, m.command.value, m.now, m.fault);
    AppliedEvents(cfg, mid.engine, m.userId, m.command.value, m.now);
    OneMoreApplied(cfg, inst.engine, before, m, mid.engine);
    OneMoreReaches(cfg, inst.engine, before, m, Stored(store, inst.record));
  }

  lemma {:induction false} LoopTells(cfg: Config, inst: Instance, store: Store, floating: multiset<Write>, messages: seq<Message>)
    requires inst.version == Digest(inst.record) && inst.engine == inst.record.snapshot
    ensures LoopLeaves(cfg, inst, store, messages, AfterMessages(cfg, inst, store, floating, messages))
    decreases |messages|
  {
    if messages != [] {
      var before, m := messages[..|messages| - 1], messages[|messages| - 1];
      assert messages == before + [m];
      LoopTells(cfg, inst, store, floating, before);
      var effect := AfterMessages(cfg, inst, store, floating, before);
      if effect.instance.Some? && Playable(m) {
        var mid := effect.instance.value;
        OneMoreLeaves(cfg, inst, store, before, m, mid, effect,
                      OnCommand(cfg, mid, effect.store, effect.floating, m.userId, m.command.value, m.now, m.fault),
                      AfterMessages(cfg, inst, store, floating, messages));
      } else {
        OneMoreReaches(cfg, inst.engine, before, m, Stored(store, inst.record));
      }
    }
  }

  // ---------------------------------------------------------------- the instance

  class MatchState {
    const config: Config
    const logicalId: string
    const generation: nat
    var engine: Engine
    var record: Record
    var storageVersion: Version
    var pendingJoinEvents: map<string, Event>

    /** The instance as a value. */
    ghost function View(): Instance
      reads this
    {
      Instance(engine, record, storageVersion, logicalId, generation, pendingJoinEvents, false, false)
    }

    /** Memory and storage agree: the engine is the restored record, and the
        version is the one that was acknowledged for it. */
    predicate Agrees()
      reads this
    {
      engine == record.snapshot && storageVersion == Digest(record)
    }

    /** The snapshot of this engine restores under the record of this instance. */
    ghost predicate Restores(e: Engine)
      reads this
    {
      Restorable(config, e) && e.matchId == record.logicalId
    }

    constructor (config: Config, record: Record, version: Version)
      ensures this.config == config
      ensures View() == Instance(record.snapshot, record, version, record.logicalId, record.generation, map[], false, false)
    {
      this.config := config;
      this.logicalId := record.logicalId;
      this.generation := record.generation;
      this.engine := record.snapshot;
      this.record := record;
      this.storageVersion := version;
      this.pendingJoinEvents := map[];
    }

    /** rollback: the engine before the mutation, if its snapshot restores. */
    method Rollback(before: Engine)
      modifies this`engine
      ensures engine == if Restores(before) then before else old(engine)
    {
      var restorable := ValidateRestoredState(config, before);
      if restorable && before.matchId == record.logicalId {
        engine := before;
      }
    }

    /** persistMutation of the engine in memory. */
    method PersistMutation(gateway: StorageGateway, before: Engine, fault: Fault) returns (ok: bool)
      modifies this`engine, this`record, this`storageVersion, gateway
      ensures var (next, store, floating) :=
          Persist(old(View()), old(engine), old(gateway.objects), old(gateway.floating), fault);
        && gateway.objects == store && gateway.floating == floating && ok == next.Some?
        && (ok ==> View() == next.value)
      ensures !ok ==> record == old(record) && storageVersion == old(storageVersion)
      ensures !ok && Restores(before) ==> engine == before
    {
      var updated := record.(snapshot := engine);
      var ack := gateway.StorageWrite(Write(updated, MustMatch(storageVersion)), fault);
      if !ack.Acked? {
        Rollback(before);
        return false;
      }
      record := updated;
      storageVersion := ack.version;
      ok := true;
    }

    /** MatchJoinAttempt; the metadata must hold exactly the authorization id. */
    method MatchJoinAttempt(gateway: StorageGateway, userId: string, metadata: map<string, string>, session: string,
                            now: int, fault: Fault) returns (alive: bool, admitted: bool)
      requires Agrees()
      modifies this, gateway
      ensures |metadata| == 1 && "authorization_id" in metadata ==>
        var effect := OnJoin(config, old(View()), old(gateway.objects), old(gateway.floating), userId,
                             metadata["authorization_id"], session, now, fault);
        && gateway.objects == effect.store && gateway.floating == effect.floating
        && alive == effect.instance.Some? && (alive ==> View() == effect.instance.value)
        && admitted == (alive && !Join(config, old(engine), userId, metadata["authorization_id"], now).1.JoinRejected?)
      ensures |metadata| == 1 && "authorization_id" in metadata ==>
        var (after, outcome) := Join(config, old(engine), userId, metadata["authorization_id"], now);
        && (alive <==> (outcome.JoinAccepted? ==> fault.Reliable? && Stored(old(gateway.objects), old(record))))
        && (alive ==>
              engine == after &&
              pendingJoinEvents ==
                if outcome.JoinAccepted? then old(pendingJoinEvents)[session := outcome.event] else old(pendingJoinEvents))
        && (alive && outcome.JoinAccepted? ==> Stored(gateway.objects, record))
      ensures !(|metadata| == 1 && "authorization_id" in metadata) ==>
        alive && !admitted && View() == old(View()) && gateway.objects == old(gateway.objects) &&
        gateway.floating == old(gateway.floating)
      ensures alive ==> Agrees()
      ensures !alive ==> record == old(record) && storageVersion == old(storageVersion)
      ensures !alive && old(Restores(engine)) ==> engine == old(engine)
    {
      if |metadata| != 1 || "authorization_id" !in metadata {
        return true, false;
      }
      alive, admitted := AttemptJoin(gateway, userId, metadata["authorization_id"], session, now, fault);
    }

    method AttemptJoin(gateway: StorageGateway, userId: string, authorizationId: string, session: string,
                       now: int, fault: Fault) returns (alive: bool, admitted: bool)
      requires Agrees()
      modifies this, gateway
      ensures var effect := OnJoin(config, old(View()), old(gateway.objects), old(gateway.floating), userId,
                                   authorizationId, session, now, fault);
        && gateway.objects == effect.store && gateway.floating == effect.floating
        && alive == effect.instance.Some? && (alive ==> View() == effect.instance.value)
        && admitted == (alive && !Join(config, old(engine), userId, authorizationId, now).1.JoinRejected?)
      ensures var (after, outcome) := Join(config, old(engine), userId, authorizationId, now);
        && (alive <==> (outcome.JoinAccepted? ==> fault.Reliable? && Stored(old(gateway.objects), old(record))))
        && (alive ==>
              engine == after &&
              pendingJoinEvents ==
                if outcome.JoinAccepted? then old(pendingJoinEvents)[session := outcome.event] else old(pendingJoinEvents))
        && (alive && outcome.JoinAccepted? ==> Stored(gateway.objects, record))
      ensures alive ==> Agrees()
      ensures !alive ==> record == old(record) && storageVersion == old(storageVersion)
      ensures !alive && old(Restores(engine)) ==> engine == old(engine)
    {
      JoinWaits(config, View(), gateway.objects, gateway.floating, userId, authorizationId, session, now, fault);
      var before := engine;
      var result := Join(config, engine, userId, authorizationId, now);
      engine := result.0;
      match result.1 {
        case JoinRejected(_) =>
          return true, false;
        case JoinReplayed =>
          return true, true;
        case JoinAccepted(event) =>
          var ok := PersistMutation(gateway, before, fault);
          if !ok {
            return false, false;
          }
          pendingJoinEvents := pendingJoinEvents[session := event];
          return true, true;
      }
    }

    /** MatchJoin: deliver the durable join events of these presences. */
    method MatchJoin(sessions: seq<string>) returns (sent: seq<Notice>)
      modifies this`pendingJoinEvents
      ensures (View(), sent) == AfterJoined(old(View()), sessions)
    {
      sent := [];
      for i := 0 to |sessions|
        invariant (View(), sent) == AfterJoined(old(View()), sessions[..i])
      {
        assert sessions[..i + 1][..i] == sessions[..i];
        ghost var effect := OnJoined(View(), map[], multiset{}, sessions[i]);
        assert AfterJoined(old(View()), sessions[..i + 1]) == (effect.instance.value, sent + effect.broadcast);
        assert sent + [] == sent;
        if sessions[i] in pendingJoinEvents {
          sent := sent + [ToAll(pendingJoinEvents[sessions[i]])];
          pendingJoinEvents := pendingJoinEvents - {sessions[i]};
        }
      }
      assert sessions[..|sessions|] == sessions;
    }

    /** One command message. */
    method PlayMessage(gateway: StorageGateway, m: Message) returns (alive: bool, sent: seq<Notice>)
      requires Agrees() && m.command.Some?
      modifies this`engine, this`record, this`storageVersion, gateway
      ensures var effect := OnCommand(config, old(View()), old(gateway.objects), old(gateway.floating), m.userId,
                                      m.command.value, m.now, m.fault);
        && gateway.objects == effect.store && gateway.floating == effect.floating && sent == effect.broadcast
        && alive == effect.instance.Some? && (alive ==> View() == effect.instance.value)
      ensures var (after, outcome) := ApplyCommand(config, old(engine), m.userId, m.command.value, m.now);
        && (alive <==> (outcome.CommandAccepted? ==> m.fault.Reliable? && Stored(old(gateway.objects), old(record))))
        && (alive ==> engine == after && sent == Answer(outcome))
        && (alive && outcome.CommandAccepted? ==> sent == [ToAll(outcome.event)])
        && (outcome.CommandReplayed? ==> sent == [ToSender(outcome.event)])
        && (outcome.CommandRejected? ==> sent == [])
        && (alive && outcome.CommandAccepted? ==> Stored(gateway.objects, record))
      ensures alive ==> Agrees()
      ensures !alive ==> record == old(record) && storageVersion == old(storageVersion)
      ensures !alive && old(Restores(engine)) ==> engine == old(engine)
    {
      CommandIsTold(config, View(), gateway.objects, gateway.floating, m.userId, m.command.value, m.now, m.fault);
      var before := engine;
      var after, outcome := RunCommand(config, engine, m.userId, m.command.value, m.now);
      engine := after;
      match outcome {
        case CommandRejected(_) =>
          return true, [];
        case CommandReplayed(event) =>
          return true, [ToSender(event)];
        case CommandAccepted(event) =>
          var ok := PersistMutation(gateway, before, m.fault);
          if !ok {
            return false, [];
          }
          return true, [ToAll(event)];
      }
    }

    /** The messages of one tick, in order, until one of them ends the instance. */
    method PlayMessages(gateway: StorageGateway, messages: seq<Message>) returns (alive: bool, sent: seq<Notice>)
      requires Agrees()
      modifies this`engine, this`record, this`storageVersion, gateway
      ensures var effect := AfterMessages(config, old(View()), old(gateway.objects), old(gateway.floating), messages);
        && gateway.objects == effect.store && gateway.floating == effect.floating && sent == effect.broadcast
        && alive == effect.instance.Some? && (alive ==> View() == effect.instance.value)
      ensures alive ==> Agrees()
    {
      sent := [];
      for i := 0 to |messages|
        invariant Agrees()
        invariant AfterMessages(config, old(View()), old(gateway.objects), old(gateway.floating), messages[..i])
                    == Effect(Some(View()), gateway.objects, gateway.floating, sent, None, None)
      {
        assert messages[..i + 1][..i] == messages[..i];
        if Playable(messages[i]) {
          var more: seq<Notice>;
          alive, more := PlayMessage(gateway, messages[i]);
          sent := sent + more;
          if !alive {
            StoppedStaysStopped(config, old(View()), old(gateway.objects), old(gateway.floating), messages, i + 1);
            return;
          }
        }
      }
      assert messages[..|messages|] == messages;
      alive := true;
    }

    /** MatchLoop: a completed or expired instance stops before any message. It lives
        on exactly if every command that its engine accepts is stored; then everybody
        was sent exactly the events that the engine gained. */
    method MatchLoop(gateway: StorageGateway, messages: seq<Message>, tick: int, tickRate: int)
      returns (alive: bool, sent: seq<Notice>)
      requires Agrees()
      modifies this`engine, this`record, this`storageVersion, gateway
      ensures
        if old(engine).completion.Some? || GenerationExpired(tick, tickRate) then
          !alive && sent == [] && View() == old(View()) && gateway.objects == old(gateway.objects) &&
          gateway.floating == old(gateway.floating)
        else
          var effect := AfterMessages(config, old(View()), old(gateway.objects), old(gateway.floating), messages);
          && gateway.objects == effect.store && gateway.floating == effect.floating && sent == effect.broadcast
          && alive == effect.instance.Some? && (alive ==> View() == effect.instance.value)
      ensures alive ==> Agrees()
      ensures alive <==>
        old(engine).completion.None? && !GenerationExpired(tick, tickRate) &&
        AllReach(config, old(engine), messages, Stored(old(gateway.objects), old(record)))
      ensures alive ==> engine == Applied(config, old(engine), messages) && sent == Answers(config, old(engine), messages)
      ensures alive ==> old(engine).events <= engine.events && ToEverybody(sent) == engine.events[|old(engine).events|..]
      ensures alive && engine != old(engine) ==> Stored(gateway.objects, record)
    {
      LoopTells(config, View(), gateway.objects, gateway.floating, messages);
      AnswersAreNews(config, engine, messages);
      if engine.completion.Some? || GenerationExpired(tick, tickRate) {
        return false, [];
      }
      alive, sent := PlayMessages(gateway, messages);
    }

    /** MatchSignal "complete" after its authorization: completeAndTerminate. */
    method Complete(gateway: StorageGateway, logicalId: string, generation: nat, facts: TerminalFacts, now: int,
                    fault: Fault) returns (alive: bool, announced: Option<Completion>, reply: Option<Evidence>)
      requires Agrees()
      modifies this`engine, this`record, this`storageVersion, gateway
      ensures var effect := OnSignal(config, old(View()), old(gateway.objects), old(gateway.floating), logicalId,
                                     generation, facts, now, fault);
        && gateway.objects == effect.store && gateway.floating == effect.floating
        && announced == effect.announced && reply == effect.reply
        && alive == effect.instance.Some? && (alive ==> View() == effect.instance.value)
      ensures
        var (after, outcome) := MatchEngine.Complete(config, old(engine), facts, now);
        var answered := outcome.CompletionAnswer? &&
          logicalId == this.logicalId == old(record).logicalId == old(engine).matchId &&
          0 < generation == this.generation == old(record).generation;
        var isNew := old(engine).completion.None?;
        && (alive <==> (answered && isNew ==> fault.Reliable? && Stored(old(gateway.objects), old(record))))
        && (alive ==> engine == if answered then after else old(engine))
        && (reply.Some? <==> answered && alive)
        && (reply.Some? ==> engine.completion == Some(reply.value.completion) && (isNew ==> Stored(gateway.objects, record)))
        && announced == if reply.Some? && isNew then Some(reply.value.completion) else None
      ensures alive ==> Agrees()
      ensures !alive ==> record == old(record) && storageVersion == old(storageVersion)
      ensures !alive && old(Restores(engine)) ==> engine == old(engine)
    {
      CompletionIsTold(config, View(), gateway.objects, gateway.floating, logicalId, generation, facts, now, fault);
      if generation == 0 || logicalId != this.logicalId || logicalId != record.logicalId ||
         logicalId != engine.matchId || generation != this.generation || generation != record.generation {
        return true, None, None;
      }
      var before, alreadyCompleted := engine, engine.completion;
      var result := MatchEngine.Complete(config, engine, facts, now);
      engine := result.0;
      match result.1 {
        case CompletionRejected(_) =>
          return true, None, None;
        case CompletionAnswer(completion) =>
          if alreadyCompleted.Some? {
            return true, None, Some(EvidenceOf(record, alreadyCompleted.value));
          }
          var ok := PersistMutation(gateway, before, fault);
          if !ok {
            return false, None, None;
          }
          return true, Some(completion), Some(EvidenceOf(record, completion));
      }
    }
  }

  /** Nothing happens after the message that stopped the instance. */
  lemma {:induction false} StoppedStaysStopped(cfg: Config, inst: Instance, store: Store, floating: multiset<Write>,
                                               messages: seq<Message>, i: nat)
    requires i <= |messages| && AfterMessages(cfg, inst, store, floating, messages[..i]).instance.None?
    ensures AfterMessages(cfg, inst, store, floating, messages) == AfterMessages(cfg, inst, store, floating, messages[..i])
    decreases |messages| - i
  {
    if i < |messages| {
      assert messages[..i + 1][..i] == messages[..i];
      StoppedStaysStopped(cfg, inst, store, floating, messages, i + 1);
    } else {
      assert messages[..i] == messages;
    }
  }

  /** MatchInit: load, check the generation, and bind this runtime to the record. */
  method MatchInit(config: Config, gateway: StorageGateway, logicalId: string, generation: nat, externalId: string,
                   fault: Fault) returns (state: MatchState?)
    modifies gateway
    ensures
      var loads := logicalId in old(gateway.objects) && generation != 0 && externalId != "" &&
        old(gateway.objects)[logicalId].logicalId == logicalId &&
        old(gateway.objects)[logicalId].generation == generation &&
        Restorable(config, old(gateway.objects)[logicalId].snapshot) &&
        old(gateway.objects)[logicalId].snapshot.matchId == logicalId &&
        old(gateway.objects)[logicalId].snapshot.completion.None?;
      if !loads then state == null && gateway.objects == old(gateway.objects) && gateway.floating == old(gateway.floating)
      else
        var record := old(gateway.objects)[logicalId].(externalId := externalId);
        var w := Write(record, MustMatch(Digest(old(gateway.objects)[logicalId])));
        var (store, floating, ack) := Perform(old(gateway.objects), old(gateway.floating), w, fault);
        && gateway.objects == store && gateway.floating == floating && (state != null <==> ack.Acked?)
        && (state != null ==>
              fresh(state) && state.config == config && state.Agrees() && state.Restores(state.engine) &&
              state.View() == Instance(record.snapshot, record, Digest(record), logicalId, generation, map[], false, false))
  {
    state := null;
    if generation == 0 || logicalId !in gateway.objects || gateway.objects[logicalId].logicalId != logicalId {
      return;
    }
    var stored := gateway.objects[logicalId];
    if stored.generation != generation {
      return;
    }
    var restorable := ValidateRestoredState(config, stored.snapshot);
    if !restorable || stored.snapshot.matchId != logicalId || stored.snapshot.completion.Some? || externalId == "" {
      return;
    }
    var record := stored.(externalId := externalId);
    var ack := gateway.StorageWrite(Write(record, MustMatch(Digest(stored))), fault);
    if ack.Acked? {
      state := new MatchState(config, record, ack.version);
    }
  }
}

/** What the clients of a match are sent, and when its instance survives, stated
    over the engine and the messages (runtime/nakama_match.go). */
module MatchDelivery {
  import opened Common
  import opened Contract
  import opened MatchEngine
  import opened EngineProgress
  import opened StoredMatch
  import opened MatchCallbacks

  /** The events that went to everybody, in order. */
  function ToEverybody(sent: seq<Notice>): (events: seq<Event>)
    ensures |events| <= |sent|
  {
    if sent == [] then []
    else
      var last := sent[|sent| - 1];
      ToEverybody(sent[..|sent| - 1]) + (if last.ToAll? then [last.event] else [])
  }

  /** The durable record of the match is this one. */
  predicate Stored(store: Store, record: Record)
  {
    record.logicalId in store && store[record.logicalId] == record
  }

  /** The events that `f` has beyond those of `e`. */
  function Beyond(e: Engine, f: Engine): seq<Event>
  {
    if e.events <= f.events then f.events[|e.events|..] else []
  }

  lemma {:induction false} TwoRounds(a: seq<Notice>, b: seq<Notice>)
    ensures ToEverybody(a + b) == ToEverybody(a) + ToEverybody(b)
    decreases |b|
  {
    if b == [] {
      assert a + b == a;
    } else {
      TwoRounds(a, b[..|b| - 1]);
      assert (a + b)[..|a + b| - 1] == a + b[..|b| - 1];
    }
  }

  lemma OneNotice(notice: Notice)
    ensures ToEverybody([notice]) == if notice.ToAll? then [notice.event] else []
  {
    assert [notice][..0] == [];
  }

  lemma BeyondTwice(e: Engine, f: Engine, g: Engine)
    requires e.events <= f.events <= g.events
    ensures e.events <= g.events && Beyond(e, g) == Beyond(e, f) + Beyond(f, g)
  {
  }

  /** Everybody was sent exactly what `f` has beyond `e`. */
  predicate Tells(e: Engine, f: Engine, sent: seq<Notice>)
  {
    e.events <= f.events && ToEverybody(sent) == f.events[|e.events|..]
  }

  lemma TellsNothing(e: Engine)
    ensures Tells(e, e, [])
  {
  }

  lemma TellsTwice(e: Engine, f: Engine, g: Engine, sent: seq<Notice>, more: seq<Notice>)
    requires Tells(e, f, sent) && Tells(f, g, more)
    ensures Tells(e, g, sent + more)
  {
    TwoRounds(sent, more);
    BeyondTwice(e, f, g);
  }

  lemma BeyondOne(e: Engine, f: Engine, event: Event)
    requires f.events == e.events + [event]
    ensures e.events <= f.events && Beyond(e, f) == [event]
  {
  }

  // ---------------------------------------------------------------- one command

  /** What an accepted, a replayed and a refused command are answered with. */
  function Answer(outcome: CommandOutcome): seq<Notice>
  {
    match outcome
    case CommandAccepted(event) => [ToAll(event)]
    case CommandReplayed(event) => [ToSender(event)]
    case CommandRejected(_) => []
  }

  lemma {:induction false} AppliedEvents(cfg: Config, e: Engine, userId: string, c: Command, now: int)
    ensures var (after, outcome) := ApplyCommand(cfg, e, userId, c, now);
      && e.events <= after.events && Beyond(e, after) == ToEverybody(Answer(outcome))
      && (outcome.CommandAccepted? ==> after.events == e.events + [outcome.event])
      && (!outcome.CommandAccepted? ==> after == e)
  {
    var (after, outcome) := ApplyCommand(cfg, e, userId, c, now);
    if outcome.CommandAccepted? {
      var index := CommandAccepts(cfg, e, userId, c, now);
      BeyondOne(e, after, outcome.event);
      OneNotice(ToAll(outcome.event));
    } else if outcome.CommandReplayed? {
      OneNotice(ToSender(outcome.event));
    }
  }

  predicate Acknowledged(inst: Instance, store: Store, fault: Fault)
  {
    fault.Reliable? && Stored(store, inst.record)
  }

  lemma PersistIsExact(inst: Instance, after: Engine, store: Store, floating: multiset<Write>, fault: Fault)
    requires inst.version == Digest(inst.record)
    ensures var (next, store', floating') := Persist(inst, after, store, floating, fault);
      && (next.Some? <==> Acknowledged(inst, store, fault))
      && (next.Some? ==>
            next.value.engine == after && next.value.record == inst.record.(snapshot := after) &&
            store' == store[inst.record.logicalId := next.value.record] && Stored(store', next.value.record))
  {
  }

  /** A command ends the instance exactly when it was accepted and its write was not
      acknowledged. Otherwise the engine is the one after the command, durable if it
      is new, and the answer is sent. */
  lemma {:induction false} CommandIsTold(cfg: Config, inst: Instance, store: Store, floating: multiset<Write>, userId: string,
                                         c: Command, now: int, fault: Fault)
    requires inst.version == Digest(inst.record) && inst.engine == inst.record.snapshot
    ensures var (after, outcome) := ApplyCommand(cfg, inst.engine, userId, c, now);
      var effect := OnCommand(cfg, inst, store, floating, userId, c, now, fault);
      && (effect.instance.Some? <==> (outcome.CommandAccepted? ==> Acknowledged(inst, store, fault)))
      && (effect.instance.Some? ==>
            effect.instance.value.engine == after && effect.broadcast == Answer(outcome) &&
            effect.store == (if outcome.CommandAccepted? then store[inst.record.logicalId := effect.instance.value.record] else store))
      && (effect.instance.None? ==> effect.broadcast == [])
  {
    var after := ApplyCommand(cfg, inst.engine, userId, c, now).0;
    AppliedEvents(cfg, inst.engine, userId, c, now);
    PersistIsExact(inst, after, store, floating, fault);
  }

  /** A surviving instance still agrees with its record, and holds the durable one
      just if it did before; a changed engine is always durable. */
  lemma {:induction false} CommandKeepsDurable(cfg: Config, inst: Instance, store: Store, floating: multiset<Write>, userId: string,
                                               c: Command, now: int, fault: Fault)
    requires inst.version == Digest(inst.record) && inst.engine == inst.record.snapshot
    ensures var effect := OnCommand(cfg, inst, store, floating, userId, c, now, fault);
      effect.instance.Some? ==>
        var next := effect.instance.value;
        && next.version == Digest(next.record) && next.engine == next.record.snapshot
        && (Stored(effect.store, next.record) <==> Stored(store, inst.record))
        && (next.engine != inst.engine ==> Stored(effect.store, next.record))
  {
    var after := ApplyCommand(cfg, inst.engine, userId, c, now).0;
    AppliedEvents(cfg, inst.engine, userId, c, now);
    PersistIsExact(inst, after, store, floating, fault);
  }

  /** A surviving target instance sent to everybody what its record gained. */
  lemma {:induction false} CommitIsTold(inst: Instance, after: Engine, event: Event, store: Store, floating: multiset<Write>,
                                        fault: Fault)
    requires after.events == inst.record.snapshot.events + [event]
    ensures TellsGrowth(inst, TargetCommit(inst, after, event, store, floating, fault))
  {
    OneNotice(ToAll(event));
    BeyondOne(inst.record.snapshot, after, event);
  }

  predicate TellsGrowth(inst: Instance, effect: Effect)
  {
    effect.instance.Some? ==>
      var before, after := inst.record.snapshot, effect.instance.value.record.snapshot;
      before.events <= after.events && ToEverybody(effect.broadcast) == Beyond(before, after)
  }

  /** A callback that leaves the record and answers at most the sender. */
  lemma QuietIsTold(inst: Instance, effect: Effect)
    requires effect.instance.Some? ==> effect.instance.value.record == inst.record
    requires forall k :: 0 <= k < |effect.broadcast| ==> effect.broadcast[k].ToSender?
    ensures TellsGrowth(inst, effect)
  {
    NobodyElse(effect.broadcast);
  }

  lemma {:induction false} NobodyElse(sent: seq<Notice>)
    requires forall k :: 0 <= k < |sent| ==> sent[k].ToSender?
    ensures ToEverybody(sent) == []
  {
    if sent != [] {
      NobodyElse(sent[..|sent| - 1]);
    }
  }

  lemma {:induction false} FreshIsTold(cfg: Config, inst: Instance, store: Store, floating: multiset<Write>, userId: string,
                                       c: Command, answer: WorldAnswer, fault: Fault)
    requires !inst.wedged ==> inst.engine == inst.record.snapshot
    ensures TellsGrowth(inst, FreshTarget(cfg, inst, store, floating, userId, c, answer, fault))
  {
    if !inst.wedged && answer.WorldAccepts? && ApplyCommand(cfg, inst.engine, userId, c, answer.at).1.CommandAccepted? {
      var (after, applied) := ApplyCommand(cfg, inst.engine, userId, c, answer.at);
      AppliedEvents(cfg, inst.engine, userId, c, answer.at);
      CommitIsTold(inst, after, applied.event, store, floating, if answer.admitted then fault else Dropped);
    } else {
      QuietIsTold(inst, FreshTarget(cfg, inst, store, floating, userId, c, answer, fault));
    }
  }

  lemma {:induction false} TargetIsTold(cfg: Config, inst: Instance, store: Store, floating: multiset<Write>, userId: string,
                                        c: Command, now: int, known: bool, answer: WorldAnswer, fault: Fault)
    requires !inst.wedged ==> inst.engine == inst.record.snapshot
    ensures TellsGrowth(inst, OnTargetCommand(cfg, inst, store, floating, userId, c, now, known, answer, fault))
  {
    if Preflight(cfg, inst.engine, userId, c, now).PreflightFresh? {
      FreshIsTold(cfg, inst, store, floating, userId, c, answer, fault);
    } else {
      QuietIsTold(inst, OnTargetCommand(cfg, inst, store, floating, userId, c, now, known, answer, fault));
    }
  }

  // ------------------------------------------------------------------- one join

  /** A join ends the instance exactly when it was accepted and its write was not
      acknowledged. Otherwise the engine is the one after the join, durable if it is
      new, and its event waits for the session. */
  lemma {:induction false} JoinWaits(cfg: Config, inst: Instance, store: Store, floating: multiset<Write>, userId: string,
                                     authorizationId: string, session: string, now: int, fault: Fault)
    requires inst.version == Digest(inst.record) && inst.engine == inst.record.snapshot
    ensures var (after, outcome) := Join(cfg, inst.engine, userId, authorizationId, now);
      var effect := OnJoin(cfg, inst, store, floating, userId, authorizationId, session, now, fault);
      && (effect.instance.Some? <==> (outcome.JoinAccepted? ==> Acknowledged(inst, store, fault)))
      && (effect.instance.Some? ==>
            effect.instance.value.engine == after &&
            effect.store == (if outcome.JoinAccepted? then store[inst.record.logicalId := effect.instance.value.record] else store) &&
            effect.instance.value.pending == if outcome.JoinAccepted? then inst.pending[session := outcome.event] else inst.pending)
  {
    var after := Join(cfg, inst.engine, userId, authorizationId, now).0;
    PersistIsExact(inst, after, store, floating, fault);
  }

  // ------------------------------------------------------------- one completion

  /** A bound completion signal is answered with the durable completion; it ends the
      instance exactly when the completion is new and its write was not acknowledged. */
  lemma {:induction false} CompletionIsTold(cfg: Config, inst: Instance, store: Store, floating: multiset<Write>,
                                            logicalId: string, generation: nat, facts: TerminalFacts, now: int, fault: Fault)
    requires inst.version == Digest(inst.record) && inst.engine == inst.record.snapshot
    ensures var (after, outcome) := Complete(cfg, inst.engine, facts, now);
      var effect := OnSignal(cfg, inst, store, floating, logicalId, generation, facts, now, fault);
      var isNew := inst.engine.completion.None?;
      var answered := Bound(inst, logicalId, generation) && outcome.CompletionAnswer?;
      && (effect.instance.Some? <==> (answered && isNew ==> Acknowledged(inst, store, fault)))
      && (effect.instance.Some? ==>
            effect.instance.value.engine == (if answered then after else inst.engine) &&
            effect.store == (if answered && isNew then store[inst.record.logicalId := effect.instance.value.record] else store))
      && (effect.reply.Some? <==> answered && effect.instance.Some?)
      && (effect.reply.Some? ==> effect.instance.value.engine.completion == Some(effect.reply.value.completion))
      && effect.announced == if effect.reply.Some? && isNew then Some(effect.reply.value.completion) else None
  {
    var after := Complete(cfg, inst.engine, facts, now).0;
    PersistIsExact(inst, after, store, floating, fault);
  }
}

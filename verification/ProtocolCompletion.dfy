/** What the complete call of an operator returns (runtime/nakama_rpc.go): over a
    current instance that is not disturbed, the completion that it made durable. */
module ProtocolCompletion {
  import opened Common
  import opened Contract
  import opened MatchEngine
  import opened EngineProgress
  import opened StoredMatch
  import opened RecordOrder
  import opened MatchCallbacks
  import opened MatchDelivery
  import opened Protocol
  import opened ProtocolInvariant
  import opened ProtocolTheorems
  import opened ProtocolRecovery

  /** The steps of one complete call whose storage calls are all acknowledged. */
  function CompleteCall(rpc: nat, id: string, facts: TerminalFacts, now: int): seq<Step>
  {
    [CompleteLoad(rpc, id, facts), CompleteSignal(rpc, now, Reliable), CompleteCheck(rpc)]
  }

  /** The durable record is active under a current instance, and this completion of it
      would be accepted now. */
  ghost predicate Completable(c: Cluster, s: System, rpc: nat, id: string, facts: TerminalFacts, now: int)
  {
    && Loads(c, s, id) && rpc !in s.rpcs && s.store[id].snapshot.completion.None?
    && s.store[id].logicalId == id && s.store[id].externalId != "" && 0 < s.store[id].generation
    && IsLive(s, s.store[id].externalId)
    && Serves(s.matches[s.store[id].externalId].instance, s.store[id])
    && Complete(c.config, s.store[id].snapshot, facts, now).1.CompletionAnswer?
  }

  /** The instance serves this durable record. */
  predicate Serves(inst: Instance, record: Record)
  {
    && !inst.wedged && inst.record == record && inst.version == Digest(record) && inst.engine == record.snapshot
    && inst.logicalId == record.logicalId && inst.generation == record.generation
  }

  lemma {:induction false} CallLoads(c: Cluster, s: System, rpc: nat, id: string, facts: TerminalFacts, now: int)
    requires Completable(c, s, rpc, id, facts, now)
    ensures Do(c, s, CompleteLoad(rpc, id, facts)) == s.(rpcs := s.rpcs[rpc := CompleteRead(s.store[id], facts)])
  {
  }

  /** The new completion verifies, and is about these facts and the whole log. */
  lemma NewCompletion(cfg: Config, e: Engine, facts: TerminalFacts, now: int)
    requires e.completion.None? && Complete(cfg, e, facts, now).1.CompletionAnswer?
    ensures var (after, outcome) := Complete(cfg, e, facts, now);
      && after.completion == Some(outcome.completion) && CompletionVerified(cfg, outcome.completion)
      && outcome.completion.body.facts == facts && outcome.completion.body.archive == after.events && e.events <= after.events
      && after.matchId == e.matchId && cfg.terminalFactsValid(facts)
  {
  }

  lemma {:induction false} SignalEffect(cfg: Config, inst: Instance, record: Record, store: Store, floating: multiset<Write>,
                                        facts: TerminalFacts, now: int)
    requires Serves(inst, record) && Stored(store, record) && 0 < record.generation
    requires record.snapshot.matchId == record.logicalId && record.snapshot.completion.None?
    requires Complete(cfg, record.snapshot, facts, now).1.CompletionAnswer?
    ensures var (after, outcome) := Complete(cfg, record.snapshot, facts, now);
      var effect := OnSignal(cfg, inst, store, floating, record.logicalId, record.generation, facts, now, Reliable);
      && effect.instance.Some? && effect.store == store[record.logicalId := record.(snapshot := after)]
      && effect.announced == Some(outcome.completion)
      && effect.reply == Some(EvidenceOf(record.(snapshot := after), outcome.completion))
  {
    PersistIsExact(inst, Complete(cfg, record.snapshot, facts, now).0, store, floating, Reliable);
  }

  lemma {:induction false} CallSignals(c: Cluster, s: System, one: System, rpc: nat, id: string, record: Record,
                                       facts: TerminalFacts, now: int)
    requires Completable(c, s, rpc, id, facts, now) && record == s.store[id]
    requires one == s.(rpcs := s.rpcs[rpc := CompleteRead(record, facts)])
    ensures var (after, outcome) := Complete(c.config, record.snapshot, facts, now);
      var two := Do(c, one, CompleteSignal(rpc, now, Reliable));
      && two.store == s.store[id := record.(snapshot := after)] && (id, Announced(outcome.completion)) in two.answers
      && rpc in two.rpcs
      && two.rpcs[rpc] == CompleteReplied(record, facts, EvidenceOf(record.(snapshot := after), outcome.completion))
  {
    SignalEffect(c.config, s.matches[record.externalId].instance, record, s.store, s.floating, facts, now);
  }

  lemma {:induction false} CallChecks(c: Cluster, two: System, rpc: nat, id: string, record: Record, after: Engine,
                                      completion: Completion, facts: TerminalFacts)
    requires Loads(c, two, id) && two.store[id] == record.(snapshot := after) && record.logicalId == id
    requires rpc in two.rpcs && two.rpcs[rpc] == CompleteReplied(record, facts, EvidenceOf(record.(snapshot := after), completion))
    requires record.snapshot.completion.None? && after.completion == Some(completion)
    requires CompletionVerified(c.config, completion) && completion.body.facts == facts && c.config.terminalFactsValid(facts)
    ensures var three := Do(c, two, CompleteCheck(rpc));
      three.store == two.store && three.answers == two.answers + {(id, Returned(completion))}
  {
    assert record != two.store[id];
  }

  /** In every reachable state, a complete call on a match that a current instance
      serves, when nothing comes between, makes the completion durable, has it
      announced, and returns it. */
  lemma {:induction false} CompletionIsReturned(c: Cluster, steps: seq<Step>, rpc: nat, id: string, facts: TerminalFacts, now: int)
    requires Genuine(c) && id in Run(c, Empty, steps).store && rpc !in Run(c, Empty, steps).rpcs
    requires var s := Run(c, Empty, steps);
      && Current(s, s.store[id].externalId) && s.matches[s.store[id].externalId].instance.logicalId == id
      && !s.matches[s.store[id].externalId].instance.wedged
      && s.store[id].snapshot.completion.None? && Complete(c.config, s.store[id].snapshot, facts, now).1.CompletionAnswer?
    ensures var s := Run(c, Empty, steps);
      var t := Run(c, s, CompleteCall(rpc, id, facts, now));
      && id in t.store && t.store[id].snapshot.completion.Some?
      && (id, Returned(t.store[id].snapshot.completion.value)) in t.answers
      && (id, Announced(t.store[id].snapshot.completion.value)) in t.answers
      && t.store[id].snapshot.completion.value.body.facts == facts
      && s.store[id].snapshot.events <= t.store[id].snapshot.completion.value.body.archive
  {
    var s := Run(c, Empty, steps);
    var load, signal, check := CompleteLoad(rpc, id, facts), CompleteSignal(rpc, now, Reliable), CompleteCheck(rpc);
    ServedIsCompletable(c, steps, rpc, id, facts, now);
    var record := s.store[id];
    var one := s.(rpcs := s.rpcs[rpc := CompleteRead(record, facts)]);
    CallLoads(c, s, rpc, id, facts, now);
    CallSignals(c, s, one, rpc, id, record, facts, now);
    var two := Do(c, one, signal);
    ThreeSteps(c, s, load, signal, check);
    RunAppends(c, Empty, steps, [load, signal]);
    TwoSteps(c, s, load, signal);
    EveryDurableRecordLoads(c, steps + [load, signal], id);
    var (after, outcome) := Complete(c.config, record.snapshot, facts, now);
    NewCompletion(c.config, record.snapshot, facts, now);
    CallChecks(c, two, rpc, id, record, after, outcome.completion, facts);
  }

  lemma {:induction false} ServedIsCompletable(c: Cluster, steps: seq<Step>, rpc: nat, id: string, facts: TerminalFacts, now: int)
    requires Genuine(c) && id in Run(c, Empty, steps).store && rpc !in Run(c, Empty, steps).rpcs
    requires var s := Run(c, Empty, steps);
      && Current(s, s.store[id].externalId) && s.matches[s.store[id].externalId].instance.logicalId == id
      && !s.matches[s.store[id].externalId].instance.wedged
      && s.store[id].snapshot.completion.None? && Complete(c.config, s.store[id].snapshot, facts, now).1.CompletionAnswer?
    ensures Completable(c, Run(c, Empty, steps), rpc, id, facts, now)
  {
    var s := Run(c, Empty, steps);
    RunKeeps(c, steps);
    EveryDurableRecordLoads(c, steps, id);
    var x := s.store[id].externalId;
    assert MatchOk(s.store, x, s.matches[x]);
    assert RecordOk(s.store[id]);
  }

  lemma {:induction false} TwoSteps(c: Cluster, s: System, a: Step, b: Step)
    ensures Run(c, s, [a, b]) == Do(c, Do(c, s, a), b)
  {
    RunSplit(c, s, [], a);
    RunSplit(c, s, [a], b);
    assert [a, b] == [a] + [b] && [] + [a] == [a];
  }

  lemma {:induction false} ThreeSteps(c: Cluster, s: System, a: Step, b: Step, d: Step)
    ensures Run(c, s, [a, b, d]) == Do(c, Do(c, Do(c, s, a), b), d)
  {
    TwoSteps(c, s, a, b);
    RunSplit(c, s, [a, b], d);
    assert [a, b, d] == [a, b] + [d];
  }
}

/** Every durable snapshot follows from the one it replaced: committed writes
    form one chain of engine operations per match, whatever interleaves. */
module ProtocolChain {
  import opened Common
  import opened Contract
  import opened MatchEngine
  import opened EngineProgress
  import opened StoredMatch
  import opened RecordOrder
  import opened MatchCallbacks
  import opened Protocol
  import opened ProtocolInvariant
  import opened ProtocolProofs
  import opened ProtocolTheorems

  /** `f` is `e`, or `e` after exactly one accepted join, command or completion. */
  ghost predicate Linked(cfg: Config, e: Engine, f: Engine)
  {
    e == f || OneStep(cfg, e, f)
  }

  ghost predicate Fresh(cfg: Config, e: Engine)
  {
    exists a, b, now :: NewMatch(cfg, a, b, now) == Some(e)
  }

  ghost predicate WriteLinked(cfg: Config, w: Write)
  {
    match w.expectation
    case MustBeAbsent => Fresh(cfg, w.record.snapshot)
    case MustMatch(version) =>
      version.record.logicalId == w.record.logicalId && Linked(cfg, version.record.snapshot, w.record.snapshot)
  }

  ghost predicate FloatingLinked(cfg: Config, s: System)
  {
    forall w :: w in s.floating ==> WriteLinked(cfg, w)
  }

  /** Each record of `t` continues its value in `s`, or is newly created. */
  ghost predicate StoreLinked(cfg: Config, s: Store, t: Store)
  {
    forall id :: id in t ==>
      if id in s then Linked(cfg, s[id].snapshot, t[id].snapshot) else Fresh(cfg, t[id].snapshot)
  }

  /** The step from `s` to `s'` performs or issues at most the write `w`. */
  predicate Writes(s: System, s': System, w: Write)
  {
    && (s'.store == s.store || s'.store == Commit(s.store, w))
    && s'.floating <= s.floating + multiset{w}
  }

  lemma LinkedWrite(cfg: Config, s: System, s': System, w: Write)
    requires FloatingLinked(cfg, s) && WriteLinked(cfg, w) && Writes(s, s', w)
    ensures StepLinked(cfg, s, s')
  {
    forall f | f in s'.floating ensures WriteLinked(cfg, f) {
      assert f in s.floating + multiset{w};
    }
  }

  lemma IdentityLinked(cfg: Config, r: Record)
    ensures WriteLinked(cfg, Write(r, MustMatch(Digest(r))))
  {
  }

  lemma AdvanceLinked(cfg: Config, inst: Instance, input: Input)
    requires inst.version == Digest(inst.record) && inst.engine == inst.record.snapshot
    requires Advance(cfg, inst.engine, input).Some?
    ensures WriteLinked(cfg, MutationWrite(inst, Advance(cfg, inst.engine, input).value))
  {
  }

  // ------------------------------------------------------- the write of a step

  lemma CreateLinks(cfg: Config, s: System, rpc: nat, a: Authorization, b: Authorization, now: int, fault: Fault)
    requires FloatingLinked(cfg, s)
    ensures var s' := DoCreate(cfg, s, rpc, a, b, now, fault);
      StepLinked(cfg, s, s')
  {
    var s' := DoCreate(cfg, s, rpc, a, b, now, fault);
    var made := NewMatch(cfg, a, b, now);
    if made.Some? && rpc !in s.rpcs {
      LinkedWrite(cfg, s, s', Write(Record(made.value.matchId, made.value, "", 1), MustBeAbsent));
    }
  }

  lemma FencingLinks(cfg: Config, s: System, s': System, w: Write)
    requires FloatingLinked(cfg, s) && Writes(s, s', w) && w.expectation.MustMatch?
    requires w.expectation.version.record.logicalId == w.record.logicalId
    requires w.expectation.version.record.snapshot == w.record.snapshot
    ensures StepLinked(cfg, s, s')
  {
    LinkedWrite(cfg, s, s', w);
  }

  predicate EffectWrites(store: Store, floating: multiset<Write>, effect: Effect, w: Write)
  {
    (effect.store == store || effect.store == Commit(store, w)) && effect.floating <= floating + multiset{w}
  }

  /** The step performs and issues linked writes only. */
  ghost predicate StepLinked(cfg: Config, s: System, s': System)
  {
    FloatingLinked(cfg, s') && StoreLinked(cfg, s.store, s'.store)
  }

  lemma EffectLinks(cfg: Config, s: System, x: string, effect: Effect, w: Write)
    requires IsLive(s, x) && FloatingLinked(cfg, s) && WriteLinked(cfg, w)
    requires EffectWrites(s.store, s.floating, effect, w)
    ensures StepLinked(cfg, s, AfterCallback(s, x, effect))
  {
    LinkedWrite(cfg, s, AfterCallback(s, x, effect), w);
  }

  lemma PersistWrites(store: Store, floating: multiset<Write>, inst: Instance, after: Engine, fault: Fault)
    ensures var (_, store', floating') := Persist(inst, after, store, floating, fault);
      (store' == store || store' == Commit(store, MutationWrite(inst, after))) &&
      floating' <= floating + multiset{MutationWrite(inst, after)}
  {
  }

  /** A callback that persists the engine after one accepted operation. */
  lemma AcceptedLinks(cfg: Config, s: System, x: string, inst: Instance, input: Input, after: Engine, fault: Fault, effect: Effect)
    requires Inv(s) && FloatingLinked(cfg, s) && IsLive(s, x) && inst == s.matches[x].instance && !inst.wedged
    requires Advance(cfg, inst.engine, input) == Some(after)
    requires var (_, store', floating') := Persist(inst, after, s.store, s.floating, fault);
      effect.store == store' && effect.floating == floating'
    ensures StepLinked(cfg, s, AfterCallback(s, x, effect))
  {
    assert MatchOk(s.store, x, s.matches[x]);
    AdvanceLinked(cfg, inst, input);
    PersistWrites(s.store, s.floating, inst, after, fault);
    EffectLinks(cfg, s, x, effect, MutationWrite(inst, after));
  }

  lemma QuietLinks(cfg: Config, s: System, x: string, effect: Effect)
    requires FloatingLinked(cfg, s) && IsLive(s, x) && effect.store == s.store && effect.floating == s.floating
    ensures StepLinked(cfg, s, AfterCallback(s, x, effect))
  {
  }

  lemma JoinLinks(cfg: Config, s: System, x: string, userId: string, authorizationId: string, session: string,
                  now: int, fault: Fault)
    requires Inv(s) && FloatingLinked(cfg, s) && IsLive(s, x)
    ensures StepLinked(cfg, s, AfterCallback(s, x, OnJoin(cfg, s.matches[x].instance, s.store, s.floating,
                                                          userId, authorizationId, session, now, fault)))
  {
    var inst := s.matches[x].instance;
    assert MatchOk(s.store, x, s.matches[x]);
    var effect := OnJoin(cfg, inst, s.store, s.floating, userId, authorizationId, session, now, fault);
    var (after, outcome) := Join(cfg, inst.engine, userId, authorizationId, now);
    if inst.wedged {
      ActiveJoinIsStale(cfg, inst.engine, userId, authorizationId, now);
    }
    if outcome.JoinAccepted? {
      AcceptedLinks(cfg, s, x, inst, JoinInput(userId, authorizationId, now), after, fault, effect);
    } else {
      QuietLinks(cfg, s, x, effect);
    }
  }

  lemma CommandLinks(cfg: Config, s: System, x: string, userId: string, c: Command, now: int, fault: Fault)
    requires Inv(s) && FloatingLinked(cfg, s) && IsLive(s, x) && !s.matches[x].instance.target
    ensures StepLinked(cfg, s, AfterCallback(s, x, OnCommand(cfg, s.matches[x].instance, s.store, s.floating, userId, c, now, fault)))
  {
    var inst := s.matches[x].instance;
    assert MatchOk(s.store, x, s.matches[x]);
    var effect := OnCommand(cfg, inst, s.store, s.floating, userId, c, now, fault);
    var (after, outcome) := ApplyCommand(cfg, inst.engine, userId, c, now);
    if outcome.CommandAccepted? {
      AcceptedLinks(cfg, s, x, inst, CommandInput(userId, c, now), after, fault, effect);
    } else {
      QuietLinks(cfg, s, x, effect);
    }
  }

  ghost predicate TargetCommits(cfg: Config, inst: Instance, userId: string, c: Command, answer: WorldAnswer)
  {
    !inst.wedged && answer.WorldAccepts? && ApplyCommand(cfg, inst.engine, userId, c, answer.at).1.CommandAccepted?
  }

  /** A fresh target command writes an applied command or the value that is there. */
  lemma TargetEffectWrites(cfg: Config, store: Store, floating: multiset<Write>, inst: Instance, userId: string,
                           c: Command, answer: WorldAnswer, fault: Fault)
    requires inst.version == Digest(inst.record) && (inst.wedged || inst.engine == inst.record.snapshot)
    ensures var effect := FreshTarget(cfg, inst, store, floating, userId, c, answer, fault);
      if TargetCommits(cfg, inst, userId, c, answer)
      then EffectWrites(store, floating, effect,
                        MutationWrite(inst, ApplyCommand(cfg, inst.engine, userId, c, answer.at).0))
      else EffectWrites(store, floating, effect, Write(inst.record, MustMatch(Digest(inst.record))))
  {
    if TargetCommits(cfg, inst, userId, c, answer) {
      var (after, outcome) := ApplyCommand(cfg, inst.engine, userId, c, answer.at);
      CommitWrites(store, floating, inst, after, outcome.event, if answer.admitted then fault else Dropped);
    } else if !inst.wedged && answer.WorldRejects? {
      PerformWrites(store, floating, Write(inst.record, MustMatch(inst.version)), fault);
    }
  }

  lemma CommitWrites(store: Store, floating: multiset<Write>, inst: Instance, after: Engine, event: Event, fault: Fault)
    ensures EffectWrites(store, floating, TargetCommit(inst, after, event, store, floating, fault), MutationWrite(inst, after))
  {
    PersistWrites(store, floating, inst, after, fault);
  }

  lemma PerformWrites(store: Store, floating: multiset<Write>, w: Write, fault: Fault)
    ensures var (store', floating', _) := Perform(store, floating, w, fault);
      (store' == store || store' == Commit(store, w)) && floating' <= floating + multiset{w}
  {
  }

  lemma FreshTargetLinks(cfg: Config, s: System, x: string, userId: string, c: Command, answer: WorldAnswer, fault: Fault)
    requires Inv(s) && FloatingLinked(cfg, s) && IsLive(s, x)
    ensures var s' := AfterCallback(s, x, FreshTarget(cfg, s.matches[x].instance, s.store, s.floating,
                                                      userId, c, answer, fault));
      StepLinked(cfg, s, s')
  {
    var inst := s.matches[x].instance;
    assert MatchOk(s.store, x, s.matches[x]);
    TargetEffectWrites(cfg, s.store, s.floating, inst, userId, c, answer, fault);
    var effect := FreshTarget(cfg, inst, s.store, s.floating, userId, c, answer, fault);
    if TargetCommits(cfg, inst, userId, c, answer) {
      var input := CommandInput(userId, c, answer.at);
      AdvanceLinked(cfg, inst, input);
      EffectLinks(cfg, s, x, effect, MutationWrite(inst, Advance(cfg, inst.engine, input).value));
    } else {
      IdentityLinked(cfg, inst.record);
      EffectLinks(cfg, s, x, effect, Write(inst.record, MustMatch(Digest(inst.record))));
    }
  }

  /** A callback that rewrites at most the value that is there. */
  lemma StayingLinks(cfg: Config, s: System, x: string, effect: Effect)
    requires Inv(s) && FloatingLinked(cfg, s) && IsLive(s, x)
    requires effect.store == s.store && effect.floating == s.floating
    ensures StepLinked(cfg, s, AfterCallback(s, x, effect))
  {
    IdentityLinked(cfg, s.matches[x].instance.record);
    EffectLinks(cfg, s, x, effect, Write(s.matches[x].instance.record, MustMatch(Digest(s.matches[x].instance.record))));
  }

  lemma ReplayStays(cfg: Config, store: Store, floating: multiset<Write>, inst: Instance, userId: string, c: Command,
                    now: int, known: bool, answer: WorldAnswer, fault: Fault)
    requires !Preflight(cfg, inst.engine, userId, c, now).PreflightFresh?
    ensures var effect := OnTargetCommand(cfg, inst, store, floating, userId, c, now, known, answer, fault);
      effect.store == store && effect.floating == floating
  {
  }

  lemma TargetLinks(cfg: Config, s: System, x: string, userId: string, c: Command, now: int, known: bool,
                    answer: WorldAnswer, fault: Fault)
    requires Inv(s) && FloatingLinked(cfg, s) && IsLive(s, x)
    ensures var s' := AfterCallback(s, x, OnTargetCommand(cfg, s.matches[x].instance, s.store, s.floating,
                                                          userId, c, now, known, answer, fault));
      StepLinked(cfg, s, s')
  {
    var inst := s.matches[x].instance;
    if Preflight(cfg, inst.engine, userId, c, now).PreflightFresh? {
      FreshTargetLinks(cfg, s, x, userId, c, answer, fault);
    } else {
      ReplayStays(cfg, s.store, s.floating, inst, userId, c, now, known, answer, fault);
      StayingLinks(cfg, s, x, OnTargetCommand(cfg, inst, s.store, s.floating, userId, c, now, known, answer, fault));
    }
  }

  lemma SignalEffectLinks(cfg: Config, s: System, x: string, logicalId: string, generation: nat,
                          facts: TerminalFacts, now: int, fault: Fault)
    requires Inv(s) && FloatingLinked(cfg, s) && IsLive(s, x) && !s.matches[x].instance.wedged
    ensures var s' := AfterCallback(s, x, OnSignal(cfg, s.matches[x].instance, s.store, s.floating,
                                                   logicalId, generation, facts, now, fault));
      StepLinked(cfg, s, s')
  {
    var inst := s.matches[x].instance;
    assert MatchOk(s.store, x, s.matches[x]);
    var effect := OnSignal(cfg, inst, s.store, s.floating, logicalId, generation, facts, now, fault);
    var (after, outcome) := Complete(cfg, inst.engine, facts, now);
    if Bound(inst, logicalId, generation) && outcome.CompletionAnswer? && inst.engine.completion.None? {
      AcceptedLinks(cfg, s, x, inst, CompleteInput(facts, now), after, fault, effect);
    } else {
      QuietLinks(cfg, s, x, effect);
    }
  }

  lemma SignalLinks(c: Cluster, s: System, rpc: nat, now: int, fault: Fault)
    requires Inv(s) && FloatingLinked(c.config, s)
    ensures var s' := DoCompleteSignal(c, s, rpc, now, fault);
      StepLinked(c.config, s, s')
  {
    if rpc in s.rpcs && s.rpcs[rpc].CompleteRead? && IsLive(s, s.rpcs[rpc].record.externalId) {
      var call := s.rpcs[rpc];
      var x := call.record.externalId;
      if !s.matches[x].instance.wedged {
        SignalEffectLinks(c.config, s, x, call.record.logicalId, call.record.generation, call.facts, now, fault);
      }
    }
  }

  // ------------------------------------------------------------------ every run

  lemma CallbackStepLinks(c: Cluster, s: System, step: Step)
    requires Inv(s) && FloatingLinked(c.config, s) && CallsBack(step)
    ensures StepLinked(c.config, s, Do(c, s, step))
  {
    if IsLive(s, step.externalId) {
      EffectStepLinks(c, s, step);
      StepIsCallback(c, s, step);
    }
  }

  lemma EffectStepLinks(c: Cluster, s: System, step: Step)
    requires Inv(s) && FloatingLinked(c.config, s) && CallsBack(step) && IsLive(s, step.externalId)
    ensures StepLinked(c.config, s, AfterCallback(s, step.externalId, EffectOf(c, s, step)))
  {
    var effect := EffectOf(c, s, step);
    match step
    case JoinMatch(x, user, auth, session, now, fault) =>
      JoinLinks(c.config, s, x, user, auth, session, now, fault);
    case JoinedMatch(x, _) => QuietLinks(c.config, s, x, effect);
    case PlayCommand(x, user, command, now, fault) =>
      if s.matches[x].instance.target {
        QuietLinks(c.config, s, x, effect);
      } else {
        CommandLinks(c.config, s, x, user, command, now, fault);
      }
    case PlayTarget(x, user, command, now, known, answer, fault) =>
      if s.matches[x].instance.target {
        TargetLinks(c.config, s, x, user, command, now, known, answer, fault);
      } else {
        QuietLinks(c.config, s, x, effect);
      }
  }

  lemma InitWriteLinks(cfg: Config, s: System, x: string, target: bool, fault: Fault)
    requires FloatingLinked(cfg, s)
    ensures var s' := DoInitWrite(s, x, target, fault);
      StepLinked(cfg, s, s')
  {
    if x in s.matches && s.matches[x].Loaded? {
      FencingLinks(cfg, s, DoInitWrite(s, x, target, fault), BindingWrite(s.matches[x].record, x));
    }
  }

  lemma ResumeWriteLinks(cfg: Config, s: System, rpc: nat, fault: Fault)
    requires FloatingLinked(cfg, s)
    ensures var s' := DoResumeWrite(s, rpc, fault);
      StepLinked(cfg, s, s')
  {
    if rpc in s.rpcs && s.rpcs[rpc].ResumeCleared? {
      FencingLinks(cfg, s, DoResumeWrite(s, rpc, fault), FencingWrite(s.rpcs[rpc].record));
    }
  }

  lemma DelayedLinks(cfg: Config, s: System, w: Write)
    requires FloatingLinked(cfg, s) && w in s.floating
    ensures var s' := s.(store := Commit(s.store, w), floating := s.floating - multiset{w});
      StepLinked(cfg, s, s')
  {
    LinkedWrite(cfg, s, s.(store := Commit(s.store, w), floating := s.floating - multiset{w}), w);
  }

  lemma QuietCallLinks(c: Cluster, s: System, step: Step)
    requires step.ResumeLoad? || step.ResumeInspect? || step.CompleteLoad? || step.CompleteCheck?
    ensures Do(c, s, step).store == s.store && Do(c, s, step).floating == s.floating
  {
  }

  /** Every other step neither writes nor issues a write. */
  lemma QuietStepLinks(c: Cluster, s: System, step: Step)
    requires FloatingLinked(c.config, s) && !CallsBack(step)
    requires !step.Create? && !step.InitWrite? && !step.ResumeWrite? && !step.PerformDelayed? && !step.CompleteSignal?
    ensures FloatingLinked(c.config, Do(c, s, step)) && Do(c, s, step).store == s.store
  {
    if step.ResumeLoad? || step.ResumeInspect? || step.CompleteLoad? || step.CompleteCheck? {
      QuietCallLinks(c, s, step);
    }
  }

  lemma StepLinks(c: Cluster, s: System, step: Step)
    requires Inv(s) && FloatingLinked(c.config, s)
    ensures StepLinked(c.config, s, Do(c, s, step))
  {
    if CallsBack(step) {
      CallbackStepLinks(c, s, step);
    } else if step.Create? {
      CreateLinks(c.config, s, step.rpc, step.a, step.b, step.now, step.fault);
    } else if step.CompleteSignal? {
      SignalLinks(c, s, step.rpc, step.now, step.fault);
    } else if step.InitWrite? {
      InitWriteLinks(c.config, s, step.externalId, step.target, step.fault);
    } else if step.ResumeWrite? {
      ResumeWriteLinks(c.config, s, step.rpc, step.fault);
    } else if step.PerformDelayed? {
      if step.write in s.floating { DelayedLinks(c.config, s, step.write); }
    } else {
      QuietStepLinks(c, s, step);
    }
  }

  lemma {:induction false} RunLinks(c: Cluster, steps: seq<Step>, i: nat)
    requires i <= |steps|
    ensures FloatingLinked(c.config, At(c, steps, i))
  {
    if i > 0 {
      RunLinks(c, steps, i - 1);
      NextMoment(c, steps, i);
      StepLinks(c, At(c, steps, i - 1), steps[i - 1]);
    }
  }

  /** In every run, each committed snapshot equals the one before it or is that
      one plus a single engine operation; a first snapshot is a new match. */
  lemma CommittedSnapshotsFormAChain(c: Cluster, steps: seq<Step>, i: nat)
    requires i < |steps|
    ensures StoreLinked(c.config, At(c, steps, i).store, At(c, steps, i + 1).store)
  {
    RunLinks(c, steps, i);
    NextMoment(c, steps, i + 1);
    StepLinks(c, At(c, steps, i), steps[i]);
  }

  /** So every durable snapshot is an engine that some sequence of accepted
      operations produces from a new match. */
  lemma {:induction false} DurableSnapshotsAreReachable(c: Cluster, steps: seq<Step>, i: nat, id: string)
    requires i <= |steps| && id in At(c, steps, i).store
    ensures Reachable(c.config, At(c, steps, i).store[id].snapshot)
  {
    if i > 0 {
      CommittedSnapshotsFormAChain(c, steps, i - 1);
      var e := At(c, steps, i).store[id].snapshot;
      if id in At(c, steps, i - 1).store {
        DurableSnapshotsAreReachable(c, steps, i - 1, id);
        var before := At(c, steps, i - 1).store[id].snapshot;
        if before != e {
          StepIsReachable(c.config, before, e);
        }
      } else {
        var a, b, now :| NewMatch(c.config, a, b, now) == Some(e);
        NewMatchIsReachable(c.config, a, b, now);
      }
    }
  }
}

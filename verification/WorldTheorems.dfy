/** What an unacknowledged commit of both objects means for its instance and for
    the match (runtime/world_authoritative_match.go, runtime/world_command_storage.go). */
module WorldTheorems {
  import opened Common
  import opened Contract
  import opened MatchEngine
  import opened EngineProgress
  import opened StoredMatch
  import opened RecordOrder
  import opened MatchCallbacks
  import opened Protocol
  import opened ProtocolInvariant
  import opened ProtocolProofs
  import opened ProtocolTheorems
  import opened WorldStore
  import opened WorldAgreement

  // ------------------------------------------------------------ a wedged instance

  /** The World side accepted, the core applied the command, and storage did not
      acknowledge the commit. */
  ghost predicate Unacknowledged(cfg: Config, inst: Instance, store: Store, userId: string, c: Command,
                                 answer: WorldAnswer, fault: Fault)
  {
    answer.WorldAccepts? && ApplyCommand(cfg, inst.engine, userId, c, answer.at).1.CommandAccepted? &&
    !(fault.Reliable? && answer.admitted &&
      Admits(store, Write(inst.record.(snapshot := ApplyCommand(cfg, inst.engine, userId, c, answer.at).0), MustMatch(inst.version))))
  }

  lemma CommitAcknowledged(inst: Instance, after: Engine, event: Event, store: Store, floating: multiset<Write>, fault: Fault)
    requires after != inst.engine && !inst.wedged
    ensures var next := TargetCommit(inst, after, event, store, floating, fault).instance;
      && next.Some? && next.value.engine == after
      && ((next.value.record.snapshot == after && !next.value.wedged) <==>
          (fault.Reliable? && Admits(store, Write(inst.record.(snapshot := after), MustMatch(inst.version)))))
      && (next.value.wedged ==> next.value.record == inst.record)
  {
  }

  /** The comment on the write in persistWorldAndCoreAtomic asks for a restart
      after an ambiguous commit. The code does not stop: the coordinator reports
      the failure as retryable, and the instance goes on with an engine that is
      not the one in its record. This happens exactly when the commit of an
      accepted command is not acknowledged. */
  lemma InstanceOutlivesAmbiguousCommit(cfg: Config, inst: Instance, store: Store, floating: multiset<Write>,
                                        userId: string, c: Command, answer: WorldAnswer, fault: Fault)
    requires !inst.wedged && inst.engine == inst.record.snapshot
    ensures var next := FreshTarget(cfg, inst, store, floating, userId, c, answer, fault).instance;
      (next.Some? && next.value.engine != next.value.record.snapshot) <==>
      Unacknowledged(cfg, inst, store, userId, c, answer, fault)
  {
    if answer.WorldAccepts? {
      var (after, outcome) := ApplyCommand(cfg, inst.engine, userId, c, answer.at);
      if outcome.CommandAccepted? {
        AcceptedCommand(cfg, inst.engine, userId, c, answer.at);
        CommitAcknowledged(inst, after, outcome.event, store, floating, if answer.admitted then fault else Dropped);
      }
    }
  }

  /** This step is a callback of the instance `x`. */
  predicate Calls(s: System, step: Step, x: string)
  {
    (CallsBack(step) && step.externalId == x) ||
    (step.CompleteSignal? && step.rpc in s.rpcs && s.rpcs[step.rpc].CompleteRead? && s.rpcs[step.rpc].record.externalId == x)
  }

  lemma WedgedTargetCommand(cfg: Config, inst: Instance, store: Store, floating: multiset<Write>, userId: string,
                            c: Command, now: int, known: bool, answer: WorldAnswer, fault: Fault)
    requires inst.wedged
    ensures var effect := OnTargetCommand(cfg, inst, store, floating, userId, c, now, known, answer, fault);
      && effect.store == store && effect.floating == floating && (effect.instance.Some? ==> effect.instance.value == inst)
      && effect.announced.None?
  {
  }

  lemma WedgedJoin(cfg: Config, store: Store, floating: multiset<Write>, x: string, inst: Instance, userId: string,
                   authorizationId: string, session: string, now: int, fault: Fault)
    requires InstanceOk(store, x, inst) && inst.wedged
    ensures OnJoin(cfg, inst, store, floating, userId, authorizationId, session, now, fault) == Quiet(inst, store, floating)
  {
    ActiveJoinIsStale(cfg, inst.engine, userId, authorizationId, now);
  }

  /** In every reachable state a wedged instance is spent: whatever it is called
      for, it writes nothing, issues nothing, concludes nothing and stays wedged
      until it stops. */
  lemma {:induction false} WedgedNeverWrites(c: Cluster, steps: seq<Step>, x: string, step: Step)
    requires var s := Run(c, Empty, steps); IsLive(s, x) && s.matches[x].instance.wedged && Calls(s, step, x)
    ensures Spent(Run(c, Empty, steps), Do(c, Run(c, Empty, steps), step), x)
  {
    RunKeeps(c, steps);
    WedgedStep(c, Run(c, Empty, steps), x, step);
  }

  /** From `s` to `t` nothing durable or pending changed, nothing was concluded,
      and the wedged instance is still wedged or gone. */
  ghost predicate Spent(s: System, t: System, x: string)
  {
    && t.store == s.store && t.floating == s.floating && t.answers == s.answers
    && (IsLive(t, x) ==> t.matches[x].instance.wedged)
  }

  lemma SpentCallback(s: System, x: string, effect: Effect)
    requires IsLive(s, x) && s.matches[x].instance.wedged
    requires effect.store == s.store && effect.floating == s.floating && effect.announced.None?
    requires effect.instance.Some? ==> effect.instance.value.wedged
    ensures Spent(s, AfterCallback(s, x, effect), x)
  {
    assert s.answers + {} == s.answers;
  }

  lemma WedgedEffect(c: Cluster, s: System, x: string, step: Step)
    requires Inv(s) && IsLive(s, x) && s.matches[x].instance.wedged && CallsBack(step) && step.externalId == x
    ensures Spent(s, AfterCallback(s, x, EffectOf(c, s, step)), x)
  {
    var inst := s.matches[x].instance;
    assert MatchOk(s.store, x, s.matches[x]);
    match step {
      case JoinMatch(_, user, auth, session, now, fault) =>
        WedgedJoin(c.config, s.store, s.floating, x, inst, user, auth, session, now, fault);
      case PlayTarget(_, user, command, now, known, answer, fault) =>
        WedgedTargetCommand(c.config, inst, s.store, s.floating, user, command, now, known, answer, fault);
      case _ =>
    }
    SpentCallback(s, x, EffectOf(c, s, step));
  }

  lemma {:induction false} WedgedStep(c: Cluster, s: System, x: string, step: Step)
    requires Inv(s) && IsLive(s, x) && s.matches[x].instance.wedged && Calls(s, step, x)
    ensures Spent(s, Do(c, s, step), x)
  {
    if CallsBack(step) {
      WedgedEffect(c, s, x, step);
      StepIsCallback(c, s, step);
    }
  }
}

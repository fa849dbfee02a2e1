/** Safety of whole runs of the fencing protocol: every interleaving of creates,
    resumes, initializations, joins, commands, completions, crashes, lost
    acknowledgements and late writes. */
module ProtocolTheorems {
  import opened Common
  import opened Contract
  import opened MatchEngine
  import opened EngineProgress
  import opened StoredMatch
  import opened RecordOrder
  import opened MatchCallbacks
  import opened Protocol
  import opened ProtocolInvariant
  import opened ProtocolProofs

  /** The state after the first `i` steps of a run from an empty cluster. */
  ghost function At(c: Cluster, steps: seq<Step>, i: nat): System
    requires i <= |steps|
  {
    Run(c, Empty, steps[..i])
  }

  lemma {:induction false} RunKeeps(c: Cluster, steps: seq<Step>)
    ensures Inv(Run(c, Empty, steps))
  {
    if steps == [] {
      EmptyIsFine();
    } else {
      RunKeeps(c, steps[..|steps| - 1]);
      StepKeeps(c, Run(c, Empty, steps[..|steps| - 1]), steps[|steps| - 1]);
    }
  }

  lemma EmptyIsFine()
    ensures Inv(Empty)
  {
    forall h ensures Token(Empty, h).None? {}
  }

  lemma NextMoment(c: Cluster, steps: seq<Step>, j: nat)
    requires 0 < j <= |steps|
    ensures At(c, steps, j) == Do(c, At(c, steps, j - 1), steps[j - 1])
    ensures Inv(At(c, steps, j - 1)) && Inv(At(c, steps, j))
    ensures Advanced(At(c, steps, j - 1).store, At(c, steps, j).store)
  {
    assert steps[..j][..j - 1] == steps[..j - 1];
    RunKeeps(c, steps[..j - 1]);
    StepKeeps(c, At(c, steps, j - 1), steps[j - 1]);
  }

  /** Between any two moments of a run every durable record only advances. */
  lemma {:induction false} RunAdvances(c: Cluster, steps: seq<Step>, i: nat, j: nat)
    requires i <= j <= |steps|
    ensures Inv(At(c, steps, i)) && Advanced(At(c, steps, i).store, At(c, steps, j).store)
    decreases j
  {
    RunKeeps(c, steps[..i]);
    if i < j {
      RunAdvances(c, steps, i, j - 1);
      NextMoment(c, steps, j);
      AdvancedTransitive(At(c, steps, i).store, At(c, steps, j - 1).store, At(c, steps, j).store);
    }
  }

  // ------------------------------------------------------------------- no ABA

  /** A value of a match record that has been left never recurs: if the record
      has one value at two moments, it had that value all the time between. */
  lemma {:induction false} NoAba(c: Cluster, steps: seq<Step>, i: nat, j: nat, k: nat, id: string)
    requires i <= j <= k <= |steps| && id in At(c, steps, i).store
    requires id in At(c, steps, k).store && At(c, steps, k).store[id] == At(c, steps, i).store[id]
    ensures id in At(c, steps, j).store && At(c, steps, j).store[id] == At(c, steps, i).store[id]
  {
    RunAdvances(c, steps, i, j);
    RunAdvances(c, steps, j, k);
    BelowAntisymmetric(At(c, steps, i).store[id], At(c, steps, j).store[id]);
  }

  /** Although versions are digests of values and not counters, a version that
      storage has replaced is never admitted again. */
  lemma StaleVersionIsNeverAdmitted(c: Cluster, steps: seq<Step>, i: nat, j: nat, k: nat, w: Write)
    requires i <= j <= k <= |steps| && w.expectation.MustMatch?
    requires Admits(At(c, steps, i).store, w) && !Admits(At(c, steps, j).store, w)
    ensures !Admits(At(c, steps, k).store, w)
  {
    if Admits(At(c, steps, k).store, w) {
      NoAba(c, steps, i, j, k, w.record.logicalId);
    }
  }

  /** The generation of a match never decreases. */
  lemma {:induction false} GenerationsNeverDecrease(c: Cluster, steps: seq<Step>, i: nat, j: nat, id: string)
    requires i <= j <= |steps| && id in At(c, steps, i).store
    ensures id in At(c, steps, j).store
    ensures At(c, steps, i).store[id].generation <= At(c, steps, j).store[id].generation
  {
    RunAdvances(c, steps, i, j);
  }

  // ------------------------------------------------------------- single writer

  ghost predicate Current(s: System, x: string)
  {
    IsLive(s, x) && s.matches[x].instance.logicalId in s.store &&
    s.matches[x].instance.version == Digest(s.store[s.matches[x].instance.logicalId])
  }

  /** At most one live instance of a logical match holds the current version. */
  lemma {:induction false} SingleWriter(c: Cluster, steps: seq<Step>, x: string, y: string)
    requires var s := Run(c, Empty, steps);
      Current(s, x) && Current(s, y) && s.matches[x].instance.logicalId == s.matches[y].instance.logicalId
    ensures x == y
  {
    RunKeeps(c, steps);
    var s := Run(c, Empty, steps);
    assert MatchOk(s.store, x, s.matches[x]) && MatchOk(s.store, y, s.matches[y]);
  }

  /** Only the current instance can get a mutation accepted. */
  lemma {:induction false} OnlyTheCurrentInstanceWrites(c: Cluster, steps: seq<Step>, x: string, after: Engine)
    requires var s := Run(c, Empty, steps); IsLive(s, x) && !Current(s, x)
    ensures var s := Run(c, Empty, steps); !Admits(s.store, MutationWrite(s.matches[x].instance, after))
  {
    RunKeeps(c, steps);
    var s := Run(c, Empty, steps);
    assert MatchOk(s.store, x, s.matches[x]);
  }

  // -------------------------------------------------- once fenced, always fenced

  ghost predicate Fenced(s: System, x: string)
  {
    IsLive(s, x) && !Current(s, x)
  }

  /** Fenced, and believing this record to be the durable one. */
  ghost predicate FencedAs(s: System, x: string, record: Record)
  {
    Fenced(s, x) && s.matches[x].instance.record == record
  }

  lemma FencedStep(c: Cluster, s: System, s': System, x: string, step: Step, record: Record)
    requires Inv(s) && FencedAs(s, x, record) && s' == Do(c, s, step) && IsLive(s', x)
    ensures FencedAs(s', x, record)
  {
    var inst := s.matches[x].instance;
    assert MatchOk(s.store, x, s.matches[x]);
    StepKeeps(c, s, step);
    FencedKeepsRecord(c, s, x, step);
    assert MatchOk(s'.store, x, s'.matches[x]);
    assert Below(inst.record, s.store[inst.logicalId]) && Below(s.store[inst.logicalId], s'.store[inst.logicalId]);
    if Current(s', x) {
      BelowAntisymmetric(inst.record, s.store[inst.logicalId]);
    }
  }

  ghost predicate Locked(s: System, inst: Instance)
  {
    forall after :: !Admits(s.store, MutationWrite(inst, after))
  }

  lemma JoinKeepsRecord(cfg: Config, s: System, inst: Instance, userId: string, authorizationId: string,
                        session: string, now: int, fault: Fault)
    requires Locked(s, inst)
    ensures var effect := OnJoin(cfg, inst, s.store, s.floating, userId, authorizationId, session, now, fault);
      effect.instance.Some? ==> effect.instance.value.record == inst.record
  {
    assert !Admits(s.store, MutationWrite(inst, Join(cfg, inst.engine, userId, authorizationId, now).0));
  }

  lemma CommandKeepsRecord(cfg: Config, s: System, inst: Instance, userId: string, c: Command, now: int, fault: Fault)
    requires Locked(s, inst)
    ensures var effect := OnCommand(cfg, inst, s.store, s.floating, userId, c, now, fault);
      effect.instance.Some? ==> effect.instance.value.record == inst.record
  {
    assert !Admits(s.store, MutationWrite(inst, ApplyCommand(cfg, inst.engine, userId, c, now).0));
  }

  lemma TargetKeepsRecord(cfg: Config, s: System, inst: Instance, userId: string, c: Command, now: int,
                          known: bool, answer: WorldAnswer, fault: Fault)
    requires Locked(s, inst)
    ensures var effect := OnTargetCommand(cfg, inst, s.store, s.floating, userId, c, now, known, answer, fault);
      effect.instance.Some? ==> effect.instance.value.record == inst.record
  {
    if answer.WorldAccepts? {
      assert !Admits(s.store, MutationWrite(inst, ApplyCommand(cfg, inst.engine, userId, c, answer.at).0));
    }
  }

  lemma SignalKeepsRecord(cfg: Config, s: System, inst: Instance, logicalId: string, generation: nat,
                          facts: TerminalFacts, now: int, fault: Fault)
    requires Locked(s, inst)
    ensures var effect := OnSignal(cfg, inst, s.store, s.floating, logicalId, generation, facts, now, fault);
      effect.instance.Some? ==> effect.instance.value.record == inst.record
  {
    assert !Admits(s.store, MutationWrite(inst, Complete(cfg, inst.engine, facts, now).0));
  }

  lemma InitKeepsInstance(c: Cluster, s: System, x: string, step: Step)
    requires Inv(s) && IsLive(s, x) && IsLive(Do(c, s, step), x)
    requires step.MatchCreate? || step.InitRead? || step.InitWrite? || step.StopMatch?
    ensures Do(c, s, step).matches[x] == s.matches[x]
  {
    assert x in s.used;
  }

  lemma LoadKeepsInstances(c: Cluster, s: System, step: Step)
    requires step.ResumeLoad? || step.ResumeInspect? || step.CompleteLoad? || step.CompleteCheck?
    ensures Do(c, s, step).matches == s.matches
  {
  }

  lemma CallKeepsInstances(c: Cluster, s: System, step: Step)
    requires step.Create? || step.ResumeWrite? || step.PerformDelayed? || step.LoseDelayed? || step.AbandonRpc?
    ensures Do(c, s, step).matches == s.matches
  {
  }

  /** Steps outside the callbacks leave a live instance alone or stop it. */
  lemma OthersKeepInstance(c: Cluster, s: System, x: string, step: Step)
    requires Inv(s) && IsLive(s, x) && IsLive(Do(c, s, step), x)
    requires !CallsBack(step) && !step.CompleteSignal?
    ensures Do(c, s, step).matches[x] == s.matches[x]
  {
    if step.MatchCreate? || step.InitRead? || step.InitWrite? || step.StopMatch? {
      InitKeepsInstance(c, s, x, step);
    } else if step.ResumeLoad? || step.ResumeInspect? || step.CompleteLoad? || step.CompleteCheck? {
      LoadKeepsInstances(c, s, step);
    } else {
      CallKeepsInstances(c, s, step);
    }
  }

  ghost predicate RecordStays(s: System, x: string, s': System)
    requires IsLive(s, x)
  {
    IsLive(s', x) ==> s'.matches[x].instance.record == s.matches[x].instance.record
  }

  lemma EffectKeepsRecord(s: System, x: string, effect: Effect)
    requires IsLive(s, x)
    requires effect.instance.Some? ==> effect.instance.value.record == s.matches[x].instance.record
    ensures RecordStays(s, x, AfterCallback(s, x, effect))
  {
  }

  lemma ElsewhereKeepsRecord(s: System, x: string, y: string, effect: Effect)
    requires IsLive(s, x) && IsLive(s, y) && x != y
    ensures RecordStays(s, x, AfterCallback(s, y, effect))
  {
  }

  lemma CallbackKeepsRecord(c: Cluster, s: System, x: string, step: Step)
    requires IsLive(s, x) && CallsBack(step) && Locked(s, s.matches[x].instance)
    ensures RecordStays(s, x, Do(c, s, step))
  {
    var inst, y := s.matches[x].instance, step.externalId;
    if !IsLive(s, y) {
      assert Do(c, s, step) == s;
    } else {
      var effect := EffectOf(c, s, step);
      if y != x {
        ElsewhereKeepsRecord(s, x, y, effect);
      } else {
        match step {
          case JoinMatch(_, user, auth, session, now, fault) =>
            JoinKeepsRecord(c.config, s, inst, user, auth, session, now, fault);
          case JoinedMatch(_, _) =>
          case PlayCommand(_, user, command, now, fault) =>
            CommandKeepsRecord(c.config, s, inst, user, command, now, fault);
          case PlayTarget(_, user, command, now, known, answer, fault) =>
            TargetKeepsRecord(c.config, s, inst, user, command, now, known, answer, fault);
        }
        EffectKeepsRecord(s, x, effect);
      }
      StepIsCallback(c, s, step);
    }
  }

  lemma FencedKeepsRecord(c: Cluster, s: System, x: string, step: Step)
    requires Inv(s) && Fenced(s, x) && IsLive(Do(c, s, step), x)
    ensures Do(c, s, step).matches[x].instance.record == s.matches[x].instance.record
  {
    var inst := s.matches[x].instance;
    assert MatchOk(s.store, x, s.matches[x]);
    assert Locked(s, inst);
    if CallsBack(step) {
      CallbackKeepsRecord(c, s, x, step);
    } else if step.CompleteSignal? {
      SignalStepKeepsRecord(c, s, x, step.rpc, step.now, step.fault);
    } else {
      OthersKeepInstance(c, s, x, step);
    }
  }

  lemma SignalStepKeepsRecord(c: Cluster, s: System, x: string, rpc: nat, now: int, fault: Fault)
    requires IsLive(s, x) && Locked(s, s.matches[x].instance)
    ensures RecordStays(s, x, DoCompleteSignal(c, s, rpc, now, fault))
  {
    if rpc in s.rpcs && s.rpcs[rpc].CompleteRead? {
      var call := s.rpcs[rpc];
      SignalKeepsRecord(c.config, s, s.matches[x].instance, call.record.logicalId, call.record.generation, call.facts, now, fault);
    }
  }

  /** An instance that lost the current version never holds it again: from then
      on its record, and with it everything it believes durable, is frozen. */
  lemma {:induction false} OnceFencedAlwaysFenced(c: Cluster, steps: seq<Step>, i: nat, j: nat, x: string)
    requires i <= j <= |steps| && Fenced(At(c, steps, i), x)
    requires forall k :: i <= k <= j ==> IsLive(At(c, steps, k), x)
    ensures FencedAs(At(c, steps, j), x, At(c, steps, i).matches[x].instance.record)
    decreases j
  {
    if i < j {
      OnceFencedAlwaysFenced(c, steps, i, j - 1, x);
      FencedNext(c, steps, j, x, At(c, steps, i).matches[x].instance.record);
    }
  }

  lemma {:induction false} FencedNext(c: Cluster, steps: seq<Step>, j: nat, x: string, record: Record)
    requires 0 < j <= |steps| && FencedAs(At(c, steps, j - 1), x, record) && IsLive(At(c, steps, j), x)
    ensures FencedAs(At(c, steps, j), x, record)
  {
    NextMoment(c, steps, j);
    FencedStep(c, At(c, steps, j - 1), At(c, steps, j), x, steps[j - 1], record);
  }

  // -------------------------------------------------------- durable and visible

  /** The event log of a match only grows by extension, across generations. */
  lemma DurableLogIsExtended(c: Cluster, steps: seq<Step>, i: nat, j: nat, id: string)
    requires i <= j <= |steps| && id in At(c, steps, i).store
    ensures id in At(c, steps, j).store
    ensures At(c, steps, i).store[id].snapshot.events <= At(c, steps, j).store[id].snapshot.events
  {
    RunAdvances(c, steps, i, j);
    assert Below(At(c, steps, i).store[id], At(c, steps, j).store[id]);
  }

  /** Whatever any instance has sent, fenced ones included, is durable at
      that moment and at every later one. */
  lemma DurableBeforeVisible(c: Cluster, steps: seq<Step>, i: nat, j: nat, id: string, notice: Notice)
    requires i <= j <= |steps| && (id, notice) in At(c, steps, i).visible
    ensures Durable(At(c, steps, i).store, id, notice.event) && Durable(At(c, steps, j).store, id, notice.event)
  {
    RunAdvances(c, steps, i, j);
    EventKept(At(c, steps, i).store, At(c, steps, j).store, id, notice.event);
  }

  // ------------------------------------------------------------------ completion

  /** Once a durable snapshot is completed its record never changes again: no
      later write and no later generation. */
  lemma CompletionIsFinal(c: Cluster, steps: seq<Step>, i: nat, j: nat, id: string)
    requires i <= j <= |steps| && id in At(c, steps, i).store
    requires At(c, steps, i).store[id].snapshot.completion.Some?
    ensures id in At(c, steps, j).store && At(c, steps, j).store[id] == At(c, steps, i).store[id]
  {
    RunAdvances(c, steps, i, j);
    assert Below(At(c, steps, i).store[id], At(c, steps, j).store[id]);
  }

  /** All completions ever returned or announced for a match, by any call at any
      time, are one and the same, and it is the durable one. */
  lemma AnswersAgree(c: Cluster, steps: seq<Step>, i: nat, j: nat, id: string, one: Answer, two: Answer)
    requires i <= j <= |steps| && (id, one) in At(c, steps, i).answers && (id, two) in At(c, steps, j).answers
    ensures one.completion == two.completion
    ensures id in At(c, steps, j).store && At(c, steps, j).store[id].snapshot.completion == Some(one.completion)
  {
    RunAdvances(c, steps, i, j);
    RunKeeps(c, steps[..j]);
    ConclusionKept(At(c, steps, i).store, At(c, steps, j).store, id, one.completion);
  }
}

/** The fencing protocol of a cluster under the target World profile, with the
    World documents and the delayed commits of both objects in its state
    (runtime/world_authoritative_match.go, runtime/world_command_storage.go).

    A run of this system is, on its match records, a run of Protocol. */
module WorldProtocol {
  import opened Common
  import opened Contract
  import opened MatchEngine
  import opened EngineProgress
  import opened StoredMatch
  import opened RecordOrder
  import opened MatchCallbacks
  import opened Protocol
  import opened ProtocolInvariant
  import opened ProtocolProofs
  import opened ProtocolTheorems
  import opened ProtocolChain
  import opened ProtocolRecovery
  import opened WorldStore
  import opened WorldAgreement
  import opened WorldStorage
  import opened WorldCommit

  datatype WorldSystem = WorldSystem(core: System, worlds: Worlds, origins: map<string, Record>, late: seq<Commitment>)

  const NoWorlds := WorldSystem(Empty, map[], map[], [])

  function Data(s: WorldSystem): Durables
  {
    Durables(s.core.store, s.worlds, s.origins)
  }

  /** `done` is what storage performed during the step, in order, and `left` what
      may still be performed after it. */
  datatype WorldStep =
    | Plain(step: Step)
    | Target(step: Step, done: seq<Commitment>, left: seq<Commitment>)
    | Gate(externalId: string, done: seq<Commitment>, left: seq<Commitment>)
    | PerformLate(i: nat)
    | LoseLate(i: nat)

  // ---------------------------------------------------------------------- steps

  /** Every instance of this cluster is a target instance, and delayed writes are
      performed by steps of their own. */
  predicate IsPlain(step: Step)
  {
    !step.PlayTarget? && !step.PerformDelayed? && !step.LoseDelayed? && (step.InitWrite? ==> step.target)
  }

  /** The write that a step left under way, if there is one. */
  ghost function Issued(before: multiset<Write>, after: multiset<Write>): seq<Commitment>
  {
    if after - before == multiset{} then []
    else
      var m :| m in after - before;
      [Alone(m)]
  }

  ghost function DoPlain(c: Cluster, s: WorldSystem, step: Step): WorldSystem
  {
    if !IsPlain(step) then s
    else
      var core := Do(c, s.core, step);
      s.(core := core, late := s.late + Issued(s.core.floating, core.floating))
  }

  predicate Serves(s: WorldSystem, x: string)
  {
    IsLive(s.core, x) && s.core.matches[x].instance.target
  }

  /** The record from which this instance might create a World document; one that
      is ahead of its document has it open. */
  function Unopened(inst: Instance): Option<Record>
  {
    if inst.wedged then None else Some(inst.record)
  }

  /** executeTargetCommand: the storage calls give the match record the effect of
      the target callback, and none is made for a command that preflight rejects. */
  ghost predicate TargetEnabled(c: Cluster, s: WorldSystem, step: Step, done: seq<Commitment>, left: seq<Commitment>)
  {
    && step.PlayTarget? && Serves(s, step.externalId)
    && var inst := s.core.matches[step.externalId].instance;
    && CallsOk(Unopened(inst), done) && CallsOk(Unopened(inst), left)
    && (Preflight(c.config, inst.engine, step.userId, step.command, step.now).PreflightRejected? ==> done == [] && left == [])
    && Performed(Data(s), done).matches == Do(c, s.core, step).store
    && s.core.floating + MatchWrites(left) == Do(c, s.core, step).floating
  }

  ghost function AfterCalls(s: WorldSystem, core: System, done: seq<Commitment>, left: seq<Commitment>): WorldSystem
  {
    var data := Performed(Data(s), done);
    WorldSystem(core, data.worlds, data.origins, s.late + left)
  }

  ghost function DoTarget(c: Cluster, s: WorldSystem, step: Step, done: seq<Commitment>, left: seq<Commitment>): WorldSystem
  {
    if TargetEnabled(c, s, step, done, left) then AfterCalls(s, Do(c, s.core, step), done, left) else s
  }

  /** The gate in front of a completion may open or create the World document. */
  predicate GateEnabled(s: WorldSystem, x: string, done: seq<Commitment>, left: seq<Commitment>)
  {
    && Serves(s, x)
    && CallsOk(Unopened(s.core.matches[x].instance), done) && CallsOk(Unopened(s.core.matches[x].instance), left)
    && Performed(Data(s), done).matches == s.core.store && MatchWrites(left) == multiset{}
  }

  ghost function DoGate(s: WorldSystem, x: string, done: seq<Commitment>, left: seq<Commitment>): WorldSystem
  {
    if GateEnabled(s, x, done, left) then AfterCalls(s, s.core, done, left) else s
  }

  /** The system without the i-th call under way. */
  function Without(s: WorldSystem, i: nat): WorldSystem
    requires i < |s.late|
  {
    s.(core := s.core.(floating := s.core.floating - MatchWrites([s.late[i]])), late := s.late[..i] + s.late[i + 1..])
  }

  function DoPerformLate(s: WorldSystem, i: nat): WorldSystem
  {
    if i >= |s.late| then s
    else
      var data := Apply(Data(s), s.late[i]);
      var rest := Without(s, i);
      rest.(core := rest.core.(store := data.matches), worlds := data.worlds, origins := data.origins)
  }

  function DoLoseLate(s: WorldSystem, i: nat): WorldSystem
  {
    if i >= |s.late| then s else Without(s, i)
  }

  ghost function DoWorld(c: Cluster, s: WorldSystem, step: WorldStep): WorldSystem
  {
    match step
    case Plain(p) => DoPlain(c, s, p)
    case Target(p, done, left) => DoTarget(c, s, p, done, left)
    case Gate(x, done, left) => DoGate(s, x, done, left)
    case PerformLate(i) => DoPerformLate(s, i)
    case LoseLate(i) => DoLoseLate(s, i)
  }

  /** The system after a run of steps. */
  ghost function RunFrom(c: Cluster, s: WorldSystem, steps: seq<WorldStep>): WorldSystem
  {
    if steps == [] then s else DoWorld(c, RunFrom(c, s, steps[..|steps| - 1]), steps[|steps| - 1])
  }

  ghost function RunWorld(c: Cluster, steps: seq<WorldStep>): WorldSystem
  {
    RunFrom(c, NoWorlds, steps)
  }

  // ------------------------------------------------------------- the projection

  /** What a step is on the match records. */
  ghost function CoreSteps(c: Cluster, s: WorldSystem, step: WorldStep): seq<Step>
  {
    match step
    case Plain(p) => if IsPlain(p) then [p] else []
    case Target(p, done, left) => if TargetEnabled(c, s, p, done, left) then [p] else []
    case Gate(_, _, _) => []
    case PerformLate(i) =>
      if i >= |s.late| || !Concerns(s.late[i]) then []
      else if AdmitsCall(Data(s), s.late[i]) then [PerformDelayed(s.late[i].m)]
      else [LoseDelayed(s.late[i].m)]
    case LoseLate(i) =>
      if i >= |s.late| || !Concerns(s.late[i]) then [] else [LoseDelayed(s.late[i].m)]
  }

  ghost function Projected(c: Cluster, steps: seq<WorldStep>): seq<Step>
  {
    if steps == [] then []
    else
      var before := steps[..|steps| - 1];
      Projected(c, before) + CoreSteps(c, RunWorld(c, before), steps[|steps| - 1])
  }

  lemma {:induction false} WritesWithout(late: seq<Commitment>, i: nat)
    requires i < |late|
    ensures MatchWrites(late[..i] + late[i + 1..]) == MatchWrites(late) - MatchWrites([late[i]])
    ensures MatchWrites([late[i]]) <= MatchWrites(late)
  {
    var one, two, three := late[..i], [late[i]], late[i + 1..];
    assert late == one + two + three;
    MatchWritesOfBoth(one, two);
    MatchWritesOfBoth(one + two, three);
    MatchWritesOfBoth(one, three);
  }

  lemma {:induction false} OneWrite(call: Commitment)
    ensures MatchWrites([call]) == if call.Alone? || call.Both? then multiset{call.m} else multiset{}
  {
    assert [call][..0] == [];
    assert MatchWrites([]) == multiset{};
  }

  lemma {:induction false} RunOne(c: Cluster, s: System, step: Step)
    ensures Run(c, s, [step]) == Do(c, s, step)
  {
    RunSplit(c, s, [], step);
    assert [] + [step] == [step];
  }

  lemma {:induction false} RunLate(c: Cluster, s: System, m: Write)
    ensures m in s.floating ==>
      Run(c, s, [PerformDelayed(m)]) == s.(store := Commit(s.store, m), floating := s.floating - multiset{m})
    ensures Run(c, s, [LoseDelayed(m)]) == s.(floating := s.floating - multiset{m})
  {
    RunOne(c, s, PerformDelayed(m));
    RunOne(c, s, LoseDelayed(m));
  }

  predicate Concerns(call: Commitment)
  {
    call.Alone? || call.Both?
  }

  /** What is left of the match records' system without one delayed call. */
  lemma {:induction false} WithoutCore(s: WorldSystem, i: nat)
    requires s.core.floating == MatchWrites(s.late) && i < |s.late|
    ensures Without(s, i).core.floating == MatchWrites(Without(s, i).late)
    ensures Concerns(s.late[i]) ==>
      s.late[i].m in s.core.floating && Without(s, i).core == s.core.(floating := s.core.floating - multiset{s.late[i].m})
    ensures !Concerns(s.late[i]) ==> Without(s, i).core == s.core
  {
    WritesWithout(s.late, i);
    OneWrite(s.late[i]);
    if !Concerns(s.late[i]) {
      assert s.core.floating - multiset{} == s.core.floating;
    }
  }

  lemma {:induction false} LossSteps(c: Cluster, s: WorldSystem, i: nat)
    requires i < |s.late|
    ensures CoreSteps(c, s, LoseLate(i)) == if Concerns(s.late[i]) then [LoseDelayed(s.late[i].m)] else []
  {
  }

  /** Losing a delayed call is a step of the match records if it concerns them. */
  lemma {:induction false} LossProjects(c: Cluster, s: WorldSystem, i: nat)
    requires s.core.floating == MatchWrites(s.late) && i < |s.late|
    ensures Without(s, i).core == Run(c, s.core, CoreSteps(c, s, LoseLate(i)))
  {
    WithoutCore(s, i);
    LossSteps(c, s, i);
    if Concerns(s.late[i]) {
      RunLate(c, s.core, s.late[i].m);
    }
  }

  lemma ApplyOnMatches(d: Durables, call: Commitment)
    ensures Apply(d, call).matches == if Concerns(call) && AdmitsCall(d, call) then Commit(d.matches, call.m) else d.matches
  {
  }

  /** Performing one is a step of them, too: the delayed write itself, or its loss
      if storage does not admit all of the call. */
  lemma {:induction false} PerformanceProjects(c: Cluster, s: WorldSystem, i: nat)
    requires s.core.floating == MatchWrites(s.late)
    ensures DoPerformLate(s, i).core == Run(c, s.core, CoreSteps(c, s, PerformLate(i)))
  {
    if i < |s.late| {
      WithoutCore(s, i);
      ApplyOnMatches(Data(s), s.late[i]);
      if Concerns(s.late[i]) {
        RunLate(c, s.core, s.late[i].m);
      }
    }
  }

  // ------------------------------------------------------ the writes of a step

  ghost predicate TargetsOnly(s: System)
  {
    forall x :: IsLive(s, x) ==> s.matches[x].instance.target
  }

  /** From `s` to `s'` this write was performed or left, if there is one, and it
      is one of the match record alone that keeps its commands. */
  predicate WritesAlone(s: System, s': System, m: Option<Write>)
  {
    match m
    case None => s'.store == s.store && s'.floating == s.floating
    case Some(w) =>
      && AloneOk(w)
      && (s'.store == s.store || s'.store == Commit(s.store, w))
      && (s'.floating == s.floating || s'.floating == s.floating + multiset{w})
  }

  predicate EffectWritesAlone(store: Store, floating: multiset<Write>, effect: Effect, m: Option<Write>)
  {
    match m
    case None => effect.store == store && effect.floating == floating
    case Some(w) =>
      && AloneOk(w)
      && (effect.store == store || effect.store == Commit(store, w))
      && (effect.floating == floating || effect.floating == floating + multiset{w})
  }

  lemma JoinStays(cfg: Config, e: Engine, userId: string, authorizationId: string, now: int)
    requires Sound(e) && Join(cfg, e, userId, authorizationId, now).1.JoinAccepted?
    ensures CommandsStay(e, Join(cfg, e, userId, authorizationId, now).0)
  {
  }

  lemma CompletionStays(cfg: Config, e: Engine, facts: TerminalFacts, now: int)
    requires Sound(e) && e.completion.None? && Complete(cfg, e, facts, now).1.CompletionAnswer?
    ensures CommandsStay(e, Complete(cfg, e, facts, now).0)
  {
  }

  lemma NewMatchUnplayed(cfg: Config, a: Authorization, b: Authorization, now: int)
    requires NewMatch(cfg, a, b, now).Some?
    ensures Unplayed(NewMatch(cfg, a, b, now).value) && JoinedCount(NewMatch(cfg, a, b, now).value.participants) == 0
  {
  }

  lemma PersistsAlone(inst: Instance, after: Engine, store: Store, floating: multiset<Write>, fault: Fault)
    requires inst.version == Digest(inst.record) && CommandsStay(inst.record.snapshot, after)
    ensures var (_, store', floating') := Persist(inst, after, store, floating, fault);
      AloneOk(MutationWrite(inst, after)) && (store' == store || store' == Commit(store, MutationWrite(inst, after))) &&
      (floating' == floating || floating' == floating + multiset{MutationWrite(inst, after)})
  {
  }

  lemma JoinWrites(cfg: Config, store: Store, floating: multiset<Write>, x: string, inst: Instance, userId: string,
                   authorizationId: string, session: string, now: int, fault: Fault) returns (m: Option<Write>)
    requires InstanceOk(store, x, inst)
    ensures EffectWritesAlone(store, floating, OnJoin(cfg, inst, store, floating, userId, authorizationId, session, now, fault), m)
  {
    m := None;
    if inst.wedged {
      ActiveJoinIsStale(cfg, inst.engine, userId, authorizationId, now);
    }
    var (after, outcome) := Join(cfg, inst.engine, userId, authorizationId, now);
    if outcome.JoinAccepted? {
      JoinStays(cfg, inst.engine, userId, authorizationId, now);
      PersistsAlone(inst, after, store, floating, fault);
      m := Some(MutationWrite(inst, after));
    }
  }

  lemma SignalWrites(cfg: Config, store: Store, floating: multiset<Write>, x: string, inst: Instance, logicalId: string,
                     generation: nat, facts: TerminalFacts, now: int, fault: Fault) returns (m: Option<Write>)
    requires InstanceOk(store, x, inst) && !inst.wedged
    ensures EffectWritesAlone(store, floating, OnSignal(cfg, inst, store, floating, logicalId, generation, facts, now, fault), m)
  {
    m := None;
    var (after, outcome) := Complete(cfg, inst.engine, facts, now);
    if Bound(inst, logicalId, generation) && outcome.CompletionAnswer? && inst.engine.completion.None? {
      CompletionStays(cfg, inst.engine, facts, now);
      PersistsAlone(inst, after, store, floating, fault);
      m := Some(MutationWrite(inst, after));
    }
  }

  lemma EffectWritten(s: System, x: string, effect: Effect, m: Option<Write>)
    requires IsLive(s, x) && EffectWritesAlone(s.store, s.floating, effect, m)
    ensures WritesAlone(s, AfterCallback(s, x, effect), m)
  {
  }

  lemma CallbackWrites(c: Cluster, s: System, step: Step) returns (m: Option<Write>)
    requires Inv(s) && TargetsOnly(s) && CallsBack(step) && !step.PlayTarget? && IsLive(s, step.externalId)
    ensures WritesAlone(s, Do(c, s, step), m)
  {
    var x := step.externalId;
    var inst := s.matches[x].instance;
    assert MatchOk(s.store, x, s.matches[x]);
    m := None;
    if step.JoinMatch? {
      m := JoinWrites(c.config, s.store, s.floating, x, inst, step.userId, step.authorizationId, step.session, step.now, step.fault);
    }
    EffectWritten(s, x, EffectOf(c, s, step), m);
    StepIsCallback(c, s, step);
  }

  lemma CreateWrites(cfg: Config, s: System, rpc: nat, a: Authorization, b: Authorization, now: int, fault: Fault)
    returns (m: Option<Write>)
    ensures WritesAlone(s, DoCreate(cfg, s, rpc, a, b, now, fault), m)
  {
    m := None;
    var made := NewMatch(cfg, a, b, now);
    if made.Some? && rpc !in s.rpcs {
      NewMatchUnplayed(cfg, a, b, now);
      m := Some(Write(Record(made.value.matchId, made.value, "", 1), MustBeAbsent));
    }
  }

  /** Binding a runtime and fencing a generation keep the snapshot. */
  lemma SnapshotStays(w: Write, record: Record)
    requires Sound(record.snapshot) && w.expectation == MustMatch(Digest(record))
    requires w.record.snapshot == record.snapshot && w.record.logicalId == record.logicalId
    ensures AloneOk(w)
  {
  }

  lemma InitWrites(s: System, x: string, target: bool, fault: Fault) returns (m: Option<Write>)
    requires Inv(s)
    ensures WritesAlone(s, DoInitWrite(s, x, target, fault), m)
  {
    m := None;
    if x in s.matches && s.matches[x].Loaded? {
      assert MatchOk(s.store, x, s.matches[x]);
      m := Some(BindingWrite(s.matches[x].record, x));
      SnapshotStays(m.value, s.matches[x].record);
    }
  }

  lemma ResumeWrites(s: System, rpc: nat, fault: Fault) returns (m: Option<Write>)
    requires Inv(s)
    ensures WritesAlone(s, DoResumeWrite(s, rpc, fault), m)
  {
    m := None;
    if rpc in s.rpcs && s.rpcs[rpc].ResumeCleared? && s.rpcs[rpc].record.generation + 1 < GENERATION_LIMIT {
      assert RpcOk(s.store, s.rpcs[rpc]);
      m := Some(FencingWrite(s.rpcs[rpc].record));
      SnapshotStays(m.value, s.rpcs[rpc].record);
    }
  }

  lemma CompletionWrites(c: Cluster, s: System, step: Step) returns (m: Option<Write>)
    requires Inv(s) && step.CompleteSignal?
    ensures WritesAlone(s, Do(c, s, step), m)
  {
    m := None;
    if step.rpc in s.rpcs && s.rpcs[step.rpc].CompleteRead? && IsLive(s, s.rpcs[step.rpc].record.externalId) {
      var call := s.rpcs[step.rpc];
      var x := call.record.externalId;
      var inst := s.matches[x].instance;
      assert MatchOk(s.store, x, s.matches[x]);
      if !inst.wedged {
        m := SignalWrites(c.config, s.store, s.floating, x, inst, call.record.logicalId, call.record.generation,
                          call.facts, step.now, step.fault);
      }
    }
  }

  /** Every plain step writes the match record alone and keeps its commands. */
  lemma PlainWrites(c: Cluster, s: System, step: Step) returns (m: Option<Write>)
    requires Inv(s) && TargetsOnly(s) && IsPlain(step)
    ensures WritesAlone(s, Do(c, s, step), m)
  {
    m := None;
    if CallsBack(step) {
      if IsLive(s, step.externalId) {
        m := CallbackWrites(c, s, step);
      }
    } else if step.CompleteSignal? {
      m := CompletionWrites(c, s, step);
    } else if step.Create? {
      m := CreateWrites(c.config, s, step.rpc, step.a, step.b, step.now, step.fault);
    } else if step.InitWrite? {
      m := InitWrites(s, step.externalId, step.target, step.fault);
    } else if step.ResumeWrite? {
      m := ResumeWrites(s, step.rpc, step.fault);
    } else if step.ResumeLoad? || step.ResumeInspect? || step.CompleteLoad? || step.CompleteCheck? {
      QuietCallLinks(c, s, step);
    }
  }
}

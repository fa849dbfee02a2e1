/** Safety of whole runs under the target World profile: on both durable objects
    of every match, whatever is interleaved, lost or performed late. */
module WorldSafety {
  import opened Common
  import opened Contract
  import opened MatchEngine
  import opened EngineProgress
  import opened StoredMatch
  import opened RecordOrder
  import opened MatchCallbacks
  import opened Protocol
  import opened ProtocolInvariant
  import opened ProtocolProofs
  import opened ProtocolTheorems
  import opened ProtocolRecovery
  import opened WorldStore
  import opened WorldAgreement
  import opened WorldStorage
  import opened WorldCommit
  import opened WorldProtocol

  // -------------------------------------------------------------- the invariant

  ghost predicate LateOk(d: Durables, late: seq<Commitment>)
  {
    forall i :: 0 <= i < |late| ==> CommitmentOk(late[i]) && Timely(d, late[i])
  }

  ghost predicate WorldInv(s: WorldSystem)
  {
    && Inv(s.core) && TargetsOnly(s.core) && s.core.floating == MatchWrites(s.late)
    && AllCoherent(Data(s)) && LateOk(Data(s), s.late)
  }

  ghost predicate WorldKept(s: WorldSystem, s': WorldSystem)
  {
    WorldInv(s') && DocsAdvance(s.worlds, s'.worlds)
  }

  // ----------------------------------------------------- sequences of right calls


  lemma ApplyKeepsAll(d: Durables, call: Commitment, late: seq<Commitment>)
    requires AllCoherent(d) && CommitmentOk(call) && Timely(d, call) && LateOk(d, late)
    ensures AllCoherent(Apply(d, call)) && LateOk(Apply(d, call), late) && DocsAdvance(d.worlds, Apply(d, call).worlds)
  {
    forall id ensures Coherent(Apply(d, call), id) {
      ApplyKeeps(d, call, id);
    }
    forall i | 0 <= i < |late| ensures Timely(Apply(d, call), late[i]) {
      StaysTimely(d, call, late[i]);
    }
    ApplyAdvances(d, call);
  }

  lemma LateInTurn(d: Durables, a: seq<Commitment>, b: seq<Commitment>)
    ensures LateOk(d, a + b) <==> LateOk(d, a) && LateOk(d, b)
  {
    if LateOk(d, a + b) {
      forall i | 0 <= i < |a| ensures CommitmentOk(a[i]) && Timely(d, a[i]) { assert (a + b)[i] == a[i]; }
      forall i | 0 <= i < |b| ensures CommitmentOk(b[i]) && Timely(d, b[i]) { assert (a + b)[|a| + i] == b[i]; }
    }
  }

  lemma {:induction false} PerformedKeepsAll(d: Durables, calls: seq<Commitment>, late: seq<Commitment>)
    requires AllCoherent(d) && LateOk(d, calls) && LateOk(d, late)
    ensures AllCoherent(Performed(d, calls)) && LateOk(Performed(d, calls), late)
    ensures DocsAdvance(d.worlds, Performed(d, calls).worlds)
  {
    if calls == [] {
      forall id | id in d.worlds ensures DocBelow(d.worlds[id], d.worlds[id]) {
        DocBelowReflexive(d.worlds[id]);
      }
    } else {
      var before, last := calls[..|calls| - 1], calls[|calls| - 1];
      assert before + [last] == calls;
      LateInTurn(d, before, [last]);
      LateInTurn(d, late, [last]);
      PerformedKeepsAll(d, before, late + [last]);
      var mid := Performed(d, before);
      LateInTurn(mid, late, [last]);
      assert CommitmentOk([last][0]) && Timely(mid, [last][0]);
      ApplyKeepsAll(mid, last, late);
      DocsAdvanceTransitive(d.worlds, mid.worlds, Apply(mid, last).worlds);
    }
  }

  // -------------------------------------------------------------- every step

  lemma CallbackTargets(s: System, x: string, effect: Effect)
    requires TargetsOnly(s) && IsLive(s, x) && (effect.instance.Some? ==> effect.instance.value.target)
    ensures TargetsOnly(AfterCallback(s, x, effect))
  {
  }

  lemma CallbackStepTargets(c: Cluster, s: System, step: Step)
    requires TargetsOnly(s) && CallsBack(step) && IsLive(s, step.externalId)
    ensures TargetsOnly(Do(c, s, step))
  {
    CallbackTargets(s, step.externalId, EffectOf(c, s, step));
    StepIsCallback(c, s, step);
  }

  lemma SignalTargets(c: Cluster, s: System, rpc: nat, now: int, fault: Fault)
    requires TargetsOnly(s)
    ensures TargetsOnly(DoCompleteSignal(c, s, rpc, now, fault))
  {
    if rpc in s.rpcs && s.rpcs[rpc].CompleteRead? && IsLive(s, s.rpcs[rpc].record.externalId) {
      var call := s.rpcs[rpc];
      var x := call.record.externalId;
      var inst := s.matches[x].instance;
      if !inst.wedged {
        var effect := OnSignal(c.config, inst, s.store, s.floating, call.record.logicalId, call.record.generation, call.facts, now, fault);
        CallbackTargets(s, x, effect);
      }
    }
  }

  lemma OtherStepTargets(c: Cluster, s: System, step: Step)
    requires TargetsOnly(s) && IsPlain(step) && !CallsBack(step) && !step.CompleteSignal?
    ensures TargetsOnly(Do(c, s, step))
  {
  }

  lemma TargetsStay(c: Cluster, s: System, step: Step)
    requires TargetsOnly(s) && (IsPlain(step) || step.PlayTarget?)
    ensures TargetsOnly(Do(c, s, step))
  {
    if CallsBack(step) {
      if IsLive(s, step.externalId) {
        CallbackStepTargets(c, s, step);
      }
    } else if step.CompleteSignal? {
      SignalTargets(c, s, step.rpc, step.now, step.fault);
    } else {
      OtherStepTargets(c, s, step);
    }
  }

  /** The record that an instance holds was durable once, so a document created
      from it is about the durable match. */
  lemma HeldIsTimely(s: System, d: Durables, x: string, call: Commitment)
    requires Inv(s) && IsLive(s, x) && d.matches == s.store && CallOk(Unopened(s.matches[x].instance), call)
    ensures Timely(d, call)
  {
    assert MatchOk(s.store, x, s.matches[x]);
  }

  lemma IssuedIsAlone(before: multiset<Write>, after: multiset<Write>, m: Option<Write>)
    requires if m.None? then after == before else after == before || after == before + multiset{m.value}
    ensures Issued(before, after) == if after == before then [] else [Alone(m.value)]
  {
    if after != before {
      assert after - before == multiset{m.value};
    } else {
      assert after - before == multiset{};
    }
  }

  lemma {:induction false} QuietStepKeeps(s: WorldSystem, core: System)
    requires WorldInv(s) && Inv(core) && TargetsOnly(core) && WritesAlone(s.core, core, None)
    ensures WorldKept(s, s.(core := core, late := s.late + Issued(s.core.floating, core.floating)))
  {
    IssuedIsAlone(s.core.floating, core.floating, None);
    assert s.late + [] == s.late;
    PerformedKeepsAll(Data(s), [], s.late);
    assert Data(s.(core := core)) == Data(s);
  }

  lemma {:induction false} AloneIsLate(d: Durables, late: seq<Commitment>, w: Write, issued: seq<Commitment>)
    requires LateOk(d, late) && AloneOk(w) && (issued == [] || issued == [Alone(w)])
    ensures LateOk(d, late + issued)
    ensures MatchWrites(late + issued) == MatchWrites(late) + (if issued == [] then multiset{} else multiset{w})
  {
    LateInTurn(d, late, issued);
    MatchWritesOfBoth(late, issued);
    OneWrite(Alone(w));
  }

  lemma {:induction false} AloneMoves(d: Durables, d': Durables, w: Write, late: seq<Commitment>)
    requires AllCoherent(d) && LateOk(d, late) && AloneOk(w)
    requires d' == d || d' == d.(matches := Commit(d.matches, w))
    ensures AllCoherent(d') && LateOk(d', late) && DocsAdvance(d.worlds, d'.worlds)
  {
    ApplyKeepsAll(d, Alone(w), late);
    PerformedKeepsAll(d, [], late);
    ApplyOnMatches(d, Alone(w));
  }

  lemma {:induction false} WritingStepKeeps(s: WorldSystem, core: System, w: Write, issued: seq<Commitment>, s': WorldSystem)
    requires WorldInv(s) && Inv(core) && TargetsOnly(core) && WritesAlone(s.core, core, Some(w))
    requires issued == Issued(s.core.floating, core.floating) && s' == s.(core := core, late := s.late + issued)
    ensures WorldKept(s, s')
  {
    IssuedIsAlone(s.core.floating, core.floating, Some(w));
    AloneIsLate(Data(s), s.late, w, issued);
    AloneMoves(Data(s), Data(s'), w, s'.late);
  }

  lemma {:induction false} PlainStepKeeps(c: Cluster, s: WorldSystem, step: Step)
    requires WorldInv(s) && IsPlain(step)
    ensures WorldKept(s, DoPlain(c, s, step))
  {
    var m := PlainWrites(c, s.core, step);
    StepKeeps(c, s.core, step);
    TargetsStay(c, s.core, step);
    var core := Do(c, s.core, step);
    if m.None? {
      QuietStepKeeps(s, core);
    } else {
      WritingStepKeeps(s, core, m.value, Issued(s.core.floating, core.floating), DoPlain(c, s, step));
    }
  }

  lemma {:induction false} CallsStepKeeps(s: WorldSystem, core: System, x: string, done: seq<Commitment>, left: seq<Commitment>)
    requires WorldInv(s) && Inv(core) && TargetsOnly(core) && IsLive(s.core, x)
    requires CallsOk(Unopened(s.core.matches[x].instance), done) && CallsOk(Unopened(s.core.matches[x].instance), left)
    requires Performed(Data(s), done).matches == core.store && core.floating == s.core.floating + MatchWrites(left)
    ensures WorldKept(s, AfterCalls(s, core, done, left))
  {
    var d := Data(s);
    forall i | 0 <= i < |done| ensures CommitmentOk(done[i]) && Timely(d, done[i]) { HeldIsTimely(s.core, d, x, done[i]); }
    forall i | 0 <= i < |left| ensures CommitmentOk(left[i]) && Timely(d, left[i]) { HeldIsTimely(s.core, d, x, left[i]); }
    LateInTurn(d, s.late, left);
    PerformedKeepsAll(d, done, s.late + left);
    MatchWritesOfBoth(s.late, left);
    assert Data(AfterCalls(s, core, done, left)) == Performed(d, done);
  }

  lemma {:induction false} TargetStepKeeps(c: Cluster, s: WorldSystem, step: Step, done: seq<Commitment>, left: seq<Commitment>)
    requires WorldInv(s) && TargetEnabled(c, s, step, done, left)
    ensures WorldKept(s, DoTarget(c, s, step, done, left))
  {
    StepKeeps(c, s.core, step);
    TargetsStay(c, s.core, step);
    CallsStepKeeps(s, Do(c, s.core, step), step.externalId, done, left);
  }

  lemma {:induction false} GateStepKeeps(s: WorldSystem, x: string, done: seq<Commitment>, left: seq<Commitment>)
    requires WorldInv(s) && GateEnabled(s, x, done, left)
    ensures WorldKept(s, DoGate(s, x, done, left))
  {
    CallsStepKeeps(s, s.core, x, done, left);
  }

  lemma SystemLess(s: System, s': System, w: Write)
    requires Inv(s) && s' == s.(floating := s.floating - multiset{w})
    ensures Inv(s')
  {
    DropWriteKeeps(s, s', w);
  }

  lemma {:induction false} LateShrinks(d: Durables, late: seq<Commitment>, i: nat)
    requires LateOk(d, late) && i < |late|
    ensures LateOk(d, late[..i] + late[i + 1..]) && CommitmentOk(late[i]) && Timely(d, late[i])
  {
    LateInTurn(d, late[..i], late[i..]);
    LateInTurn(d, [late[i]], late[i + 1..]);
    assert late == late[..i] + late[i..] && late[i..] == [late[i]] + late[i + 1..];
    LateInTurn(d, late[..i], late[i + 1..]);
  }

  lemma {:induction false} LossKeepsAll(c: Cluster, s: WorldSystem, i: nat)
    requires WorldInv(s) && i < |s.late|
    ensures WorldKept(s, Without(s, i))
  {
    WithoutCore(s, i);
    LateShrinks(Data(s), s.late, i);
    if Concerns(s.late[i]) {
      SystemLess(s.core, Without(s, i).core, s.late[i].m);
    }
    PerformedKeepsAll(Data(s), [], s.late);
    assert Data(Without(s, i)) == Data(s);
  }

  lemma {:induction false} PerformanceKeepsAll(c: Cluster, s: WorldSystem, i: nat)
    requires WorldInv(s) && i < |s.late|
    ensures WorldKept(s, DoPerformLate(s, i))
  {
    var s' := DoPerformLate(s, i);
    LateShrinks(Data(s), s.late, i);
    ApplyKeepsAll(Data(s), s.late[i], Without(s, i).late);
    WithoutCore(s, i);
    ApplyOnMatches(Data(s), s.late[i]);
    assert Data(s') == Apply(Data(s), s.late[i]);
    if Concerns(s.late[i]) {
      if AdmitsCall(Data(s), s.late[i]) {
        PerformDelayedKeeps(s.core, s.late[i].m);
      } else {
        SystemLess(s.core, s'.core, s.late[i].m);
      }
    } else {
      assert s'.core == s.core;
    }
  }

  /** The invariant is inductive, and no step takes a World document backwards. */
  lemma {:induction false} WorldStepKeeps(c: Cluster, s: WorldSystem, step: WorldStep)
    requires WorldInv(s)
    ensures WorldKept(s, DoWorld(c, s, step))
  {
    NothingMoves(s);
    match step
    case Plain(p) => if IsPlain(p) { PlainStepKeeps(c, s, p); }
    case Target(p, done, left) => if TargetEnabled(c, s, p, done, left) { TargetStepKeeps(c, s, p, done, left); }
    case Gate(x, done, left) => if GateEnabled(s, x, done, left) { GateStepKeeps(s, x, done, left); }
    case PerformLate(i) => if i < |s.late| { PerformanceKeepsAll(c, s, i); }
    case LoseLate(i) => if i < |s.late| { LossKeepsAll(c, s, i); }
  }

  lemma NothingMoves(s: WorldSystem)
    requires WorldInv(s)
    ensures WorldKept(s, s)
  {
    PerformedKeepsAll(Data(s), [], []);
  }

  // ------------------------------------------------------------------ every run

  lemma {:induction false} RunWorldKeeps(c: Cluster, steps: seq<WorldStep>)
    ensures WorldInv(RunWorld(c, steps))
  {
    if steps == [] {
      EmptyIsFine();
    } else {
      RunWorldKeeps(c, steps[..|steps| - 1]);
      WorldStepKeeps(c, RunWorld(c, steps[..|steps| - 1]), steps[|steps| - 1]);
    }
  }

  lemma {:induction false} StepProjects(c: Cluster, s: WorldSystem, step: WorldStep)
    requires s.core.floating == MatchWrites(s.late)
    ensures DoWorld(c, s, step).core == Run(c, s.core, CoreSteps(c, s, step))
  {
    match step
    case Plain(p) => RunOne(c, s.core, p);
    case Target(p, _, _) => RunOne(c, s.core, p);
    case Gate(_, _, _) =>
    case PerformLate(i) => PerformanceProjects(c, s, i);
    case LoseLate(i) => if i < |s.late| { LossProjects(c, s, i); }
  }

  /** On the match records, every run under the target profile is a run of the
      fencing protocol; all its theorems hold here. */
  lemma {:induction false} ProjectionIsARun(c: Cluster, steps: seq<WorldStep>)
    ensures RunWorld(c, steps).core == Run(c, Empty, Projected(c, steps))
  {
    if steps != [] {
      var before, last := steps[..|steps| - 1], steps[|steps| - 1];
      RunWorldKeeps(c, before);
      ProjectionIsARun(c, before);
      StepProjects(c, RunWorld(c, before), last);
      RunAppends(c, Empty, Projected(c, before), CoreSteps(c, RunWorld(c, before), last));
    }
  }

  /** The state after the first `i` steps. */
  ghost function WorldAt(c: Cluster, steps: seq<WorldStep>, i: nat): WorldSystem
    requires i <= |steps|
  {
    RunWorld(c, steps[..i])
  }

  lemma {:induction false} NextWorldMoment(c: Cluster, steps: seq<WorldStep>, j: nat)
    requires 0 < j <= |steps|
    ensures WorldAt(c, steps, j) == DoWorld(c, WorldAt(c, steps, j - 1), steps[j - 1])
    ensures WorldKept(WorldAt(c, steps, j - 1), WorldAt(c, steps, j))
  {
    assert steps[..j][..j - 1] == steps[..j - 1];
    RunWorldKeeps(c, steps[..j - 1]);
    WorldStepKeeps(c, WorldAt(c, steps, j - 1), steps[j - 1]);
  }

  // ------------------------------------------------------------------- no ABA

  lemma {:induction false} WorldsAdvance(c: Cluster, steps: seq<WorldStep>, i: nat, j: nat)
    requires i <= j <= |steps|
    ensures DocsAdvance(WorldAt(c, steps, i).worlds, WorldAt(c, steps, j).worlds)
    decreases j
  {
    if i == j {
      RunWorldKeeps(c, steps[..i]);
      NothingMoves(WorldAt(c, steps, i));
    } else {
      WorldsAdvance(c, steps, i, j - 1);
      NextWorldMoment(c, steps, j);
      DocsAdvanceTransitive(WorldAt(c, steps, i).worlds, WorldAt(c, steps, j - 1).worlds, WorldAt(c, steps, j).worlds);
    }
  }

  /** A value of a World document that has been left never recurs. */
  lemma {:induction false} WorldNoAba(c: Cluster, steps: seq<WorldStep>, i: nat, j: nat, k: nat, id: string)
    requires i <= j <= k <= |steps| && id in WorldAt(c, steps, i).worlds
    requires id in WorldAt(c, steps, k).worlds && WorldAt(c, steps, k).worlds[id] == WorldAt(c, steps, i).worlds[id]
    ensures id in WorldAt(c, steps, j).worlds && WorldAt(c, steps, j).worlds[id] == WorldAt(c, steps, i).worlds[id]
  {
    WorldsAdvance(c, steps, i, j);
    WorldsAdvance(c, steps, j, k);
    DocBelowAntisymmetric(WorldAt(c, steps, i).worlds[id], WorldAt(c, steps, j).worlds[id]);
  }

  /** Although the versions of World documents are digests of values, too, one
      that storage has replaced is never admitted again. */
  lemma {:induction false} StaleWorldVersionIsNeverAdmitted(c: Cluster, steps: seq<WorldStep>, i: nat, j: nat, k: nat, w: WorldWrite)
    requires i <= j <= k <= |steps|
    requires AdmitsWorld(WorldAt(c, steps, i).worlds, w) && !AdmitsWorld(WorldAt(c, steps, j).worlds, w)
    ensures !AdmitsWorld(WorldAt(c, steps, k).worlds, w)
  {
    WorldsAdvance(c, steps, j, k);
    if w.expected.Some? && AdmitsWorld(WorldAt(c, steps, k).worlds, w) {
      WorldNoAba(c, steps, i, j, k, w.logicalId);
    }
  }

  // ---------------------------------------------------------------- agreement

  /** At every moment of every run, the World document of an incomplete match and
      its record stand at the same cursors exactly as long as no join is durable
      that the instance which created the document had not seen. */
  lemma {:induction false} AgreementExactly(c: Cluster, steps: seq<WorldStep>, id: string)
    requires var s := RunWorld(c, steps);
      id in s.worlds && id in s.core.store && s.core.store[id].snapshot.completion.None?
    ensures var s := RunWorld(c, steps);
      id in s.origins &&
      (Agreeing(s.core.store, s.worlds, id) <==>
       JoinedCount(s.core.store[id].snapshot.participants) == |s.origins[id].snapshot.events|)
  {
    RunWorldKeeps(c, steps);
    var s := RunWorld(c, steps);
    assert Coherent(Data(s), id);
    AgreementIsExact(Data(s), id);
  }

  /** Both participants had joined when the creator held this record. */
  predicate FullyJoined(e: Engine)
  {
    e.status == Ready || e.status == Active
  }

  /** If this is a completion signal, it finds a target instance that both have joined. */
  predicate GatesLate(s: WorldSystem, step: WorldStep)
  {
    step.Gate? && Serves(s, step.externalId) ==> FullyJoined(s.core.matches[step.externalId].instance.record.snapshot)
  }

  /** No completion signal finds a target instance before both have joined. */
  ghost predicate NeverEarly(c: Cluster, steps: seq<WorldStep>)
  {
    forall i :: 0 <= i < |steps| ==> GatesLate(WorldAt(c, steps, i), steps[i])
  }

  predicate FromTwo(origins: map<string, Record>, late: seq<Commitment>)
  {
    && (forall id :: id in origins ==> |origins[id].snapshot.events| == 2)
    && TwoSeen(late)
  }

  predicate TwoSeen(calls: seq<Commitment>)
  {
    forall i :: 0 <= i < |calls| && calls[i].Creates? ==> |calls[i].origin.snapshot.events| == 2
  }

  lemma TwoSeenInTurn(a: seq<Commitment>, b: seq<Commitment>)
    requires TwoSeen(a) && TwoSeen(b)
    ensures TwoSeen(a + b)
  {
  }

  lemma {:induction false} PerformedFromTwo(d: Durables, calls: seq<Commitment>)
    requires FromTwo(d.origins, []) && TwoSeen(calls)
    ensures FromTwo(Performed(d, calls).origins, [])
  {
    if calls != [] {
      PerformedFromTwo(d, calls[..|calls| - 1]);
    }
  }

  /** Whoever creates a document after both joins have happened has seen two events. */
  lemma FullyJoinedCreates(origin: Option<Record>, calls: seq<Commitment>)
    requires origin.Some? ==> Sound(origin.value.snapshot) && FullyJoined(origin.value.snapshot)
    requires CallsOk(origin, calls)
    ensures TwoSeen(calls)
  {
    forall i | 0 <= i < |calls| && calls[i].Creates? ensures |calls[i].origin.snapshot.events| == 2 {
      assert CallOk(origin, calls[i]);
    }
  }

  lemma {:induction false} CallsFromTwo(s: WorldSystem, core: System, x: string, done: seq<Commitment>, left: seq<Commitment>)
    requires WorldInv(s) && FromTwo(s.origins, s.late) && Serves(s, x)
    requires CallsOk(Unopened(s.core.matches[x].instance), done) && CallsOk(Unopened(s.core.matches[x].instance), left)
    requires Unopened(s.core.matches[x].instance).Some? ==> FullyJoined(s.core.matches[x].instance.record.snapshot)
    ensures FromTwo(AfterCalls(s, core, done, left).origins, AfterCalls(s, core, done, left).late)
  {
    assert MatchOk(s.core.store, x, s.core.matches[x]);
    FullyJoinedCreates(Unopened(s.core.matches[x].instance), done);
    FullyJoinedCreates(Unopened(s.core.matches[x].instance), left);
    PerformedFromTwo(Data(s), done);
    TwoSeenInTurn(s.late, left);
  }

  lemma {:induction false} NoCalls(s: WorldSystem, core: System)
    ensures AfterCalls(s, core, [], []) == WorldSystem(core, s.worlds, s.origins, s.late)
  {
    assert s.late + [] == s.late;
  }

  /** A target command creates nothing before both have joined: preflight refuses it. */
  lemma {:induction false} TargetFromTwo(c: Cluster, s: WorldSystem, step: Step, done: seq<Commitment>, left: seq<Commitment>)
    requires WorldInv(s) && FromTwo(s.origins, s.late) && TargetEnabled(c, s, step, done, left)
    ensures FromTwo(DoTarget(c, s, step, done, left).origins, DoTarget(c, s, step, done, left).late)
  {
    var inst := s.core.matches[step.externalId].instance;
    assert MatchOk(s.core.store, step.externalId, s.core.matches[step.externalId]);
    if Preflight(c.config, inst.engine, step.userId, step.command, step.now).PreflightRejected? {
      NoCalls(s, Do(c, s.core, step));
    } else {
      CallsFromTwo(s, Do(c, s.core, step), step.externalId, done, left);
    }
  }

  lemma {:induction false} LateFromTwo(s: WorldSystem, i: nat)
    requires FromTwo(s.origins, s.late) && i < |s.late|
    ensures FromTwo(Without(s, i).origins, Without(s, i).late)
    ensures FromTwo(DoPerformLate(s, i).origins, DoPerformLate(s, i).late)
  {
    TwoSeenInTurn(s.late[..i], s.late[i + 1..]);
  }

  lemma {:induction false} PlainFromTwo(c: Cluster, s: WorldSystem, step: Step)
    requires FromTwo(s.origins, s.late)
    ensures FromTwo(DoPlain(c, s, step).origins, DoPlain(c, s, step).late)
  {
    TwoSeenInTurn(s.late, Issued(s.core.floating, Do(c, s.core, step).floating));
  }

  lemma {:induction false} StepFromTwo(c: Cluster, s: WorldSystem, step: WorldStep)
    requires WorldInv(s) && FromTwo(s.origins, s.late) && GatesLate(s, step)
    ensures FromTwo(DoWorld(c, s, step).origins, DoWorld(c, s, step).late)
  {
    match step
    case Plain(p) => PlainFromTwo(c, s, p);
    case Target(p, done, left) => if TargetEnabled(c, s, p, done, left) { TargetFromTwo(c, s, p, done, left); }
    case Gate(x, done, left) => if GateEnabled(s, x, done, left) { CallsFromTwo(s, s.core, x, done, left); }
    case PerformLate(i) => if i < |s.late| { LateFromTwo(s, i); }
    case LoseLate(i) => if i < |s.late| { LateFromTwo(s, i); }
  }

  /** Every World document, made or under way, was created after both joins. */
  predicate CreatedLate(s: WorldSystem)
  {
    FromTwo(s.origins, s.late)
  }

  lemma {:induction false} NextCreatedLate(c: Cluster, s: WorldSystem, step: WorldStep, s': WorldSystem)
    requires WorldInv(s) && CreatedLate(s) && GatesLate(s, step) && s' == DoWorld(c, s, step)
    ensures CreatedLate(s')
  {
    StepFromTwo(c, s, step);
  }

  lemma {:induction false} RunFromTwo(c: Cluster, steps: seq<WorldStep>, i: nat)
    requires NeverEarly(c, steps) && i <= |steps|
    ensures CreatedLate(WorldAt(c, steps, i))
  {
    if i > 0 {
      RunFromTwo(c, steps, i - 1);
      RunWorldKeeps(c, steps[..i - 1]);
      NextWorldMoment(c, steps, i);
      NextCreatedLate(c, WorldAt(c, steps, i - 1), steps[i - 1], WorldAt(c, steps, i));
    }
  }

  /** Unless a completion signal reaches a target instance before both have
      joined, the two objects of every incomplete match agree at every moment of
      every run: whoever restarts from them can open the World document. */
  lemma {:induction false} RestartFindsAgreement(c: Cluster, steps: seq<WorldStep>, i: nat, id: string)
    requires NeverEarly(c, steps) && i <= |steps|
    requires var s := WorldAt(c, steps, i);
      id in s.worlds && id in s.core.store && s.core.store[id].snapshot.completion.None?
    ensures var s := WorldAt(c, steps, i); CursorsMatch(s.worlds[id].state, s.core.store[id].snapshot)
  {
    RunFromTwo(c, steps, i);
    RunWorldKeeps(c, steps[..i]);
    var s := WorldAt(c, steps, i);
    assert Coherent(Data(s), id);
    AgreementIsExact(Data(s), id);
  }
}

/** The callbacks of a target instance, as the methods of its class, are steps of
    the cluster under the target World profile
    (runtime/world_authoritative_match.go). */
module WorldRefinement {
  import opened Common
  import opened Contract
  import opened MatchEngine
  import opened StoredMatch
  import opened MatchCallbacks
  import opened MatchDelivery
  import opened MatchRuntime
  import opened MatchRefinement
  import opened Protocol
  import opened WorldStore
  import opened WorldAgreement
  import opened WorldStorage
  import opened WorldOutcome
  import opened WorldCommit
  import opened WorldProtocol

  /** The system holds this instance, over these objects. */
  ghost predicate Holds(s: WorldSystem, x: string, inst: Instance, o: Objects)
  {
    && IsLive(s.core, x) && s.core.matches[x].instance == inst && inst.target
    && Data(s) == o.data && s.late == o.late && s.core.floating == MatchWrites(o.late)
  }

  /** The system `s` after one callback of the instance `x`. */
  ghost function Became(s: WorldSystem, x: string, o: Objects, next: Option<Instance>, sent: seq<Notice>): WorldSystem
    requires IsLive(s.core, x)
  {
    WorldSystem(AfterCallback(s.core, x, Effect(next, o.data.matches, MatchWrites(o.late), sent, None, None)),
                o.data.worlds, o.data.origins, o.late)
  }

  function TargetStep(x: string, userId: string, command: Command, now: int, known: bool, answer: WorldAnswer,
                      fault: Fault, a: Objects, b: Objects): WorldStep
  {
    Target(PlayTarget(x, userId, command, now, known, answer, fault),
           if |a.done| <= |b.done| then Since(a.done, b.done) else [],
           if |a.late| <= |b.late| then Since(a.late, b.late) else [])
  }

  /** The callback concludes nothing and leaves the identity of the instance. */
  predicate OnlyBroadcasts(inst: Instance, effect: Effect)
  {
    effect.announced.None? && effect.reply.None? &&
    (effect.instance.Some? ==> effect.instance.value.logicalId == inst.logicalId && effect.instance.value.target == inst.target)
  }

  lemma CommitOnlyBroadcasts(inst: Instance, after: Engine, event: Event, store: Store, floating: multiset<Write>, fault: Fault)
    ensures OnlyBroadcasts(inst, TargetCommit(inst, after, event, store, floating, fault))
  {
  }

  lemma FreshOnlyBroadcasts(cfg: Config, inst: Instance, store: Store, floating: multiset<Write>, userId: string,
                            c: Command, answer: WorldAnswer, fault: Fault)
    ensures OnlyBroadcasts(inst, FreshTarget(cfg, inst, store, floating, userId, c, answer, fault))
  {
    if answer.WorldAccepts? {
      var (after, outcome) := ApplyCommand(cfg, inst.engine, userId, c, answer.at);
      if outcome.CommandAccepted? {
        CommitOnlyBroadcasts(inst, after, outcome.event, store, floating, if answer.admitted then fault else Dropped);
      }
    }
  }

  lemma TargetSaysNothingMore(cfg: Config, inst: Instance, store: Store, floating: multiset<Write>, userId: string,
                              c: Command, now: int, known: bool, answer: WorldAnswer, fault: Fault)
    ensures OnlyBroadcasts(inst, OnTargetCommand(cfg, inst, store, floating, userId, c, now, known, answer, fault))
  {
    FreshOnlyBroadcasts(cfg, inst, store, floating, userId, c, answer, fault);
  }

  /** On the match records it is the callback of the fencing protocol. */
  lemma {:induction false} TargetCore(c: Cluster, s: WorldSystem, x: string, userId: string, command: Command, now: int,
                                      known: bool, answer: WorldAnswer, fault: Fault, inst: Instance, a: Objects, b: Objects,
                                      next: Option<Instance>, sent: seq<Notice>)
    requires Holds(s, x, inst, a)
    requires TargetCall(c.config, inst, a, userId, command, now, known, answer, fault, b, next, sent)
    ensures Do(c, s.core, PlayTarget(x, userId, command, now, known, answer, fault)) == Became(s, x, b, next, sent).core
  {
    TargetSaysNothingMore(c.config, inst, s.core.store, s.core.floating, userId, command, now, known, answer, fault);
  }

  /** What ExecuteTargetCommand promises of its call is a step of the system. */
  lemma {:induction false} TargetCallIsAStep(c: Cluster, s: WorldSystem, x: string, userId: string, command: Command, now: int,
                                             known: bool, answer: WorldAnswer, fault: Fault, origin: Option<Record>,
                                             inst: Instance, a: Objects, b: Objects, next: Option<Instance>, sent: seq<Notice>)
    requires Holds(s, x, inst, a) && (origin.None? || origin == Unopened(inst))
    requires TargetCall(c.config, inst, a, userId, command, now, known, answer, fault, b, next, sent)
    requires Continues(origin, a, b)
    requires Preflight(c.config, inst.engine, userId, command, now).PreflightRejected? ==> b == a
    ensures DoWorld(c, s, TargetStep(x, userId, command, now, known, answer, fault, a, b)) == Became(s, x, b, next, sent)
  {
    var step := PlayTarget(x, userId, command, now, known, answer, fault);
    TargetCore(c, s, x, userId, command, now, known, answer, fault, inst, a, b, next, sent);
    CallsFit(c, s, step, origin, inst, a, b, Do(c, s.core, step));
  }

  lemma {:induction false} CallsSince(origin: Option<Record>, inst: Instance, a: Objects, b: Objects)
    requires Continues(origin, a, b) && (origin.None? || origin == Unopened(inst))
    ensures CallsOk(Unopened(inst), Since(a.done, b.done)) && CallsOk(Unopened(inst), Since(a.late, b.late))
    ensures b.late == a.late + Since(a.late, b.late)
    ensures MatchWrites(b.late) == MatchWrites(a.late) + MatchWrites(Since(a.late, b.late))
    ensures b == a ==> Since(a.done, b.done) == [] && Since(a.late, b.late) == []
  {
    MatchWritesOfBoth(a.late, Since(a.late, b.late));
  }

  /** A call whose storage calls fit the step makes this step. */
  lemma {:induction false} CallsFit(c: Cluster, s: WorldSystem, step: Step, origin: Option<Record>, inst: Instance,
                                    a: Objects, b: Objects, core: System)
    requires step.PlayTarget? && Holds(s, step.externalId, inst, a) && (origin.None? || origin == Unopened(inst))
    requires Continues(origin, a, b) && core == Do(c, s.core, step)
    requires core.store == b.data.matches && core.floating == MatchWrites(b.late)
    requires Preflight(c.config, inst.engine, step.userId, step.command, step.now).PreflightRejected? ==> b == a
    ensures DoTarget(c, s, step, Since(a.done, b.done), Since(a.late, b.late)) ==
      WorldSystem(core, b.data.worlds, b.data.origins, b.late)
  {
    CallsSince(origin, inst, a, b);
    assert TargetEnabled(c, s, step, Since(a.done, b.done), Since(a.late, b.late));
  }

  lemma NothingAdded(a: multiset<Write>, b: multiset<Write>)
    requires a == a + b
    ensures b == multiset{}
  {
    forall w: Write ensures b[w] == 0 {
      assert (a + b)[w] == a[w] + b[w];
    }
  }

  /** So is what CompletionGate promises. */
  lemma {:induction false} GateCallIsAStep(c: Cluster, s: WorldSystem, x: string, origin: Option<Record>, inst: Instance,
                                           a: Objects, b: Objects)
    requires Holds(s, x, inst, a) && (origin.None? || origin == Unopened(inst))
    requires Continues(origin, a, b) && Aside(a, b)
    ensures DoWorld(c, s, Gate(x, Since(a.done, b.done), Since(a.late, b.late))) ==
      WorldSystem(s.core, b.data.worlds, b.data.origins, b.late)
  {
    var done, left := Since(a.done, b.done), Since(a.late, b.late);
    CallsSince(origin, inst, a, b);
    NothingAdded(MatchWrites(a.late), MatchWrites(left));
    assert GateEnabled(s, x, done, left);
  }

  // ------------------------------------------------------------------ MatchLoop

  /** One realtime message with what its command meets on the way. */
  datatype TargetMessage = TargetMessage(opCode: int, size: nat, command: Option<Command>, userId: string, now: int, script: Script)

  predicate TargetPlayable(m: TargetMessage)
  {
    m.opCode == OP_CODE_COMMAND && 0 < m.size <= MAXIMUM_COMMAND_BYTES && m.command.Some?
  }

  lemma {:induction false} RunFromOneMore(c: Cluster, s: WorldSystem, steps: seq<WorldStep>, step: WorldStep)
    ensures RunFrom(c, s, steps + [step]) == DoWorld(c, RunFrom(c, s, steps), step)
  {
    assert (steps + [step])[..|steps|] == steps;
  }

  lemma {:induction false} NothingBecame(s: WorldSystem, x: string, inst: Instance, o: Objects)
    requires Holds(s, x, inst, o)
    ensures Became(s, x, o, Some(inst), []) == s
  {
    assert s.core.matches[x := Live(inst)] == s.core.matches;
  }

  lemma {:induction false} BecameHolds(s: WorldSystem, x: string, o: Objects, inst: Instance, sent: seq<Notice>)
    requires IsLive(s.core, x) && inst.target
    ensures Holds(Became(s, x, o, Some(inst), sent), x, inst, o)
  {
  }

  lemma {:induction false} BecameTwice(s: WorldSystem, x: string, o: Objects, inst: Instance, sent: seq<Notice>, o': Objects,
                                       next: Option<Instance>, more: seq<Notice>)
    requires IsLive(s.core, x) && inst.logicalId == s.core.matches[x].instance.logicalId
    ensures Became(Became(s, x, o, Some(inst), sent), x, o', next, more) == Became(s, x, o', next, sent + more)
  {
    ComposeCallbacks(s.core, x, Effect(Some(inst), o.data.matches, MatchWrites(o.late), sent, None, None),
                     Effect(next, o'.data.matches, MatchWrites(o'.late), more, None, None));
  }

  /** One command of the loop. */
  lemma {:induction false} TurnIsAStep(c: Cluster, s: WorldSystem, x: string, steps: seq<WorldStep>, m: TargetMessage,
                                       known: bool, answer: WorldAnswer, origin: Option<Record>, inst: Instance,
                                       a: Objects, b: Objects, next: Option<Instance>, sent: seq<Notice>, more: seq<Notice>)
    requires m.command.Some? && IsLive(s.core, x) && inst.target && (origin.None? || origin == Unopened(inst))
    requires inst.logicalId == s.core.matches[x].instance.logicalId
    requires RunFrom(c, s, steps) == Became(s, x, a, Some(inst), sent)
    requires TargetCall(c.config, inst, a, m.userId, m.command.value, m.now, known, answer, m.script.commitFault, b, next, more)
    requires Continues(origin, a, b)
    requires Preflight(c.config, inst.engine, m.userId, m.command.value, m.now).PreflightRejected? ==> b == a
    ensures RunFrom(c, s, steps + [TargetStep(x, m.userId, m.command.value, m.now, known, answer, m.script.commitFault, a, b)])
      == Became(s, x, b, next, sent + more)
  {
    var mid := Became(s, x, a, Some(inst), sent);
    BecameHolds(s, x, a, inst, sent);
    TargetCallIsAStep(c, mid, x, m.userId, m.command.value, m.now, known, answer, m.script.commitFault, origin, inst, a, b, next, more);
    RunFromOneMore(c, s, steps, TargetStep(x, m.userId, m.command.value, m.now, known, answer, m.script.commitFault, a, b));
    BecameTwice(s, x, a, inst, sent, b, next, more);
  }

  /** MatchLoop of a target instance: in whatever cluster it lives, the call is a
      run of target steps, with the same storage, survivor and broadcasts. */
  method MatchLoop(state: TargetMatch, objects: WorldObjects, messages: seq<TargetMessage>, tick: int, tickRate: int,
                   ghost c: Cluster, ghost s: WorldSystem, ghost x: string)
    returns (alive: bool, sent: seq<Notice>, ghost steps: seq<WorldStep>)
    requires state.Valid() && state.config == c.config && Holds(s, x, state.View(), objects.View())
    modifies state, objects
    ensures alive ==> state.Valid()
    ensures old(state.engine.completion.Some?) || GenerationExpired(tick, tickRate) ==>
      !alive && objects.View() == old(objects.View()) && sent == []
    ensures RunFrom(c, s, steps) == Became(s, x, objects.View(), if alive then Some(state.View()) else None, sent)
    ensures alive ==> Tells(old(state.record).snapshot, state.record.snapshot, sent)
  {
    sent, steps := [], [];
    NothingBecame(s, x, state.View(), objects.View());
    if state.engine.completion.Some? || GenerationExpired(tick, tickRate) {
      steps := [Plain(StopMatch(x))];
      StopIsAStep(c, s, x, state.View(), objects.View());
      return false, sent, steps;
    }
    ghost var first := state.record.snapshot;
    TellsNothing(first);
    for i := 0 to |messages|
      invariant state.Valid() && state.View().logicalId == old(state.View()).logicalId
      invariant RunFrom(c, s, steps) == Became(s, x, objects.View(), Some(state.View()), sent)
      invariant Tells(first, state.record.snapshot, sent)
    {
      var m := messages[i];
      if TargetPlayable(m) {
        ghost var a, inst, origin, before := objects.View(), state.View(), state.Origin(), state.record.snapshot;
        ghost var known, answer;
        var ending, more;
        ending, more, known, answer := state.ExecuteTargetCommand(objects, m.userId, m.command.value, m.now, m.script);
        TurnIsAStep(c, s, x, steps, m, known, answer, origin, inst, a, objects.View(),
                    if ending.Fatal? then None else Some(state.View()), sent, more);
        steps := steps + [TargetStep(x, m.userId, m.command.value, m.now, known, answer, m.script.commitFault, a, objects.View())];
        if !ending.Fatal? {
          TellsTwice(first, before, state.record.snapshot, sent, more);
        }
        sent := sent + more;
        if ending.Fatal? {
          return false, sent, steps;
        }
      }
    }
    alive := true;
  }

  lemma {:induction false} StopIsAStep(c: Cluster, s: WorldSystem, x: string, inst: Instance, o: Objects)
    requires Holds(s, x, inst, o)
    ensures RunFrom(c, s, [Plain(StopMatch(x))]) == Became(s, x, o, None, [])
  {
    RunFromOneMore(c, s, [], Plain(StopMatch(x)));
    assert [] + [Plain(StopMatch(x))] == [Plain(StopMatch(x))];
    assert s.core.floating - s.core.floating == multiset{};
    assert s.late + [] == s.late;
  }
}

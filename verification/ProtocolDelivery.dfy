/** Nothing that a live instance commits is kept from its clients: over whole runs
    of the fencing protocol every event of its record is sent, waits for the session
    that caused it, or ends the match with the completion that is announced
    (runtime/nakama_match.go). */
module ProtocolDelivery {
  import opened Common
  import opened Contract
  import opened MatchEngine
  import opened EngineProgress
  import opened StoredMatch
  import opened RecordOrder
  import opened MatchCallbacks
  import opened Protocol
  import opened ProtocolInvariant
  import opened ProtocolProofs
  import opened ProtocolTheorems
  import opened ProtocolChain

  // ------------------------------------------------------------ the two subjects

  predicate DistinctSubjects(e: Engine)
  {
    e.participants.first.authorization.claim.subjectUserId != e.participants.second.authorization.claim.subjectUserId
  }

  predicate SameClaims(e: Engine, f: Engine)
  {
    e.participants.first.authorization == f.participants.first.authorization &&
    e.participants.second.authorization == f.participants.second.authorization
  }

  lemma CommandKeepsClaims(cfg: Config, e: Engine, userId: string, c: Command, now: int)
    ensures SameClaims(e, ApplyCommand(cfg, e, userId, c, now).0)
  {
    if ApplyCommand(cfg, e, userId, c, now).1.CommandAccepted? {
      var index := CommandAccepts(cfg, e, userId, c, now);
    }
  }

  lemma AdvanceKeepsClaims(cfg: Config, e: Engine, input: Input)
    requires Advance(cfg, e, input).Some?
    ensures SameClaims(e, Advance(cfg, e, input).value)
  {
    match input
    case JoinInput(userId, authorizationId, now) =>
    case CommandInput(userId, command, now) => CommandKeepsClaims(cfg, e, userId, command, now);
    case CompleteInput(facts, now) =>
  }

  lemma {:induction false} ReplayedSubjectsDiffer(cfg: Config, a: Authorization, b: Authorization, now: int, inputs: seq<Input>)
    requires Replay(cfg, a, b, now, inputs).Some?
    ensures DistinctSubjects(Replay(cfg, a, b, now, inputs).value)
  {
    if inputs != [] {
      var before := Replay(cfg, a, b, now, inputs[..|inputs| - 1]).value;
      ReplayedSubjectsDiffer(cfg, a, b, now, inputs[..|inputs| - 1]);
      AdvanceKeepsClaims(cfg, before, inputs[|inputs| - 1]);
    }
  }

  lemma {:induction false} SubjectsDiffer(c: Cluster, steps: seq<Step>, i: nat, x: string)
    requires i <= |steps| && IsLive(At(c, steps, i), x)
    ensures DistinctSubjects(At(c, steps, i).matches[x].instance.record.snapshot)
  {
    RunKeeps(c, steps[..i]);
    var s := At(c, steps, i);
    var record := s.matches[x].instance.record;
    assert MatchOk(s.store, x, s.matches[x]);
    DurableSnapshotsAreReachable(c, steps, i, record.logicalId);
    var a, b, now, inputs :| Replay(c.config, a, b, now, inputs) == Some(s.store[record.logicalId].snapshot);
    ReplayedSubjectsDiffer(c.config, a, b, now, inputs);
    assert Below(record, s.store[record.logicalId]);
  }

  // ------------------------------------------------------------- who is told what

  /** A session belongs to one user. */
  predicate Owned(owner: string -> string, step: Step)
  {
    step.JoinMatch? ==> step.userId == owner(step.session)
  }

  predicate SeatTaken(e: Engine, userId: string)
  {
    exists p :: p in Seats(e) && p.joined && p.authorization.claim.subjectUserId == userId
  }

  /** Every join event that waits is the one of a user who has taken a seat. */
  ghost predicate Waits(owner: string -> string, inst: Instance)
  {
    forall session :: session in inst.pending ==> SeatTaken(inst.record.snapshot, owner(session))
  }

  /** The completion of which this event is the end has been announced. */
  ghost predicate Ended(answers: set<(string, Answer)>, id: string, event: Event)
  {
    exists completion: Completion :: (id, Announced(completion)) in answers && completion.body.archive != [] &&
      completion.body.archive[|completion.body.archive| - 1] == event
  }

  /** The event was sent to everybody, waits for its session, or ended the match. */
  ghost predicate Told(visible: set<(string, Notice)>, answers: set<(string, Answer)>, inst: Instance, event: Event)
  {
    || (inst.logicalId, ToAll(event)) in visible
    || event in inst.pending.Values
    || Ended(answers, inst.logicalId, event)
  }

  ghost predicate AllTold(s: System, x: string, base: nat)
  {
    IsLive(s, x) &&
    var inst := s.matches[x].instance;
    forall n :: base <= n < |inst.record.snapshot.events| ==> Told(s.visible, s.answers, inst, inst.record.snapshot.events[n])
  }

  // --------------------------------------------------------------- one callback

  function SentBy(inst: Instance, effect: Effect): set<(string, Notice)>
  {
    set notice | notice in effect.broadcast :: (inst.logicalId, notice)
  }

  function AnnouncedBy(inst: Instance, effect: Effect): set<(string, Answer)>
  {
    if effect.announced.Some? then {(inst.logicalId, Announced(effect.announced.value))} else {}
  }

  /** If the instance survives, its new events are told and no waiting one is lost. */
  ghost predicate TellsAll(owner: string -> string, inst: Instance, effect: Effect)
  {
    effect.instance.Some? ==>
      var next := effect.instance.value;
      && next.logicalId == inst.logicalId && inst.record.snapshot.events <= next.record.snapshot.events
      && (forall n :: |inst.record.snapshot.events| <= n < |next.record.snapshot.events| ==>
            Told(SentBy(inst, effect), AnnouncedBy(inst, effect), next, next.record.snapshot.events[n]))
      && (forall event :: event in inst.pending.Values ==>
            event in next.pending.Values || (inst.logicalId, ToAll(event)) in SentBy(inst, effect))
      && Waits(owner, next)
  }

  lemma SameRecordTellsAll(owner: string -> string, inst: Instance, effect: Effect)
    requires Waits(owner, inst)
    requires effect.instance.Some? ==>
               && effect.instance.value.record == inst.record && effect.instance.value.logicalId == inst.logicalId
               && effect.instance.value.pending == inst.pending
    ensures TellsAll(owner, inst, effect)
  {
  }

  lemma SeatKept(e: Engine, f: Engine, userId: string)
    requires SeatTaken(e, userId) && SameClaims(e, f)
    requires (e.participants.first.joined ==> f.participants.first.joined) && (e.participants.second.joined ==> f.participants.second.joined)
    ensures SeatTaken(f, userId)
  {
    var p :| p in Seats(e) && p.joined && p.authorization.claim.subjectUserId == userId;
    var q := if p == e.participants.first then f.participants.first else f.participants.second;
    assert q in Seats(f) && q.joined && q.authorization.claim.subjectUserId == userId;
  }

  predicate SeatsStay(e: Engine, f: Engine)
  {
    && SameClaims(e, f) && (e.participants.first.joined ==> f.participants.first.joined)
    && (e.participants.second.joined ==> f.participants.second.joined)
  }

  /** The new event of an operation is told at once. */
  lemma OneMoreTellsAll(owner: string -> string, inst: Instance, after: Engine, event: Event, effect: Effect)
    requires Waits(owner, inst) && SeatsStay(inst.record.snapshot, after)
    requires after.events == inst.record.snapshot.events + [event]
    requires effect.instance.Some? ==>
               && effect.instance.value.record.snapshot == after && effect.instance.value.logicalId == inst.logicalId
               && effect.instance.value.pending == inst.pending
               && Told(SentBy(inst, effect), AnnouncedBy(inst, effect), effect.instance.value, event)
    ensures TellsAll(owner, inst, effect)
  {
    if effect.instance.Some? {
      forall session | session in inst.pending ensures SeatTaken(after, owner(session)) {
        SeatKept(inst.record.snapshot, after, owner(session));
      }
    }
  }

  // ---------------------------------------------------------------------- joins

  /** Only a user without a seat joins afresh, and takes one. */
  lemma JoinTakesSeat(cfg: Config, e: Engine, userId: string, authorizationId: string, now: int)
    requires DistinctSubjects(e) && Join(cfg, e, userId, authorizationId, now).1.JoinAccepted?
    ensures var (after, outcome) := Join(cfg, e, userId, authorizationId, now);
      !SeatTaken(e, userId) && SeatTaken(after, userId) && SeatsStay(e, after) && after.events == e.events + [outcome.event]
  {
    var after := Join(cfg, e, userId, authorizationId, now).0;
    var q := after.participants.At(FindSlot(e, authorizationId).value);
    assert q in Seats(after) && q.joined && q.authorization.claim.subjectUserId == userId;
  }

  lemma WaitingJoin(owner: string -> string, inst: Instance, after: Engine, event: Event, session: string, next: Instance)
    requires Waits(owner, inst) && !SeatTaken(inst.record.snapshot, owner(session))
    requires SeatsStay(inst.record.snapshot, after) && SeatTaken(after, owner(session))
    requires next.record.snapshot == after && next.pending == inst.pending[session := event]
    ensures Waits(owner, next) && event in next.pending.Values
    ensures forall other :: other in inst.pending.Values ==> other in next.pending.Values
  {
    assert session !in inst.pending;
    assert next.pending[session] == event;
    forall s | s in next.pending ensures SeatTaken(after, owner(s)) {
      if s != session {
        SeatKept(inst.record.snapshot, after, owner(s));
      }
    }
    forall other | other in inst.pending.Values ensures other in next.pending.Values {
      var s :| s in inst.pending && inst.pending[s] == other;
      assert next.pending[s] == other;
    }
  }

  lemma {:induction false} JoinTellsAll(owner: string -> string, cfg: Config, store: Store, floating: multiset<Write>, x: string,
                                        inst: Instance, userId: string, authorizationId: string, session: string, now: int, fault: Fault)
    requires InstanceOk(store, x, inst) && DistinctSubjects(inst.record.snapshot) && Waits(owner, inst) && userId == owner(session)
    ensures TellsAll(owner, inst, OnJoin(cfg, inst, store, floating, userId, authorizationId, session, now, fault))
  {
    var effect := OnJoin(cfg, inst, store, floating, userId, authorizationId, session, now, fault);
    var (after, outcome) := Join(cfg, inst.engine, userId, authorizationId, now);
    if inst.wedged {
      ActiveJoinIsStale(cfg, inst.engine, userId, authorizationId, now);
    }
    if !outcome.JoinAccepted? {
      SameRecordTellsAll(owner, inst, effect);
    } else if effect.instance.Some? {
      JoinTakesSeat(cfg, inst.engine, userId, authorizationId, now);
      WaitingJoin(owner, inst, after, outcome.event, session, effect.instance.value);
    }
  }

  /** Were a session used by two users, the second join would replace the event of the
      first one, which nobody is then told of. */
  lemma SharedSessionLoses(cfg: Config, inst: Instance, store: Store, floating: multiset<Write>, userId: string,
                           authorizationId: string, session: string, now: int, fault: Fault)
    requires Join(cfg, inst.engine, userId, authorizationId, now).1.JoinAccepted? && session in inst.pending
    requires Join(cfg, inst.engine, userId, authorizationId, now).1.event != inst.pending[session]
    requires forall other :: other in inst.pending && other != session ==> inst.pending[other] != inst.pending[session]
    ensures var effect := OnJoin(cfg, inst, store, floating, userId, authorizationId, session, now, fault);
      effect.instance.Some? ==> effect.broadcast == [] && inst.pending[session] !in effect.instance.value.pending.Values
  {
  }

  lemma JoinedTellsAll(owner: string -> string, inst: Instance, store: Store, floating: multiset<Write>, session: string)
    requires Waits(owner, inst)
    ensures TellsAll(owner, inst, OnJoined(inst, store, floating, session))
  {
    var effect := OnJoined(inst, store, floating, session);
    if session in inst.pending {
      var next := effect.instance.value;
      assert ToAll(inst.pending[session]) in effect.broadcast;
      forall event | event in inst.pending.Values
        ensures event in next.pending.Values || (inst.logicalId, ToAll(event)) in SentBy(inst, effect)
      {
        var s :| s in inst.pending && inst.pending[s] == event;
        if s != session {
          assert next.pending[s] == event;
        }
      }
    }
  }

  // ------------------------------------------------------------------- commands

  lemma CommandStays(cfg: Config, e: Engine, userId: string, c: Command, now: int)
    requires ApplyCommand(cfg, e, userId, c, now).1.CommandAccepted?
    ensures var (after, outcome) := ApplyCommand(cfg, e, userId, c, now);
      SeatsStay(e, after) && after.events == e.events + [outcome.event]
  {
    var index := CommandAccepts(cfg, e, userId, c, now);
  }

  lemma {:induction false} CommandTellsAll(owner: string -> string, cfg: Config, store: Store, floating: multiset<Write>,
                                           inst: Instance, userId: string, c: Command, now: int, fault: Fault)
    requires inst.engine == inst.record.snapshot && Waits(owner, inst)
    ensures TellsAll(owner, inst, OnCommand(cfg, inst, store, floating, userId, c, now, fault))
  {
    var effect := OnCommand(cfg, inst, store, floating, userId, c, now, fault);
    var (after, outcome) := ApplyCommand(cfg, inst.engine, userId, c, now);
    if outcome.CommandAccepted? {
      CommandStays(cfg, inst.engine, userId, c, now);
      if effect.instance.Some? {
        assert ToAll(outcome.event) in effect.broadcast;
      }
      OneMoreTellsAll(owner, inst, after, outcome.event, effect);
    } else {
      SameRecordTellsAll(owner, inst, effect);
    }
  }

  lemma {:induction false} CommitTellsAll(owner: string -> string, inst: Instance, after: Engine, event: Event, store: Store,
                                          floating: multiset<Write>, fault: Fault)
    requires inst.engine == inst.record.snapshot && Waits(owner, inst) && SeatsStay(inst.engine, after)
    requires after.events == inst.engine.events + [event]
    ensures TellsAll(owner, inst, TargetCommit(inst, after, event, store, floating, fault))
  {
    var effect := TargetCommit(inst, after, event, store, floating, fault);
    if Persist(inst, after, store, floating, fault).0.Some? {
      assert ToAll(event) in effect.broadcast;
      OneMoreTellsAll(owner, inst, after, event, effect);
    } else {
      SameRecordTellsAll(owner, inst, effect);
    }
  }

  lemma {:induction false} FreshTellsAll(owner: string -> string, cfg: Config, store: Store, floating: multiset<Write>, inst: Instance,
                                         userId: string, c: Command, answer: WorldAnswer, fault: Fault)
    requires (!inst.wedged ==> inst.engine == inst.record.snapshot) && Waits(owner, inst)
    ensures TellsAll(owner, inst, FreshTarget(cfg, inst, store, floating, userId, c, answer, fault))
  {
    var effect := FreshTarget(cfg, inst, store, floating, userId, c, answer, fault);
    if !inst.wedged && answer.WorldAccepts? && ApplyCommand(cfg, inst.engine, userId, c, answer.at).1.CommandAccepted? {
      var (after, outcome) := ApplyCommand(cfg, inst.engine, userId, c, answer.at);
      CommandStays(cfg, inst.engine, userId, c, answer.at);
      CommitTellsAll(owner, inst, after, outcome.event, store, floating, if answer.admitted then fault else Dropped);
    } else {
      SameRecordTellsAll(owner, inst, effect);
    }
  }

  lemma {:induction false} TargetTellsAll(owner: string -> string, cfg: Config, store: Store, floating: multiset<Write>, inst: Instance,
                                          userId: string, c: Command, now: int, known: bool, answer: WorldAnswer, fault: Fault)
    requires (!inst.wedged ==> inst.engine == inst.record.snapshot) && Waits(owner, inst)
    ensures TellsAll(owner, inst, OnTargetCommand(cfg, inst, store, floating, userId, c, now, known, answer, fault))
  {
    if Preflight(cfg, inst.engine, userId, c, now).PreflightFresh? {
      FreshTellsAll(owner, cfg, store, floating, inst, userId, c, answer, fault);
    } else {
      SameRecordTellsAll(owner, inst, OnTargetCommand(cfg, inst, store, floating, userId, c, now, known, answer, fault));
    }
  }

  // ------------------------------------------------------------------ completion

  lemma CompleteStays(cfg: Config, e: Engine, facts: TerminalFacts, now: int) returns (event: Event)
    requires e.completion.None? && Complete(cfg, e, facts, now).1.CompletionAnswer?
    ensures var (after, outcome) := Complete(cfg, e, facts, now);
      SeatsStay(e, after) && after.events == e.events + [event] && outcome.completion.body.archive == after.events
  {
    var after := Complete(cfg, e, facts, now).0;
    event := after.events[|after.events| - 1];
    assert after.events == e.events + [event];
  }

  lemma {:induction false} EndTellsAll(owner: string -> string, inst: Instance, after: Engine, event: Event, completion: Completion,
                                       effect: Effect)
    requires Waits(owner, inst) && SeatsStay(inst.record.snapshot, after)
    requires after.events == inst.record.snapshot.events + [event] && completion.body.archive == after.events
    requires effect.instance.Some? ==>
               && effect.instance.value.record.snapshot == after && effect.instance.value.logicalId == inst.logicalId
               && effect.instance.value.pending == inst.pending && effect.announced == Some(completion)
    ensures TellsAll(owner, inst, effect)
  {
    if effect.instance.Some? {
      assert (inst.logicalId, Announced(completion)) in AnnouncedBy(inst, effect);
      OneMoreTellsAll(owner, inst, after, event, effect);
    }
  }

  predicate NewlyCompletes(cfg: Config, inst: Instance, logicalId: string, generation: nat, facts: TerminalFacts, now: int)
  {
    && Bound(inst, logicalId, generation) && inst.engine.completion.None?
    && Complete(cfg, inst.engine, facts, now).1.CompletionAnswer?
  }

  lemma {:induction false} NewSignalShape(cfg: Config, store: Store, floating: multiset<Write>, inst: Instance, logicalId: string,
                                          generation: nat, facts: TerminalFacts, now: int, fault: Fault)
    requires NewlyCompletes(cfg, inst, logicalId, generation, facts, now)
    ensures var (after, outcome) := Complete(cfg, inst.engine, facts, now);
      var effect := OnSignal(cfg, inst, store, floating, logicalId, generation, facts, now, fault);
      effect.instance.Some? ==>
        && effect.instance.value.record.snapshot == after && effect.instance.value.logicalId == inst.logicalId
        && effect.instance.value.pending == inst.pending && effect.announced == Some(outcome.completion)
  {
  }

  lemma {:induction false} OldSignalShape(cfg: Config, store: Store, floating: multiset<Write>, inst: Instance, logicalId: string,
                                          generation: nat, facts: TerminalFacts, now: int, fault: Fault)
    requires !NewlyCompletes(cfg, inst, logicalId, generation, facts, now)
    ensures OnSignal(cfg, inst, store, floating, logicalId, generation, facts, now, fault).instance == Some(inst)
  {
  }

  lemma {:induction false} SignalTellsAll(owner: string -> string, cfg: Config, store: Store, floating: multiset<Write>, inst: Instance,
                                          logicalId: string, generation: nat, facts: TerminalFacts, now: int, fault: Fault)
    requires inst.engine == inst.record.snapshot && Waits(owner, inst)
    ensures TellsAll(owner, inst, OnSignal(cfg, inst, store, floating, logicalId, generation, facts, now, fault))
  {
    var effect := OnSignal(cfg, inst, store, floating, logicalId, generation, facts, now, fault);
    if NewlyCompletes(cfg, inst, logicalId, generation, facts, now) {
      var event := CompleteStays(cfg, inst.engine, facts, now);
      var (after, outcome) := Complete(cfg, inst.engine, facts, now);
      NewSignalShape(cfg, store, floating, inst, logicalId, generation, facts, now, fault);
      EndTellsAll(owner, inst, after, event, outcome.completion, effect);
    } else {
      OldSignalShape(cfg, store, floating, inst, logicalId, generation, facts, now, fault);
      SameRecordTellsAll(owner, inst, effect);
    }
  }

  // -------------------------------------------------------------------- one step

  /** What holds of a live instance before and after each step of a run. */
  ghost predicate Delivering(owner: string -> string, s: System, x: string, base: nat)
  {
    AllTold(s, x, base) && Waits(owner, s.matches[x].instance)
  }

  lemma ToldMore(visible: set<(string, Notice)>, answers: set<(string, Answer)>, visible': set<(string, Notice)>,
                 answers': set<(string, Answer)>, inst: Instance, event: Event)
    requires Told(visible, answers, inst, event) && visible <= visible' && answers <= answers'
    ensures Told(visible', answers', inst, event)
  {
  }

  lemma {:induction false} CallbackDelivers(owner: string -> string, s: System, x: string, base: nat, effect: Effect)
    requires Delivering(owner, s, x, base) && TellsAll(owner, s.matches[x].instance, effect) && effect.instance.Some?
    ensures Delivering(owner, AfterCallback(s, x, effect), x, base)
  {
    var inst, next, t := s.matches[x].instance, effect.instance.value, AfterCallback(s, x, effect);
    assert t.visible == s.visible + SentBy(inst, effect) && t.answers == s.answers + AnnouncedBy(inst, effect);
    var events := next.record.snapshot.events;
    forall n | base <= n < |events| ensures Told(t.visible, t.answers, next, events[n]) {
      if n < |inst.record.snapshot.events| {
        assert Told(s.visible, s.answers, inst, inst.record.snapshot.events[n]);
        assert events[n] == inst.record.snapshot.events[n];
      } else {
        ToldMore(SentBy(inst, effect), AnnouncedBy(inst, effect), t.visible, t.answers, next, events[n]);
      }
    }
  }

  lemma {:induction false} SameInstanceDelivers(owner: string -> string, s: System, t: System, x: string, base: nat)
    requires Delivering(owner, s, x, base) && x in t.matches && t.matches[x] == s.matches[x]
    requires s.visible <= t.visible && s.answers <= t.answers
    ensures Delivering(owner, t, x, base)
  {
    var inst := s.matches[x].instance;
    forall n | base <= n < |inst.record.snapshot.events| ensures Told(t.visible, t.answers, inst, inst.record.snapshot.events[n]) {
      ToldMore(s.visible, s.answers, t.visible, t.answers, inst, inst.record.snapshot.events[n]);
    }
  }

  lemma {:induction false} EffectTellsAll(owner: string -> string, c: Cluster, s: System, step: Step)
    requires Inv(s) && CallsBack(step) && IsLive(s, step.externalId) && Owned(owner, step)
    requires var inst := s.matches[step.externalId].instance; Waits(owner, inst) && DistinctSubjects(inst.record.snapshot)
    ensures TellsAll(owner, s.matches[step.externalId].instance, EffectOf(c, s, step))
  {
    var x := step.externalId;
    var inst := s.matches[x].instance;
    assert MatchOk(s.store, x, s.matches[x]);
    match step {
      case JoinMatch(_, user, auth, session, now, fault) =>
        JoinTellsAll(owner, c.config, s.store, s.floating, x, inst, user, auth, session, now, fault);
      case JoinedMatch(_, session) => JoinedTellsAll(owner, inst, s.store, s.floating, session);
      case PlayCommand(_, user, command, now, fault) =>
        if inst.target {
          SameRecordTellsAll(owner, inst, Quiet(inst, s.store, s.floating));
        } else {
          CommandTellsAll(owner, c.config, s.store, s.floating, inst, user, command, now, fault);
        }
      case PlayTarget(_, user, command, now, known, answer, fault) =>
        if !inst.target {
          SameRecordTellsAll(owner, inst, Quiet(inst, s.store, s.floating));
        } else {
          TargetTellsAll(owner, c.config, s.store, s.floating, inst, user, command, now, known, answer, fault);
        }
    }
  }

  lemma {:induction false} OtherCallbackDelivers(owner: string -> string, s: System, y: string, effect: Effect, x: string, base: nat)
    requires IsLive(s, y) && x != y && Delivering(owner, s, x, base)
    ensures Delivering(owner, AfterCallback(s, y, effect), x, base)
  {
    SameInstanceDelivers(owner, s, AfterCallback(s, y, effect), x, base);
  }

  lemma {:induction false} OwnCallbackDelivers(owner: string -> string, c: Cluster, s: System, step: Step, base: nat)
    requires Inv(s) && CallsBack(step) && Owned(owner, step) && Delivering(owner, s, step.externalId, base)
    requires DistinctSubjects(s.matches[step.externalId].instance.record.snapshot)
    requires EffectOf(c, s, step).instance.Some?
    ensures Delivering(owner, AfterCallback(s, step.externalId, EffectOf(c, s, step)), step.externalId, base)
  {
    EffectTellsAll(owner, c, s, step);
    CallbackDelivers(owner, s, step.externalId, base, EffectOf(c, s, step));
  }

  lemma {:induction false} CallbackStepDelivers(owner: string -> string, c: Cluster, s: System, step: Step, x: string, base: nat)
    requires Inv(s) && CallsBack(step) && Owned(owner, step) && Delivering(owner, s, x, base)
    requires DistinctSubjects(s.matches[x].instance.record.snapshot) && IsLive(Do(c, s, step), x)
    ensures Delivering(owner, Do(c, s, step), x, base)
  {
    if IsLive(s, step.externalId) {
      StepIsCallback(c, s, step);
      var effect := EffectOf(c, s, step);
      if step.externalId != x {
        OtherCallbackDelivers(owner, s, step.externalId, effect, x, base);
      } else if effect.instance.Some? {
        OwnCallbackDelivers(owner, c, s, step, base);
      }
    }
  }

  lemma {:induction false} SignalStepDelivers(owner: string -> string, c: Cluster, s: System, rpc: nat, now: int, fault: Fault,
                                              x: string, base: nat)
    requires Inv(s) && Delivering(owner, s, x, base) && IsLive(DoCompleteSignal(c, s, rpc, now, fault), x)
    ensures Delivering(owner, DoCompleteSignal(c, s, rpc, now, fault), x, base)
  {
    var t := DoCompleteSignal(c, s, rpc, now, fault);
    if rpc in s.rpcs && s.rpcs[rpc].CompleteRead? && s.rpcs[rpc].record.externalId == x && !s.matches[x].instance.wedged {
      var record, facts, inst := s.rpcs[rpc].record, s.rpcs[rpc].facts, s.matches[x].instance;
      assert MatchOk(s.store, x, s.matches[x]);
      var effect := OnSignal(c.config, inst, s.store, s.floating, record.logicalId, record.generation, facts, now, fault);
      SignalTellsAll(owner, c.config, s.store, s.floating, inst, record.logicalId, record.generation, facts, now, fault);
      CallbackDelivers(owner, s, x, base, effect);
      SameInstanceDelivers(owner, AfterCallback(s, x, effect), t, x, base);
    } else {
      SameInstanceDelivers(owner, s, t, x, base);
    }
  }

  lemma NothingUnsaid(c: Cluster, s: System, step: Step)
    requires !CallsBack(step) && !step.CompleteSignal?
    ensures s.visible <= Do(c, s, step).visible && s.answers <= Do(c, s, step).answers
  {
  }

  lemma {:induction false} StepDelivers(owner: string -> string, c: Cluster, s: System, step: Step, x: string, base: nat)
    requires Inv(s) && Owned(owner, step) && Delivering(owner, s, x, base)
    requires DistinctSubjects(s.matches[x].instance.record.snapshot) && IsLive(Do(c, s, step), x)
    ensures Delivering(owner, Do(c, s, step), x, base)
  {
    if CallsBack(step) {
      CallbackStepDelivers(owner, c, s, step, x, base);
    } else if step.CompleteSignal? {
      SignalStepDelivers(owner, c, s, step.rpc, step.now, step.fault, x, base);
    } else {
      OthersKeepInstance(c, s, x, step);
      NothingUnsaid(c, s, step);
      SameInstanceDelivers(owner, s, Do(c, s, step), x, base);
    }
  }

  // ------------------------------------------------------------------- whole runs

  ghost predicate AllOwned(owner: string -> string, steps: seq<Step>)
  {
    forall k :: 0 <= k < |steps| ==> Owned(owner, steps[k])
  }

  /** A step that makes an instance live makes it with nothing waiting. */
  lemma NewInstance(c: Cluster, s: System, step: Step, x: string)
    requires !IsLive(s, x) && IsLive(Do(c, s, step), x)
    ensures Do(c, s, step).matches[x].instance.pending == map[]
  {
  }

  lemma {:induction false} DeliversTo(owner: string -> string, c: Cluster, s: System, step: Step, t: System, x: string, base: nat)
    requires Inv(s) && Owned(owner, step) && Delivering(owner, s, x, base) && t == Do(c, s, step)
    requires DistinctSubjects(s.matches[x].instance.record.snapshot) && IsLive(t, x)
    ensures Delivering(owner, t, x, base)
  {
    StepDelivers(owner, c, s, step, x, base);
  }

  ghost predicate LiveDistinct(s: System, x: string)
  {
    IsLive(s, x) && DistinctSubjects(s.matches[x].instance.record.snapshot)
  }

  /** One step of a run, for an instance that lives before and after it. */
  lemma {:induction false} NextDelivers(owner: string -> string, c: Cluster, steps: seq<Step>, i: nat, x: string, base: nat)
    requires 0 < i <= |steps| && Owned(owner, steps[i - 1]) && Delivering(owner, At(c, steps, i - 1), x, base)
    requires LiveDistinct(At(c, steps, i - 1), x) && IsLive(At(c, steps, i), x)
    ensures Delivering(owner, At(c, steps, i), x, base)
  {
    NextMoment(c, steps, i);
    DeliversTo(owner, c, At(c, steps, i - 1), steps[i - 1], At(c, steps, i), x, base);
  }

  ghost predicate LiveWaits(owner: string -> string, s: System, x: string)
  {
    IsLive(s, x) ==> Waits(owner, s.matches[x].instance)
  }

  lemma NothingToTell(owner: string -> string, s: System, x: string)
    requires IsLive(s, x) && LiveWaits(owner, s, x)
    ensures Delivering(owner, s, x, |s.matches[x].instance.record.snapshot.events|)
  {
  }

  lemma {:induction false} WaitsAlways(owner: string -> string, c: Cluster, steps: seq<Step>, i: nat, x: string)
    requires i <= |steps| && AllOwned(owner, steps)
    ensures LiveWaits(owner, At(c, steps, i), x)
    decreases i
  {
    if i > 0 && IsLive(At(c, steps, i), x) {
      var s := At(c, steps, i - 1);
      if IsLive(s, x) {
        WaitsAlways(owner, c, steps, i - 1, x);
        NothingToTell(owner, s, x);
        SubjectsDiffer(c, steps, i - 1, x);
        NextDelivers(owner, c, steps, i, x, |s.matches[x].instance.record.snapshot.events|);
      } else {
        NextMoment(c, steps, i);
        NewInstance(c, s, steps[i - 1], x);
      }
    }
  }

  ghost predicate LivesFrom(c: Cluster, steps: seq<Step>, i: nat, j: nat, x: string)
    requires i <= j <= |steps|
  {
    forall k :: i <= k <= j ==> IsLive(At(c, steps, k), x)
  }

  lemma {:induction false} DeliversSince(owner: string -> string, c: Cluster, steps: seq<Step>, i: nat, j: nat, x: string, base: nat)
    requires i <= j <= |steps| && AllOwned(owner, steps) && LivesFrom(c, steps, i, j, x)
    requires base == |At(c, steps, i).matches[x].instance.record.snapshot.events|
    ensures Delivering(owner, At(c, steps, j), x, base)
    decreases j
  {
    if i < j {
      DeliversSince(owner, c, steps, i, j - 1, x, base);
      SubjectsDiffer(c, steps, j - 1, x);
      NextDelivers(owner, c, steps, j, x, base);
    } else {
      WaitsAlways(owner, c, steps, i, x);
      NothingToTell(owner, At(c, steps, i), x);
    }
  }

  /** What an instance commits while it lives is sent to everybody, waits for the
      session that caused it, or is the end of an announced completion: no event is
      withheld, whatever else happens in the cluster. */
  lemma {:induction false} NothingIsWithheld(owner: string -> string, c: Cluster, steps: seq<Step>, i: nat, j: nat, x: string,
                                             n: nat)
    requires i <= j <= |steps| && AllOwned(owner, steps) && LivesFrom(c, steps, i, j, x)
    requires |At(c, steps, i).matches[x].instance.record.snapshot.events| <= n
    requires n < |At(c, steps, j).matches[x].instance.record.snapshot.events|
    ensures var s := At(c, steps, j);
      var inst := s.matches[x].instance;
      var event := inst.record.snapshot.events[n];
      || (inst.logicalId, ToAll(event)) in s.visible
      || event in inst.pending.Values
      || (exists completion: Completion :: (inst.logicalId, Announced(completion)) in s.answers && completion.body.archive != [] &&
            completion.body.archive[|completion.body.archive| - 1] == event)
  {
    DeliversSince(owner, c, steps, i, j, x, |At(c, steps, i).matches[x].instance.record.snapshot.events|);
  }
}

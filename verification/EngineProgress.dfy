/** What one accepted engine operation changes, whichever operation it is. */
module EngineProgress {
  import opened Common
  import opened Contract
  import opened EventArchive
  import opened MatchEngine
  import opened Snapshot

  datatype Input =
    | JoinInput(userId: string, authorizationId: string, now: int)
    | CommandInput(userId: string, command: Command, now: int)
    | CompleteInput(facts: TerminalFacts, now: int)

  /** The engine after a freshly accepted input; errors and replays give nothing. */
  ghost function Advance(cfg: Config, e: Engine, input: Input): Option<Engine>
  {
    match input
    case JoinInput(userId, authorizationId, now) =>
      var (after, outcome) := Join(cfg, e, userId, authorizationId, now);
      if outcome.JoinAccepted? then Some(after) else None
    case CommandInput(userId, command, now) =>
      var (after, outcome) := ApplyCommand(cfg, e, userId, command, now);
      if outcome.CommandAccepted? then Some(after) else None
    case CompleteInput(facts, now) =>
      var (after, outcome) := Complete(cfg, e, facts, now);
      if e.completion.None? && outcome.CompletionAnswer? then Some(after) else None
  }

  /** `f` is `e` after exactly one accepted engine operation. */
  ghost predicate OneStep(cfg: Config, e: Engine, f: Engine)
  {
    exists input :: Advance(cfg, e, input) == Some(f)
  }

  /** The engine that a new match becomes after these inputs, all accepted fresh. */
  ghost function Replay(cfg: Config, a: Authorization, b: Authorization, now: int, inputs: seq<Input>): Option<Engine>
  {
    if inputs == [] then NewMatch(cfg, a, b, now)
    else
      match Replay(cfg, a, b, now, inputs[..|inputs| - 1])
      case None => None
      case Some(e) => Advance(cfg, e, inputs[|inputs| - 1])
  }

  ghost predicate Reachable(cfg: Config, e: Engine)
  {
    exists a, b, now, inputs :: Replay(cfg, a, b, now, inputs) == Some(e)
  }

  lemma NewMatchIsReachable(cfg: Config, a: Authorization, b: Authorization, now: int)
    requires NewMatch(cfg, a, b, now).Some?
    ensures Reachable(cfg, NewMatch(cfg, a, b, now).value)
  {
    assert Replay(cfg, a, b, now, []) == NewMatch(cfg, a, b, now);
  }

  lemma StepIsReachable(cfg: Config, e: Engine, f: Engine)
    requires Reachable(cfg, e) && OneStep(cfg, e, f)
    ensures Reachable(cfg, f)
  {
    var a, b, now, inputs :| Replay(cfg, a, b, now, inputs) == Some(e);
    var input :| Advance(cfg, e, input) == Some(f);
    assert (inputs + [input])[..|inputs|] == inputs;
    assert Replay(cfg, a, b, now, inputs + [input]) == Some(f);
  }

  /** The part of an engine's consistency that the fencing protocol relies on. */
  predicate Sound(e: Engine)
  {
    && (e.completion.Some? <==> e.status == Completed)
    && (e.completion.Some? ==> e.terminalFacts == Some(e.completion.value.body.facts))
    && (e.status == Ready || e.status == Active ==> e.participants.first.joined && e.participants.second.joined)
    && e.version == |e.events| + 1
    && |e.events| >= JoinedCount(e.participants) + (if e.status == Active then 1 else 0)
    && (forall id :: id in e.commands ==> e.commands[id].event in e.events)
  }

  /** The two seats keep their authorizations, and their counters only rise. */
  predicate Seated(e: Engine, f: Engine)
  {
    && e.participants.first.authorization == f.participants.first.authorization
    && e.participants.second.authorization == f.participants.second.authorization
    && e.participants.first.lastSequence <= f.participants.first.lastSequence
    && e.participants.second.lastSequence <= f.participants.second.lastSequence
  }

  /** The history of `e` is kept in `f`. */
  predicate Grows(e: Engine, f: Engine)
  {
    && Seated(e, f) && e.matchId == f.matchId && e.version <= f.version && e.events <= f.events
    && (|e.events| == |f.events| ==> e == f)
    && (forall id :: id in e.commands ==> id in f.commands && f.commands[id] == e.commands[id])
  }

  lemma NewMatchIsSound(cfg: Config, a: Authorization, b: Authorization, now: int)
    requires NewMatch(cfg, a, b, now).Some?
    ensures Sound(NewMatch(cfg, a, b, now).value)
  {
  }

  /** What every accepted operation does to an engine. */
  predicate Grown(e: Engine, f: Engine)
  {
    && Sound(f) && Grows(e, f)
    && e.completion.None? && f.version == e.version + 1
    && |f.events| == |e.events| + 1 && f.events[..|e.events|] == e.events
    && f.events[|e.events|].facts.sequence == |e.events| + 1
    && f.events[|e.events|].facts.version == f.version
  }

  lemma JoinGrows(cfg: Config, e: Engine, userId: string, authorizationId: string, now: int, f: Engine)
    requires Sound(e) && Advance(cfg, e, JoinInput(userId, authorizationId, now)) == Some(f)
    ensures Grown(e, f) && f.completion.None?
    ensures Join(cfg, e, userId, authorizationId, now).0 == f && Join(cfg, e, userId, authorizationId, now).1.event in f.events
  {
  }

  lemma AcceptGrows(cfg: Config, e: Engine, index: int, c: Command, now: int, f: Engine, event: Event)
    requires Sound(e) && (e.status == Ready || e.status == Active) && c.commandId !in e.commands
    requires AcceptCommand(cfg, e, index, c, now) == (f, CommandAccepted(event))
    ensures Grown(e, f) && f.completion.None? && event in f.events
  {
    assert f.events == e.events + [event];
  }

  /** What lies between a command and its acceptance. */
  lemma CommandAccepts(cfg: Config, e: Engine, userId: string, c: Command, now: int) returns (index: int)
    requires ApplyCommand(cfg, e, userId, c, now).1.CommandAccepted?
    ensures (e.status == Ready || e.status == Active) && c.commandId !in e.commands
    ensures ApplyCommand(cfg, e, userId, c, now) == AcceptCommand(cfg, e, index, c, now)
  {
    index := Authenticate(cfg, e, userId, c).value;
  }

  lemma CommandGrows(cfg: Config, e: Engine, userId: string, c: Command, now: int, f: Engine)
    requires Sound(e) && Advance(cfg, e, CommandInput(userId, c, now)) == Some(f)
    ensures Grown(e, f) && f.completion.None?
    ensures ApplyCommand(cfg, e, userId, c, now).0 == f && ApplyCommand(cfg, e, userId, c, now).1.event in f.events
  {
    var index := CommandAccepts(cfg, e, userId, c, now);
    AcceptGrows(cfg, e, index, c, now, f, ApplyCommand(cfg, e, userId, c, now).1.event);
  }

  lemma CompleteGrows(cfg: Config, e: Engine, facts: TerminalFacts, now: int, f: Engine)
    requires Sound(e) && Advance(cfg, e, CompleteInput(facts, now)) == Some(f)
    ensures Grown(e, f) && f.completion.Some?
  {
  }

  /** An accepted operation finds an incomplete engine, appends exactly the next
      numbered event, and raises the version by one; nothing recorded is lost. */
  lemma AdvanceGrows(cfg: Config, e: Engine, input: Input)
    requires Sound(e) && Advance(cfg, e, input).Some?
    ensures var f := Advance(cfg, e, input).value;
      && Sound(f) && Grows(e, f)
      && e.completion.None? && f.version == e.version + 1
      && |f.events| == |e.events| + 1 && f.events[..|e.events|] == e.events
      && f.events[|e.events|].facts.sequence == |e.events| + 1
      && f.events[|e.events|].facts.version == f.version
      && (f.completion.Some? <==> input.CompleteInput?)
  {
    var f := Advance(cfg, e, input).value;
    match input
    case JoinInput(userId, authorizationId, now) => JoinGrows(cfg, e, userId, authorizationId, now, f);
    case CommandInput(userId, command, now) => CommandGrows(cfg, e, userId, command, now, f);
    case CompleteInput(facts, now) => CompleteGrows(cfg, e, facts, now, f);
  }

  /** A completed engine accepts nothing new. */
  lemma CompletedAcceptsNothing(cfg: Config, e: Engine, input: Input)
    requires Sound(e) && e.completion.Some?
    ensures Advance(cfg, e, input).None?
  {
  }

  /** Both participants have joined once commands flow, so no join is fresh. */
  lemma ActiveJoinIsStale(cfg: Config, e: Engine, userId: string, authorizationId: string, now: int)
    requires Sound(e) && e.status == Active
    ensures Join(cfg, e, userId, authorizationId, now).0 == e
    ensures !Join(cfg, e, userId, authorizationId, now).1.JoinAccepted?
  {
  }
}

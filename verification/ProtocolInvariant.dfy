/** What every reachable state of the fencing protocol satisfies. */
module ProtocolInvariant {
  import opened Common
  import opened Contract
  import opened MatchEngine
  import opened EngineProgress
  import opened StoredMatch
  import opened RecordOrder
  import opened MatchCallbacks
  import opened Protocol

  // ------------------------------------------------------------------- tokens

  /** A token is the right to initialize one generation of one match. It is held
      by a call whose fencing write was acknowledged, and then by the runtime
      match that this call creates, until that match writes. */
  datatype Holder = ByRpc(rpc: nat) | ByMatch(externalId: string)

  function Token(s: System, h: Holder): Option<(string, nat)>
  {
    match h
    case ByRpc(k) =>
      if k in s.rpcs && s.rpcs[k].Starting? then Some((s.rpcs[k].logicalId, s.rpcs[k].generation)) else None
    case ByMatch(x) =>
      if x !in s.matches then None
      else
        match s.matches[x]
        case Requested(logicalId, generation) => Some((logicalId, generation))
        case Loaded(record) => Some((record.logicalId, record.generation))
        case Live(_) => None
  }

  ghost predicate TokensUnique(s: System)
  {
    forall h, k :: Token(s, h).Some? && Token(s, h) == Token(s, k) ==> h == k
  }

  /** The generation of a token is not in the future, and while it is the current
      one no runtime is bound to the record. */
  predicate TokenFits(store: Store, token: (string, nat))
  {
    token.0 in store && token.1 <= store[token.0].generation &&
    (token.1 == store[token.0].generation ==> store[token.0].externalId == "")
  }

  ghost predicate TokensFit(s: System)
  {
    forall h :: Token(s, h).Some? ==> TokenFits(s.store, Token(s, h).value)
  }

  // -------------------------------------------------------------------- pieces

  predicate RecordOk(r: Record)
  {
    Sound(r.snapshot) && r.snapshot.matchId == r.logicalId && 0 < r.generation
  }

  ghost predicate StoreOk(store: Store)
  {
    forall id :: id in store ==> store[id].logicalId == id && RecordOk(store[id])
  }

  /** A write that binds a runtime to a fenced, still unbound record. */
  predicate Binds(w: Write)
  {
    w.expectation.MustMatch? && w.expectation.version.record.externalId == "" && w.record.externalId != "" &&
    w.expectation.version.record.generation == w.record.generation
  }

  ghost predicate NoToken(s: System, logicalId: string, generation: nat)
  {
    forall h :: Token(s, h) != Some((logicalId, generation))
  }

  /** A write replaces a value that was durable once by a later one of the same
      match, or creates the first value of its match. */
  predicate WriteOk(store: Store, w: Write)
  {
    RecordOk(w.record) &&
    match w.expectation
    case MustBeAbsent => true
    case MustMatch(version) =>
      version.record.logicalId == w.record.logicalId && Past(store, version.record) &&
      Below(version.record, w.record)
  }

  ghost predicate FloatingOk(s: System)
  {
    forall w :: w in s.floating ==>
      WriteOk(s.store, w) && (Binds(w) ==> NoToken(s, w.record.logicalId, w.record.generation))
  }

  predicate RpcOk(store: Store, call: Rpc)
  {
    match call
    case Starting(_, _) => true
    case ResumeRead(record) => Past(store, record) && RecordOk(record) && record.snapshot.completion.None?
    case ResumeCleared(record) => Past(store, record) && RecordOk(record) && record.snapshot.completion.None?
    case CompleteRead(record, _) => Past(store, record)
    case CompleteReplied(record, _, _) => Past(store, record)
  }

  ghost predicate RpcsOk(s: System)
  {
    forall k :: k in s.rpcs ==> RpcOk(s.store, s.rpcs[k])
  }

  /** A live instance names its own record value and its version, and remembers
      its durable engine unless a World commit went unacknowledged. */
  ghost predicate InstanceOk(store: Store, externalId: string, inst: Instance)
  {
    && Past(store, inst.record) && RecordOk(inst.record)
    && inst.record.externalId == externalId && externalId != ""
    && inst.version == Digest(inst.record)
    && inst.logicalId == inst.record.logicalId && inst.generation == inst.record.generation
    && (forall session :: session in inst.pending ==> inst.pending[session] in inst.record.snapshot.events)
    && (inst.wedged ==> inst.target)
    && (if inst.wedged then Sound(inst.engine) && inst.engine.status == Active &&
                            inst.engine.matchId == inst.logicalId &&
                            (forall id :: id in inst.record.snapshot.commands ==>
                               id in inst.engine.commands && inst.engine.commands[id] == inst.record.snapshot.commands[id])
        else inst.engine == inst.record.snapshot)
  }

  ghost predicate MatchOk(store: Store, externalId: string, m: Match)
  {
    match m
    case Requested(_, _) => true
    case Loaded(record) =>
      Past(store, record) && RecordOk(record) && record.snapshot.completion.None? && record.externalId == ""
    case Live(inst) => InstanceOk(store, externalId, inst)
  }

  ghost predicate MatchesOk(s: System)
  {
    forall x :: x in s.matches ==> x != "" && x in s.used && MatchOk(s.store, x, s.matches[x])
  }

  predicate Durable(store: Store, logicalId: string, event: Event)
  {
    logicalId in store && event in store[logicalId].snapshot.events
  }

  predicate Concluded(store: Store, logicalId: string, completion: Completion)
  {
    logicalId in store && store[logicalId].snapshot.completion == Some(completion)
  }

  ghost predicate VisibleOk(s: System)
  {
    forall id, notice :: (id, notice) in s.visible ==> Durable(s.store, id, notice.event)
  }

  ghost predicate AnswersOk(s: System)
  {
    forall id, answer :: (id, answer) in s.answers ==> Concluded(s.store, id, answer.completion)
  }

  ghost predicate Inv(s: System)
  {
    && StoreOk(s.store) && FloatingOk(s) && RpcsOk(s) && MatchesOk(s)
    && TokensFit(s) && TokensUnique(s) && VisibleOk(s) && AnswersOk(s)
  }

  // ------------------------------------------------------- one committed write

  /** A durable write keeps the storage consistent and only advances it. */
  lemma CommitAdvances(store: Store, w: Write)
    requires StoreOk(store) && WriteOk(store, w)
    ensures StoreOk(Commit(store, w)) && Advanced(store, Commit(store, w))
  {
  }

  lemma WriteKept(store: Store, store': Store, w: Write)
    requires WriteOk(store, w) && Advanced(store, store')
    ensures WriteOk(store', w)
  {
    if w.expectation.MustMatch? {
      PastKept(store, store', w.expectation.version.record);
    }
  }

  /** Tokens survive any write that binds no runtime for them. */
  lemma TokenKept(store: Store, w: Write, token: (string, nat))
    requires StoreOk(store) && WriteOk(store, w) && TokenFits(store, token)
    requires Binds(w) ==> token != (w.record.logicalId, w.record.generation)
    ensures TokenFits(Commit(store, w), token)
  {
  }

  lemma RpcKept(store: Store, store': Store, call: Rpc)
    requires RpcOk(store, call) && Advanced(store, store')
    ensures RpcOk(store', call)
  {
    if !call.Starting? {
      PastKept(store, store', call.record);
    }
  }

  lemma MatchKept(store: Store, store': Store, externalId: string, m: Match)
    requires MatchOk(store, externalId, m) && Advanced(store, store')
    ensures MatchOk(store', externalId, m)
  {
    match m
    case Requested(_, _) =>
    case Loaded(record) => PastKept(store, store', record);
    case Live(inst) => PastKept(store, store', inst.record);
  }

  lemma EventKept(store: Store, store': Store, logicalId: string, event: Event)
    requires Durable(store, logicalId, event) && Advanced(store, store')
    ensures Durable(store', logicalId, event)
  {
    var e, f := store[logicalId].snapshot.events, store'[logicalId].snapshot.events;
    assert Below(store[logicalId], store'[logicalId]);
    assert e <= f;
    var i :| 0 <= i < |e| && e[i] == event;
    assert f[i] == event;
  }

  lemma ConclusionKept(store: Store, store': Store, logicalId: string, completion: Completion)
    requires Concluded(store, logicalId, completion) && Advanced(store, store')
    ensures Concluded(store', logicalId, completion)
  {
    assert Below(store[logicalId], store'[logicalId]);
  }

  /** Everything but the tokens survives an advance of the storage. */
  lemma RestKept(s: System, store': Store)
    requires Inv(s) && Advanced(s.store, store')
    ensures forall k :: k in s.rpcs ==> RpcOk(store', s.rpcs[k])
    ensures forall x :: x in s.matches ==> MatchOk(store', x, s.matches[x])
    ensures forall w :: w in s.floating ==> WriteOk(store', w)
    ensures forall id, notice :: (id, notice) in s.visible ==> Durable(store', id, notice.event)
    ensures forall id, answer :: (id, answer) in s.answers ==> Concluded(store', id, answer.completion)
  {
    forall k | k in s.rpcs ensures RpcOk(store', s.rpcs[k]) { RpcKept(s.store, store', s.rpcs[k]); }
    forall x | x in s.matches ensures MatchOk(store', x, s.matches[x]) { MatchKept(s.store, store', x, s.matches[x]); }
    forall w | w in s.floating ensures WriteOk(store', w) { WriteKept(s.store, store', w); }
    forall id, notice | (id, notice) in s.visible ensures Durable(store', id, notice.event) {
      EventKept(s.store, store', id, notice.event);
    }
    forall id, answer | (id, answer) in s.answers ensures Concluded(store', id, answer.completion) {
      ConclusionKept(s.store, store', id, answer.completion);
    }
  }
}

/** Every step of the fencing protocol keeps the invariant and only advances
    the durable records. */
module ProtocolProofs {
  import opened Common
  import opened Contract
  import opened MatchEngine
  import opened EngineProgress
  import opened Snapshot
  import opened StoredMatch
  import opened RecordOrder
  import opened MatchCallbacks
  import opened Protocol
  import opened ProtocolInvariant

  ghost predicate Kept(s: System, s': System)
  {
    Inv(s') && Advanced(s.store, s'.store)
  }

  // ------------------------------------------------------------------ assembly

  /** The invariant of a next state, from what is new in it. */
  lemma Assemble(s: System, s': System)
    requires Inv(s) && StoreOk(s'.store) && Advanced(s.store, s'.store) && s.used <= s'.used
    requires forall k :: k in s'.rpcs ==> (k in s.rpcs && s'.rpcs[k] == s.rpcs[k]) || RpcOk(s'.store, s'.rpcs[k])
    requires forall x :: x in s'.matches ==>
               (x in s.matches && s'.matches[x] == s.matches[x]) ||
               (x != "" && x in s'.used && MatchOk(s'.store, x, s'.matches[x]))
    requires forall w :: w in s'.floating ==> w in s.floating || WriteOk(s'.store, w)
    requires forall w :: w in s'.floating && Binds(w) ==> NoToken(s', w.record.logicalId, w.record.generation)
    requires TokensFit(s') && TokensUnique(s')
    requires forall id, notice :: (id, notice) in s'.visible ==>
               (id, notice) in s.visible || Durable(s'.store, id, notice.event)
    requires forall id, answer :: (id, answer) in s'.answers ==>
               (id, answer) in s.answers || Concluded(s'.store, id, answer.completion)
    ensures Kept(s, s')
  {
    RestKept(s, s'.store);
  }

  /** No token appears and none moves: the tokens and floating writes stay right
      across one write that binds no remaining token. */
  lemma TokensShrink(s: System, s': System, w: Write)
    requires Inv(s) && WriteOk(s.store, w)
    requires forall h :: Token(s', h).Some? ==> Token(s', h) == Token(s, h)
    requires s'.store == s.store ||
             (s'.store == Commit(s.store, w) && (Binds(w) ==> NoToken(s', w.record.logicalId, w.record.generation)))
    requires forall f :: f in s'.floating ==>
               f in s.floating || (f == w && (Binds(w) ==> NoToken(s', w.record.logicalId, w.record.generation)))
    ensures TokensFit(s') && TokensUnique(s')
    ensures forall f :: f in s'.floating && Binds(f) ==> NoToken(s', f.record.logicalId, f.record.generation)
  {
    forall h | Token(s', h).Some? ensures TokenFits(s'.store, Token(s', h).value) {
      if s'.store != s.store {
        TokenKept(s.store, w, Token(s', h).value);
      }
    }
    forall h, k | Token(s', h).Some? && Token(s', h) == Token(s', k) ensures h == k {
      assert Token(s, h) == Token(s, k);
    }
    forall f | f in s'.floating && Binds(f) ensures NoToken(s', f.record.logicalId, f.record.generation) {
      if f in s.floating {
        forall h ensures Token(s', h) != Some((f.record.logicalId, f.record.generation)) {
          assert Token(s, h) != Some((f.record.logicalId, f.record.generation));
        }
      }
    }
  }

  /** One write call with any fault: the storage advances, and what floats is
      what floated before or this write. */
  lemma PerformAdvances(store: Store, floating: multiset<Write>, w: Write, fault: Fault)
    requires StoreOk(store) && WriteOk(store, w)
    ensures var (store', floating', ack) := Perform(store, floating, w, fault);
      && StoreOk(store') && Advanced(store, store') && (store' == store || store' == Commit(store, w))
      && (forall f :: f in floating' ==> f in floating || f == w)
      && WriteOk(store', w)
      && (ack.Acked? ==> ack.version == Digest(w.record) && Admits(store, w) && store' == store[w.record.logicalId := w.record])
  {
    CommitAdvances(store, w);
    var store' := Perform(store, floating, w, fault).0;
    WriteKept(store, store', w);
  }

  // ------------------------------------------------------------- tokens renewed

  /** An acknowledged fencing write hands out the only token of its generation. */
  lemma TokenIssued(s: System, s': System, w: Write, rpc: nat)
    requires Inv(s) && WriteOk(s.store, w) && Admits(s.store, w) && s'.store == Commit(s.store, w)
    requires !Binds(w) && w.record.externalId == ""
    requires w.record.logicalId in s.store ==> s.store[w.record.logicalId].generation < w.record.generation
    requires rpc !in s.rpcs || !s.rpcs[rpc].Starting?
    requires s'.matches == s.matches && s'.floating == s.floating
    requires s'.rpcs == s.rpcs[rpc := Starting(w.record.logicalId, w.record.generation)]
    ensures TokensFit(s') && TokensUnique(s')
    ensures forall f :: f in s'.floating && Binds(f) ==> NoToken(s', f.record.logicalId, f.record.generation)
  {
    var token := (w.record.logicalId, w.record.generation);
    assert Token(s', ByRpc(rpc)) == Some(token);
    forall h | h != ByRpc(rpc) && Token(s', h).Some?
      ensures Token(s', h) == Token(s, h) && TokenFits(s.store, Token(s, h).value) && Token(s, h) != Some(token) {}
    forall h | Token(s', h).Some? ensures TokenFits(s'.store, Token(s', h).value) {
      if h != ByRpc(rpc) {
        TokenKept(s.store, w, Token(s', h).value);
      }
    }
    forall h, k | Token(s', h).Some? && Token(s', h) == Token(s', k) ensures h == k {
      if h != ByRpc(rpc) && k != ByRpc(rpc) {
        assert Token(s, h) == Token(s, k);
      }
    }
    forall f | f in s'.floating && Binds(f) ensures NoToken(s', f.record.logicalId, f.record.generation) {
      assert WriteOk(s.store, f) && Past(s.store, f.expectation.version.record);
      forall h ensures Token(s', h) != Some((f.record.logicalId, f.record.generation)) {
        assert Token(s, h) != Some((f.record.logicalId, f.record.generation));
      }
    }
  }

  /** A token that moves to another holder stays the only one. */
  lemma TokenMoved(s: System, s': System, from: Holder, to: Holder)
    requires Inv(s) && s'.store == s.store && s'.floating == s.floating
    requires Token(s, from).Some? && Token(s', to) == Token(s, from) && (to != from ==> Token(s', from).None?)
    requires forall h :: h != to && Token(s', h).Some? ==> Token(s', h) == Token(s, h) && h != from
    ensures TokensFit(s') && TokensUnique(s')
    ensures forall f :: f in s'.floating && Binds(f) ==> NoToken(s', f.record.logicalId, f.record.generation)
  {
    forall h | Token(s', h).Some? ensures TokenFits(s'.store, Token(s', h).value) {
      var source := if h == to then from else h;
      assert Token(s', h) == Token(s, source);
    }
    forall h, k | Token(s', h).Some? && Token(s', h) == Token(s', k) ensures h == k {
      var one, two := if h == to then from else h, if k == to then from else k;
      assert Token(s, one) == Token(s, two);
    }
    forall f | f in s'.floating && Binds(f) ensures NoToken(s', f.record.logicalId, f.record.generation) {
      forall h ensures Token(s', h) != Some((f.record.logicalId, f.record.generation)) {
        assert Token(s, if h == to then from else h) != Some((f.record.logicalId, f.record.generation));
      }
    }
  }

  // ------------------------------------------------------------- operator calls

  /** A step that leaves the durable objects alone and creates no token. */
  lemma QuietStep(s: System, s': System)
    requires Inv(s) && s'.store == s.store && s'.floating <= s.floating && s.used <= s'.used
    requires forall k :: k in s'.rpcs ==> (k in s.rpcs && s'.rpcs[k] == s.rpcs[k]) || RpcOk(s'.store, s'.rpcs[k])
    requires forall x :: x in s'.matches ==>
               (x in s.matches && s'.matches[x] == s.matches[x]) ||
               (x != "" && x in s'.used && MatchOk(s'.store, x, s'.matches[x]))
    requires forall h :: Token(s', h).Some? ==> Token(s', h) == Token(s, h)
    requires forall id, notice :: (id, notice) in s'.visible ==>
               (id, notice) in s.visible || Durable(s'.store, id, notice.event)
    requires forall id, answer :: (id, answer) in s'.answers ==>
               (id, answer) in s.answers || Concluded(s'.store, id, answer.completion)
    ensures Kept(s, s')
  {
    forall h | Token(s', h).Some? ensures TokenFits(s'.store, Token(s', h).value) {
      assert Token(s, h).Some?;
    }
    forall h, k | Token(s', h).Some? && Token(s', h) == Token(s', k) ensures h == k {
      assert Token(s, h) == Token(s, k);
    }
    forall f | f in s'.floating && Binds(f) ensures NoToken(s', f.record.logicalId, f.record.generation) {
      assert f in s.floating;
      forall h ensures Token(s', h) != Some((f.record.logicalId, f.record.generation)) {
        assert Token(s, h) != Some((f.record.logicalId, f.record.generation));
      }
    }
    Assemble(s, s');
  }

  // ------------------------------------------------------------ shapes of steps

  /** A call of the storage that hands out no token, whatever storage made of it. */
  lemma UnacknowledgedKeeps(s: System, s': System, w: Write, fault: Fault)
    requires Inv(s) && WriteOk(s.store, w)
    requires s'.store == Perform(s.store, s.floating, w, fault).0 && s'.floating == Perform(s.store, s.floating, w, fault).1
    requires s'.used == s.used && s'.visible == s.visible && s'.answers == s.answers
    requires forall k :: k in s'.rpcs ==> k in s.rpcs && s'.rpcs[k] == s.rpcs[k]
    requires forall x :: x in s'.matches ==> x in s.matches && s'.matches[x] == s.matches[x]
    requires Binds(w) ==> NoToken(s', w.record.logicalId, w.record.generation)
    ensures Kept(s, s')
  {
    PerformAdvances(s.store, s.floating, w, fault);
    UnacknowledgedTokens(s, s', w);
    Assemble(s, s');
  }

  lemma UnacknowledgedTokens(s: System, s': System, w: Write)
    requires Inv(s) && WriteOk(s.store, w)
    requires s'.store == s.store || s'.store == Commit(s.store, w)
    requires forall f :: f in s'.floating ==> f in s.floating || f == w
    requires forall k :: k in s'.rpcs ==> k in s.rpcs && s'.rpcs[k] == s.rpcs[k]
    requires forall x :: x in s'.matches ==> x in s.matches && s'.matches[x] == s.matches[x]
    requires Binds(w) ==> NoToken(s', w.record.logicalId, w.record.generation)
    ensures TokensFit(s') && TokensUnique(s')
    ensures forall f :: f in s'.floating && Binds(f) ==> NoToken(s', f.record.logicalId, f.record.generation)
  {
    forall h | Token(s', h).Some? ensures Token(s', h) == Token(s, h) {}
    TokensShrink(s, s', w);
  }

  /** An acknowledged fencing write. */
  lemma IssuedKeeps(s: System, s': System, w: Write, rpc: nat, fault: Fault)
    requires Inv(s) && WriteOk(s.store, w) && Perform(s.store, s.floating, w, fault).2.Acked?
    requires !Binds(w) && w.record.externalId == ""
    requires w.record.logicalId in s.store ==> s.store[w.record.logicalId].generation < w.record.generation
    requires rpc !in s.rpcs || !s.rpcs[rpc].Starting?
    requires s' == s.(store := s.store[w.record.logicalId := w.record],
                      rpcs := s.rpcs[rpc := Starting(w.record.logicalId, w.record.generation)])
    ensures Kept(s, s')
  {
    PerformAdvances(s.store, s.floating, w, fault);
    TokenIssued(s, s', w, rpc);
    Assemble(s, s');
  }

  lemma AddRpcKeeps(s: System, s': System, rpc: nat, call: Rpc)
    requires Inv(s) && RpcOk(s.store, call) && !call.Starting? && s' == s.(rpcs := s.rpcs[rpc := call])
    ensures Kept(s, s')
  {
    forall h | Token(s', h).Some? ensures Token(s', h) == Token(s, h) {}
    QuietStep(s, s');
  }

  lemma AddAnswerKeeps(s: System, s': System, id: string, completion: Completion)
    requires Inv(s) && Concluded(s.store, id, completion) && s' == s.(answers := s.answers + {(id, Returned(completion))})
    ensures Kept(s, s')
  {
    QuietStep(s, s');
  }

  lemma DropRpcKeeps(s: System, s': System, rpc: nat)
    requires Inv(s) && s' == s.(rpcs := s.rpcs - {rpc})
    ensures Kept(s, s')
  {
    QuietStep(s, s');
  }

  lemma DropMatchKeeps(s: System, s': System, externalId: string)
    requires Inv(s) && s' == s.(matches := s.matches - {externalId})
    ensures Kept(s, s')
  {
    QuietStep(s, s');
  }

  lemma DropWriteKeeps(s: System, s': System, w: Write)
    requires Inv(s) && s' == s.(floating := s.floating - multiset{w})
    ensures Kept(s, s')
  {
    QuietStep(s, s');
  }

  lemma SameKeeps(s: System)
    requires Inv(s)
    ensures Kept(s, s)
  {
    QuietStep(s, s);
  }

  // --------------------------------------------------------------------- create

  lemma CreateKeeps(cfg: Config, s: System, rpc: nat, a: Authorization, b: Authorization, now: int, fault: Fault)
    requires Inv(s)
    ensures Kept(s, DoCreate(cfg, s, rpc, a, b, now, fault))
  {
    var made := NewMatch(cfg, a, b, now);
    if made.Some? && rpc !in s.rpcs {
      NewMatchIsSound(cfg, a, b, now);
      var w := Write(Record(made.value.matchId, made.value, "", 1), MustBeAbsent);
      CreatedKeeps(s, DoCreate(cfg, s, rpc, a, b, now, fault), w, rpc, fault);
    } else {
      SameKeeps(s);
    }
  }

  lemma CreatedKeeps(s: System, s': System, w: Write, rpc: nat, fault: Fault)
    requires Inv(s) && w.expectation == MustBeAbsent && RecordOk(w.record) && w.record.externalId == "" && rpc !in s.rpcs
    requires var (store, floating, ack) := Perform(s.store, s.floating, w, fault);
      s' == s.(store := store, floating := floating,
               rpcs := if ack.Acked? then s.rpcs[rpc := Starting(w.record.logicalId, w.record.generation)] else s.rpcs)
    ensures Kept(s, s')
  {
    if Perform(s.store, s.floating, w, fault).2.Acked? {
      IssuedKeeps(s, s', w, rpc, fault);
    } else {
      UnacknowledgedKeeps(s, s', w, fault);
    }
  }

  lemma MatchCreateKeeps(s: System, rpc: nat, externalId: string)
    requires Inv(s)
    ensures Kept(s, DoMatchCreate(s, rpc, externalId))
  {
    var s' := DoMatchCreate(s, rpc, externalId);
    if rpc in s.rpcs && s.rpcs[rpc].Starting? && externalId != "" && externalId !in s.used {
      assert externalId !in s.matches;
      TokenMoved(s, s', ByRpc(rpc), ByMatch(externalId));
      Assemble(s, s');
    }
  }

  /** A loaded match is unbound: its token says so while its generation is current. */
  lemma LoadedIsUnbound(c: Cluster, s: System, externalId: string)
    requires Inv(s) && externalId in s.matches && s.matches[externalId].Requested?
    requires externalId in DoInitRead(c, s, externalId).matches
    ensures var m := DoInitRead(c, s, externalId).matches[externalId];
      m.Loaded? && MatchOk(s.store, externalId, m) &&
      (m.record.logicalId, m.record.generation) == (s.matches[externalId].logicalId, s.matches[externalId].generation)
  {
    assert TokenFits(s.store, Token(s, ByMatch(externalId)).value);
  }

  lemma LoadedKeeps(s: System, s': System, externalId: string, m: Match)
    requires Inv(s) && externalId in s.matches && s.matches[externalId].Requested? && m.Loaded?
    requires MatchOk(s.store, externalId, m) && s' == s.(matches := s.matches[externalId := m])
    requires (m.record.logicalId, m.record.generation) == (s.matches[externalId].logicalId, s.matches[externalId].generation)
    ensures Kept(s, s')
  {
    TokenMoved(s, s', ByMatch(externalId), ByMatch(externalId));
    Assemble(s, s');
  }

  lemma InitReadKeeps(c: Cluster, s: System, externalId: string)
    requires Inv(s)
    ensures Kept(s, DoInitRead(c, s, externalId))
  {
    var s' := DoInitRead(c, s, externalId);
    if externalId in s.matches && s.matches[externalId].Requested? {
      if externalId in s'.matches {
        LoadedIsUnbound(c, s, externalId);
        LoadedKeeps(s, s', externalId, s'.matches[externalId]);
      } else {
        DropMatchKeeps(s, s', externalId);
      }
    } else {
      SameKeeps(s);
    }
  }

  function BindingWrite(record: Record, externalId: string): Write
  {
    Write(record.(externalId := externalId), MustMatch(Digest(record)))
  }

  /** The write of MatchInit replaces the unbound record by a bound one, and no
      other holder can initialize the same generation. */
  lemma BindingWriteOk(s: System, externalId: string)
    requires Inv(s) && externalId in s.matches && s.matches[externalId].Loaded?
    ensures var w := BindingWrite(s.matches[externalId].record, externalId);
      WriteOk(s.store, w) && Binds(w)
    ensures forall h :: h != ByMatch(externalId) ==>
      Token(s, h) != Some((s.matches[externalId].record.logicalId, s.matches[externalId].record.generation))
  {
    assert MatchOk(s.store, externalId, s.matches[externalId]);
    forall h | h != ByMatch(externalId)
      ensures Token(s, h) != Some((s.matches[externalId].record.logicalId, s.matches[externalId].record.generation))
    {
      assert Token(s, ByMatch(externalId)).Some?;
    }
  }

  /** The state of a new instance right after its acknowledged first write. */
  lemma NewInstanceOk(store: Store, record: Record, externalId: string, target: bool)
    requires RecordOk(record) && externalId != "" && StoreOk(store)
    requires record.logicalId in store && store[record.logicalId] == record.(externalId := externalId)
    ensures InstanceOk(store, externalId,
              Instance(record.snapshot, record.(externalId := externalId), Digest(record.(externalId := externalId)),
                       record.logicalId, record.generation, map[], target, false))
  {
  }

  lemma InitWriteAcknowledged(s: System, externalId: string, target: bool, fault: Fault)
    requires Inv(s) && externalId in s.matches && s.matches[externalId].Loaded?
    requires Perform(s.store, s.floating, BindingWrite(s.matches[externalId].record, externalId), fault).2.Acked?
    ensures Kept(s, DoInitWrite(s, externalId, target, fault))
  {
    var s' := DoInitWrite(s, externalId, target, fault);
    var record := s.matches[externalId].record;
    var w := BindingWrite(record, externalId);
    BindingWriteOk(s, externalId);
    PerformAdvances(s.store, s.floating, w, fault);
    NewInstanceOk(s'.store, record, externalId, target);
    assert s'.matches == s.matches[externalId := s'.matches[externalId]];
    assert Token(s', ByMatch(externalId)).None?;
    TokensShrink(s, s', w);
    Assemble(s, s');
  }

  lemma InitWriteUnacknowledged(s: System, externalId: string, target: bool, fault: Fault)
    requires Inv(s) && externalId in s.matches && s.matches[externalId].Loaded?
    requires !Perform(s.store, s.floating, BindingWrite(s.matches[externalId].record, externalId), fault).2.Acked?
    ensures Kept(s, DoInitWrite(s, externalId, target, fault))
  {
    var s' := DoInitWrite(s, externalId, target, fault);
    var w := BindingWrite(s.matches[externalId].record, externalId);
    BindingWriteOk(s, externalId);
    var (store, floating, _) := Perform(s.store, s.floating, w, fault);
    assert s' == s.(store := store, floating := floating, matches := s.matches - {externalId});
    assert Token(s', ByMatch(externalId)).None?;
    assert forall h :: Token(s', h).Some? ==> Token(s', h) == Token(s, h);
    UnacknowledgedKeeps(s, s', w, fault);
  }

  lemma InitWriteKeeps(s: System, externalId: string, target: bool, fault: Fault)
    requires Inv(s)
    ensures Kept(s, DoInitWrite(s, externalId, target, fault))
  {
    if externalId in s.matches && s.matches[externalId].Loaded? {
      assert MatchOk(s.store, externalId, s.matches[externalId]);
      if Perform(s.store, s.floating, BindingWrite(s.matches[externalId].record, externalId), fault).2.Acked? {
        InitWriteAcknowledged(s, externalId, target, fault);
      } else {
        InitWriteUnacknowledged(s, externalId, target, fault);
      }
    }
  }

  lemma ResumeLoadKeeps(c: Cluster, s: System, rpc: nat, logicalId: string)
    requires Inv(s)
    ensures Kept(s, DoResumeLoad(c, s, rpc, logicalId))
  {
    var s' := DoResumeLoad(c, s, rpc, logicalId);
    if rpc !in s.rpcs && Loads(c, s, logicalId) {
      var record := s.store[logicalId];
      if record.snapshot.completion.Some? {
        AddAnswerKeeps(s, s', logicalId, record.snapshot.completion.value);
      } else {
        AddRpcKeeps(s, s', rpc, ResumeRead(record));
      }
    } else {
      SameKeeps(s);
    }
  }

  lemma ResumeInspectKeeps(s: System, rpc: nat)
    requires Inv(s)
    ensures Kept(s, DoResumeInspect(s, rpc))
  {
    var s' := DoResumeInspect(s, rpc);
    if rpc in s.rpcs && s.rpcs[rpc].ResumeRead? {
      var record := s.rpcs[rpc].record;
      assert RpcOk(s.store, s.rpcs[rpc]);
      if record.externalId != "" && IsLive(s, record.externalId) {
        DropRpcKeeps(s, s', rpc);
      } else {
        AddRpcKeeps(s, s', rpc, ResumeCleared(record));
      }
    } else {
      SameKeeps(s);
    }
  }

  function FencingWrite(record: Record): Write
  {
    Write(record.(externalId := "", generation := record.generation + 1), MustMatch(Digest(record)))
  }

  /** The write of a resume fences every older generation. */
  lemma FencingWriteOk(s: System, rpc: nat)
    requires Inv(s) && rpc in s.rpcs && s.rpcs[rpc].ResumeCleared?
    ensures var w := FencingWrite(s.rpcs[rpc].record); WriteOk(s.store, w) && !Binds(w)
  {
    assert RpcOk(s.store, s.rpcs[rpc]);
  }

  lemma FencedKeeps(s: System, s': System, w: Write, rpc: nat, fault: Fault)
    requires Inv(s) && rpc in s.rpcs && s.rpcs[rpc].ResumeCleared? && w == FencingWrite(s.rpcs[rpc].record)
    requires var (store, floating, ack) := Perform(s.store, s.floating, w, fault);
      s' == s.(store := store, floating := floating,
               rpcs := if ack.Acked? then s.rpcs[rpc := Starting(w.record.logicalId, w.record.generation)] else s.rpcs - {rpc})
    ensures Kept(s, s')
  {
    FencingWriteOk(s, rpc);
    if Perform(s.store, s.floating, w, fault).2.Acked? {
      IssuedKeeps(s, s', w, rpc, fault);
    } else {
      UnacknowledgedKeeps(s, s', w, fault);
    }
  }

  lemma ResumeWriteKeeps(s: System, rpc: nat, fault: Fault)
    requires Inv(s)
    ensures Kept(s, DoResumeWrite(s, rpc, fault))
  {
    var s' := DoResumeWrite(s, rpc, fault);
    if rpc in s.rpcs && s.rpcs[rpc].ResumeCleared? {
      if s.rpcs[rpc].record.generation + 1 >= GENERATION_LIMIT {
        DropRpcKeeps(s, s', rpc);
      } else {
        FencedKeeps(s, s', FencingWrite(s.rpcs[rpc].record), rpc, fault);
      }
    } else {
      SameKeeps(s);
    }
  }

  lemma CompleteLoadKeeps(c: Cluster, s: System, rpc: nat, logicalId: string, facts: TerminalFacts)
    requires Inv(s)
    ensures Kept(s, DoCompleteLoad(c, s, rpc, logicalId, facts))
  {
    var s' := DoCompleteLoad(c, s, rpc, logicalId, facts);
    if s' == s {
      SameKeeps(s);
    } else {
      var record := s.store[logicalId];
      if record.snapshot.completion.Some? {
        var completion := record.snapshot.completion.value;
        assert Complete(c.config, record.snapshot, facts, completion.body.completedAt).1 == CompletionAnswer(completion);
        AddAnswerKeeps(s, s', logicalId, completion);
      } else {
        AddRpcKeeps(s, s', rpc, CompleteRead(record, facts));
      }
    }
  }

  lemma CompleteCheckKeeps(c: Cluster, s: System, rpc: nat)
    requires Inv(s)
    ensures Kept(s, DoCompleteCheck(c, s, rpc))
  {
    var s' := DoCompleteCheck(c, s, rpc);
    if rpc in s.rpcs && s.rpcs[rpc].CompleteReplied? {
      var call := s.rpcs[rpc];
      var id := call.record.logicalId;
      var done := s.(rpcs := s.rpcs - {rpc});
      DropRpcKeeps(s, done, rpc);
      if s' != done {
        AddAnswerKeeps(done, s', id, call.evidence.completion);
      }
    } else {
      SameKeeps(s);
    }
  }

  // ----------------------------------------------------------- match callbacks

  /** What a callback of a live instance may do to the storage and to itself. */
  ghost predicate EffectOk(store: Store, floating: multiset<Write>, externalId: string, inst: Instance,
                           effect: Effect, w: Write)
  {
    && WriteOk(store, w) && !Binds(w)
    && (effect.store == store || effect.store == Commit(store, w))
    && (forall f :: f in effect.floating ==> f in floating || f == w)
    && (effect.instance.Some? ==> InstanceOk(effect.store, externalId, effect.instance.value))
    && (forall notice :: notice in effect.broadcast ==> Durable(effect.store, inst.logicalId, notice.event))
    && (effect.announced.Some? ==> Concluded(effect.store, inst.logicalId, effect.announced.value))
  }

  lemma CallbackTokens(s: System, externalId: string, effect: Effect, w: Write, s': System)
    requires Inv(s) && IsLive(s, externalId)
    requires EffectOk(s.store, s.floating, externalId, s.matches[externalId].instance, effect, w)
    requires s' == AfterCallback(s, externalId, effect)
    ensures TokensFit(s') && TokensUnique(s')
    ensures forall f :: f in s'.floating && Binds(f) ==> NoToken(s', f.record.logicalId, f.record.generation)
  {
    forall h | Token(s', h).Some? ensures Token(s', h) == Token(s, h) {
      CallbackToken(s, externalId, effect, h);
    }
    TokensShrink(s, s', w);
  }

  lemma CallbackToken(s: System, externalId: string, effect: Effect, h: Holder)
    requires IsLive(s, externalId)
    ensures Token(AfterCallback(s, externalId, effect), h) == Token(s, h)
  {
  }

  lemma SameToken(s: System, s': System, h: Holder)
    requires s'.rpcs == s.rpcs && s'.matches == s.matches
    ensures Token(s', h) == Token(s, h)
  {
  }

  lemma CallbackKeeps(s: System, externalId: string, effect: Effect, w: Write)
    requires Inv(s) && IsLive(s, externalId)
    requires EffectOk(s.store, s.floating, externalId, s.matches[externalId].instance, effect, w)
    ensures Kept(s, AfterCallback(s, externalId, effect))
  {
    var s' := AfterCallback(s, externalId, effect);
    CommitAdvances(s.store, w);
    WriteKept(s.store, s'.store, w);
    CallbackTokens(s, externalId, effect, w, s');
    Assemble(s, s');
  }

  /** The write of an accepted operation: same runtime, one engine step further. */
  lemma MutationWriteOk(cfg: Config, store: Store, externalId: string, inst: Instance, input: Input)
    requires StoreOk(store) && InstanceOk(store, externalId, inst) && !inst.wedged
    requires Advance(cfg, inst.engine, input).Some?
    ensures var after := Advance(cfg, inst.engine, input).value;
      var w := Write(inst.record.(snapshot := after), MustMatch(inst.version));
      WriteOk(store, w) && !Binds(w) && RecordOk(w.record) && Grows(inst.engine, after)
  {
    AdvanceGrows(cfg, inst.engine, input);
  }

  /** Persisting an accepted operation either makes it durable and current or
      stops the instance. */
  lemma PersistOk(cfg: Config, store: Store, floating: multiset<Write>, externalId: string, inst: Instance,
                  input: Input, fault: Fault)
    requires StoreOk(store) && InstanceOk(store, externalId, inst) && !inst.wedged
    requires Advance(cfg, inst.engine, input).Some?
    ensures var after := Advance(cfg, inst.engine, input).value;
      var w := Write(inst.record.(snapshot := after), MustMatch(inst.version));
      var (next, store', floating') := Persist(inst, after, store, floating, fault);
      && (store' == store || store' == Commit(store, w))
      && (forall f :: f in floating' ==> f in floating || f == w)
      && (next.Some? ==>
            InstanceOk(store', externalId, next.value) && store' == store[inst.logicalId := w.record] &&
            next.value == inst.(engine := after, record := w.record, version := Digest(w.record)))
  {
    MutationWriteOk(cfg, store, externalId, inst, input);
    var after := Advance(cfg, inst.engine, input).value;
    var w := Write(inst.record.(snapshot := after), MustMatch(inst.version));
    PerformAdvances(store, floating, w, fault);
    assert inst.engine.events <= after.events;
  }

  /** The write that leaves a durable value as it is. */
  lemma IdentityWriteOk(store: Store, externalId: string, inst: Instance)
    requires StoreOk(store) && InstanceOk(store, externalId, inst)
    ensures WriteOk(store, Write(inst.record, MustMatch(inst.version)))
    ensures !Binds(Write(inst.record, MustMatch(inst.version)))
    ensures Commit(store, Write(inst.record, MustMatch(inst.version))) == store
  {
  }

  function MutationWrite(inst: Instance, after: Engine): Write
  {
    Write(inst.record.(snapshot := after), MustMatch(inst.version))
  }

  /** Persisting an accepted operation and broadcasting at most its event. */
  lemma AcceptedOk(cfg: Config, store: Store, floating: multiset<Write>, x: string, inst: Instance, input: Input,
                   after: Engine, event: Event, fault: Fault, effect: Effect)
    requires StoreOk(store) && InstanceOk(store, x, inst) && !inst.wedged
    requires Advance(cfg, inst.engine, input) == Some(after) && event in after.events
    requires Persist(inst, after, store, floating, fault) == (effect.instance, effect.store, effect.floating)
    requires effect.announced.None? && effect.broadcast == if effect.instance.Some? then [ToAll(event)] else []
    ensures EffectOk(store, floating, x, inst, effect, MutationWrite(inst, after))
  {
    MutationWriteOk(cfg, store, x, inst, input);
    PersistOk(cfg, store, floating, x, inst, input, fault);
  }

  lemma QuietOk(store: Store, floating: multiset<Write>, x: string, inst: Instance, effect: Effect)
    requires StoreOk(store) && InstanceOk(store, x, inst)
    requires effect.store == store && effect.floating == floating && (effect.instance.Some? ==> effect.instance.value == inst)
    requires effect.announced.None? && forall notice :: notice in effect.broadcast ==> notice.event in inst.record.snapshot.events
    ensures EffectOk(store, floating, x, inst, effect, Write(inst.record, MustMatch(inst.version)))
  {
    IdentityWriteOk(store, x, inst);
    forall notice | notice in effect.broadcast ensures Durable(store, inst.logicalId, notice.event) {
      PastEventsDurable(store, inst.record, notice.event);
    }
  }

  /** A join keeps its event for later instead of broadcasting it. */
  lemma JoinedOk(cfg: Config, store: Store, floating: multiset<Write>, x: string, inst: Instance, input: Input,
                 after: Engine, event: Event, session: string, fault: Fault, effect: Effect)
    requires StoreOk(store) && InstanceOk(store, x, inst) && !inst.wedged
    requires Advance(cfg, inst.engine, input) == Some(after) && event in after.events
    requires var (next, store', floating') := Persist(inst, after, store, floating, fault);
      && effect.store == store' && effect.floating == floating' && effect.broadcast == [] && effect.announced.None?
      && effect.instance == (if next.None? then None else Some(next.value.(pending := next.value.pending[session := event])))
    ensures EffectOk(store, floating, x, inst, effect, MutationWrite(inst, after))
  {
    MutationWriteOk(cfg, store, x, inst, input);
    PersistOk(cfg, store, floating, x, inst, input, fault);
    assert inst.engine.events <= after.events;
  }

  lemma OnJoinOk(cfg: Config, store: Store, floating: multiset<Write>, x: string, inst: Instance,
                 userId: string, authorizationId: string, session: string, now: int, fault: Fault) returns (w: Write)
    requires StoreOk(store) && InstanceOk(store, x, inst)
    ensures EffectOk(store, floating, x, inst,
                     OnJoin(cfg, inst, store, floating, userId, authorizationId, session, now, fault), w)
  {
    var effect := OnJoin(cfg, inst, store, floating, userId, authorizationId, session, now, fault);
    var (after, outcome) := Join(cfg, inst.engine, userId, authorizationId, now);
    if inst.wedged {
      ActiveJoinIsStale(cfg, inst.engine, userId, authorizationId, now);
    }
    if outcome.JoinAccepted? {
      var input := JoinInput(userId, authorizationId, now);
      assert Advance(cfg, inst.engine, input) == Some(after);
      JoinGrows(cfg, inst.engine, userId, authorizationId, now, after);
      JoinedOk(cfg, store, floating, x, inst, input, after, outcome.event, session, fault, effect);
      w := MutationWrite(inst, after);
    } else {
      QuietOk(store, floating, x, inst, effect);
      w := Write(inst.record, MustMatch(inst.version));
    }
  }

  lemma OnJoinedOk(store: Store, floating: multiset<Write>, x: string, inst: Instance, session: string)
    returns (w: Write)
    requires StoreOk(store) && InstanceOk(store, x, inst)
    ensures EffectOk(store, floating, x, inst, OnJoined(inst, store, floating, session), w)
  {
    IdentityWriteOk(store, x, inst);
    w := Write(inst.record, MustMatch(inst.version));
    if session in inst.pending {
      PastEventsDurable(store, inst.record, inst.pending[session]);
    }
  }

  /** Every event of a past value is durable now. */
  lemma PastEventsDurable(store: Store, r: Record, event: Event)
    requires Past(store, r) && event in r.snapshot.events
    ensures Durable(store, r.logicalId, event)
  {
    var e, f := r.snapshot.events, store[r.logicalId].snapshot.events;
    assert e <= f;
    var i :| 0 <= i < |e| && e[i] == event;
    assert f[i] == event;
  }

  lemma OnCommandOk(cfg: Config, store: Store, floating: multiset<Write>, x: string, inst: Instance,
                    userId: string, c: Command, now: int, fault: Fault) returns (w: Write)
    requires StoreOk(store) && InstanceOk(store, x, inst) && !inst.wedged
    ensures EffectOk(store, floating, x, inst, OnCommand(cfg, inst, store, floating, userId, c, now, fault), w)
  {
    var effect := OnCommand(cfg, inst, store, floating, userId, c, now, fault);
    var (after, outcome) := ApplyCommand(cfg, inst.engine, userId, c, now);
    match outcome
    case CommandAccepted(event) =>
      var input := CommandInput(userId, c, now);
      assert Advance(cfg, inst.engine, input) == Some(after);
      CommandGrows(cfg, inst.engine, userId, c, now, after);
      AcceptedOk(cfg, store, floating, x, inst, input, after, event, fault, effect);
      w := MutationWrite(inst, after);
    case _ =>
      QuietOk(store, floating, x, inst, effect);
      w := Write(inst.record, MustMatch(inst.version));
  }

  lemma OnSignalOk(cfg: Config, store: Store, floating: multiset<Write>, x: string, inst: Instance,
                   logicalId: string, generation: nat, facts: TerminalFacts, now: int, fault: Fault) returns (w: Write)
    requires StoreOk(store) && InstanceOk(store, x, inst) && !inst.wedged
    ensures EffectOk(store, floating, x, inst,
                     OnSignal(cfg, inst, store, floating, logicalId, generation, facts, now, fault), w)
  {
    IdentityWriteOk(store, x, inst);
    w := Write(inst.record, MustMatch(inst.version));
    var (after, outcome) := Complete(cfg, inst.engine, facts, now);
    if Bound(inst, logicalId, generation) && outcome.CompletionAnswer? && inst.engine.completion.None? {
      var input := CompleteInput(facts, now);
      assert Advance(cfg, inst.engine, input) == Some(after);
      MutationWriteOk(cfg, store, x, inst, input);
      PersistOk(cfg, store, floating, x, inst, input, fault);
      w := MutationWrite(inst, after);
    }
  }

  /** A World commit that goes unacknowledged leaves a wedged instance. */
  lemma WedgedOk(cfg: Config, store: Store, store': Store, x: string, inst: Instance, userId: string, c: Command, at: int)
    requires InstanceOk(store, x, inst) && !inst.wedged && inst.target && Past(store', inst.record)
    requires Advance(cfg, inst.engine, CommandInput(userId, c, at)).Some?
    ensures InstanceOk(store', x,
              inst.(engine := Advance(cfg, inst.engine, CommandInput(userId, c, at)).value, wedged := true))
  {
    AdvanceGrows(cfg, inst.engine, CommandInput(userId, c, at));
  }

  lemma TargetCommitOk(cfg: Config, store: Store, floating: multiset<Write>, x: string, inst: Instance,
                       userId: string, c: Command, at: int, event: Event, fault: Fault)
    requires StoreOk(store) && InstanceOk(store, x, inst) && inst.target && !inst.wedged
    requires Advance(cfg, inst.engine, CommandInput(userId, c, at)).Some?
    requires event in Advance(cfg, inst.engine, CommandInput(userId, c, at)).value.events
    ensures var after := Advance(cfg, inst.engine, CommandInput(userId, c, at)).value;
            EffectOk(store, floating, x, inst, TargetCommit(inst, after, event, store, floating, fault),
                     MutationWrite(inst, after))
  {
    var input := CommandInput(userId, c, at);
    var after := Advance(cfg, inst.engine, input).value;
    MutationWriteOk(cfg, store, x, inst, input);
    PersistOk(cfg, store, floating, x, inst, input, fault);
    var w := MutationWrite(inst, after);
    var (next, store', floating') := Persist(inst, after, store, floating, fault);
    CommitAdvances(store, w);
    if next.None? {
      PastKept(store, store', inst.record);
      WedgedOk(cfg, store, store', x, inst, userId, c, at);
    }
  }

  lemma FreshTargetOk(cfg: Config, store: Store, floating: multiset<Write>, x: string, inst: Instance,
                      userId: string, c: Command, answer: WorldAnswer, fault: Fault) returns (w: Write)
    requires StoreOk(store) && InstanceOk(store, x, inst) && inst.target
    ensures EffectOk(store, floating, x, inst, FreshTarget(cfg, inst, store, floating, userId, c, answer, fault), w)
  {
    w := Write(inst.record, MustMatch(inst.version));
    if !inst.wedged && answer.WorldAccepts? {
      w := AcceptedTargetOk(cfg, store, floating, x, inst, userId, c, answer.at, if answer.admitted then fault else Dropped);
    } else {
      IdentityWriteOk(store, x, inst);
    }
  }

  lemma AcceptedTargetOk(cfg: Config, store: Store, floating: multiset<Write>, x: string, inst: Instance,
                         userId: string, c: Command, at: int, fault: Fault) returns (w: Write)
    requires StoreOk(store) && InstanceOk(store, x, inst) && inst.target && !inst.wedged
    ensures var (after, outcome) := ApplyCommand(cfg, inst.engine, userId, c, at);
      EffectOk(store, floating, x, inst,
               if !outcome.CommandAccepted? then Quiet(inst, store, floating)
               else TargetCommit(inst, after, outcome.event, store, floating, fault), w)
  {
    var (after, outcome) := ApplyCommand(cfg, inst.engine, userId, c, at);
    if outcome.CommandAccepted? {
      assert Advance(cfg, inst.engine, CommandInput(userId, c, at)) == Some(after);
      CommandGrows(cfg, inst.engine, userId, c, at, after);
      w := MutationWrite(inst, after);
      TargetCommitOk(cfg, store, floating, x, inst, userId, c, at, outcome.event, fault);
    } else {
      w := Write(inst.record, MustMatch(inst.version));
      QuietOk(store, floating, x, inst, Quiet(inst, store, floating));
    }
  }

  lemma OnTargetCommandOk(cfg: Config, store: Store, floating: multiset<Write>, x: string, inst: Instance,
                          userId: string, c: Command, now: int, known: bool, answer: WorldAnswer, fault: Fault)
    returns (w: Write)
    requires StoreOk(store) && InstanceOk(store, x, inst) && inst.target
    ensures EffectOk(store, floating, x, inst,
                     OnTargetCommand(cfg, inst, store, floating, userId, c, now, known, answer, fault), w)
  {
    var outcome := Preflight(cfg, inst.engine, userId, c, now);
    if outcome.PreflightFresh? {
      w := FreshTargetOk(cfg, store, floating, x, inst, userId, c, answer, fault);
    } else {
      IdentityWriteOk(store, x, inst);
      w := Write(inst.record, MustMatch(inst.version));
      if outcome.PreflightReplayed? && c.commandId in inst.record.snapshot.commands {
        PastEventsDurable(store, inst.record, outcome.event);
      }
    }
  }

  /** The state right after the instance handled the signal. */
  function Signalled(mid: System, rpc: nat, record: Record, facts: TerminalFacts, reply: Option<Evidence>): System
  {
    mid.(rpcs := if reply.Some? then mid.rpcs[rpc := CompleteReplied(record, facts, reply.value)]
                 else mid.rpcs - {rpc})
  }

  lemma SignalledKeeps(mid: System, rpc: nat, record: Record, facts: TerminalFacts, reply: Option<Evidence>)
    requires Inv(mid) && Past(mid.store, record) && rpc in mid.rpcs && mid.rpcs[rpc].CompleteRead?
    ensures Kept(mid, Signalled(mid, rpc, record, facts, reply))
  {
    QuietStep(mid, Signalled(mid, rpc, record, facts, reply));
  }

  /** A signal to a live instance that handles it. */
  lemma SignalHandled(c: Cluster, s: System, rpc: nat, x: string, inst: Instance, record: Record, facts: TerminalFacts,
                      now: int, fault: Fault, effect: Effect)
    requires Inv(s) && rpc in s.rpcs && s.rpcs[rpc] == CompleteRead(record, facts)
    requires x == record.externalId && IsLive(s, x) && inst == s.matches[x].instance && !inst.wedged
    requires effect == OnSignal(c.config, inst, s.store, s.floating, record.logicalId, record.generation, facts, now, fault)
    ensures Kept(s, Signalled(AfterCallback(s, x, effect), rpc, record, facts, effect.reply))
  {
    assert MatchOk(s.store, x, s.matches[x]) && RpcOk(s.store, s.rpcs[rpc]);
    var w := OnSignalOk(c.config, s.store, s.floating, x, inst, record.logicalId, record.generation, facts, now, fault);
    CallbackKeeps(s, x, effect, w);
    var mid := AfterCallback(s, x, effect);
    PastKept(s.store, mid.store, record);
    SignalledKeeps(mid, rpc, record, facts, effect.reply);
    AdvancedTransitive(s.store, mid.store, Signalled(mid, rpc, record, facts, effect.reply).store);
  }

  lemma CompleteSignalKeeps(c: Cluster, s: System, rpc: nat, now: int, fault: Fault)
    requires Inv(s)
    ensures Kept(s, DoCompleteSignal(c, s, rpc, now, fault))
  {
    if rpc in s.rpcs && s.rpcs[rpc].CompleteRead? && IsLive(s, s.rpcs[rpc].record.externalId) {
      var record, facts := s.rpcs[rpc].record, s.rpcs[rpc].facts;
      var inst := s.matches[record.externalId].instance;
      if inst.wedged {
        DropRpcKeeps(s, DoCompleteSignal(c, s, rpc, now, fault), rpc);
      } else {
        SignalHandled(c, s, rpc, record.externalId, inst, record, facts, now, fault,
                      OnSignal(c.config, inst, s.store, s.floating, record.logicalId, record.generation, facts, now, fault));
      }
    } else {
      SameKeeps(s);
    }
  }

  lemma PerformDelayedKeeps(s: System, w: Write)
    requires Inv(s) && w in s.floating
    ensures Kept(s, s.(store := Commit(s.store, w), floating := s.floating - multiset{w}))
  {
    var s' := s.(store := Commit(s.store, w), floating := s.floating - multiset{w});
    CommitAdvances(s.store, w);
    forall h ensures Token(s', h) == Token(s, h) { SameToken(s, s', h); }
    TokensShrink(s, s', w);
    Assemble(s, s');
  }

  // ----------------------------------------------------------------- every step

  predicate CallsBack(step: Step)
  {
    step.JoinMatch? || step.JoinedMatch? || step.PlayCommand? || step.PlayTarget?
  }

  /** What the callback of this step does to its instance and the storage; a
      message of the other kind does nothing. */
  ghost function EffectOf(c: Cluster, s: System, step: Step): Effect
    requires CallsBack(step) && IsLive(s, step.externalId)
  {
    var inst := s.matches[step.externalId].instance;
    match step
    case JoinMatch(_, user, auth, session, now, fault) =>
      OnJoin(c.config, inst, s.store, s.floating, user, auth, session, now, fault)
    case JoinedMatch(_, session) => OnJoined(inst, s.store, s.floating, session)
    case PlayCommand(_, user, command, now, fault) =>
      if inst.target then Quiet(inst, s.store, s.floating)
      else OnCommand(c.config, inst, s.store, s.floating, user, command, now, fault)
    case PlayTarget(_, user, command, now, known, answer, fault) =>
      if !inst.target then Quiet(inst, s.store, s.floating)
      else OnTargetCommand(c.config, inst, s.store, s.floating, user, command, now, known, answer, fault)
  }

  lemma StepIsCallback(c: Cluster, s: System, step: Step)
    requires CallsBack(step) && IsLive(s, step.externalId)
    ensures Do(c, s, step) == AfterCallback(s, step.externalId, EffectOf(c, s, step))
  {
    var inst := s.matches[step.externalId].instance;
    assert s.matches[step.externalId := Live(inst)] == s.matches;
  }

  lemma PlayOk(c: Cluster, s: System, step: Step) returns (w: Write)
    requires Inv(s) && (step.PlayCommand? || step.PlayTarget?) && IsLive(s, step.externalId)
    ensures EffectOk(s.store, s.floating, step.externalId, s.matches[step.externalId].instance, EffectOf(c, s, step), w)
  {
    var x := step.externalId;
    var inst := s.matches[x].instance;
    assert MatchOk(s.store, x, s.matches[x]);
    if inst.target != step.PlayTarget? {
      QuietOk(s.store, s.floating, x, inst, Quiet(inst, s.store, s.floating));
      w := Write(inst.record, MustMatch(inst.version));
    } else if step.PlayCommand? {
      w := OnCommandOk(c.config, s.store, s.floating, x, inst, step.userId, step.command, step.now, step.fault);
    } else {
      w := OnTargetCommandOk(c.config, s.store, s.floating, x, inst, step.userId, step.command, step.now, step.receiptKnown,
                             step.answer, step.fault);
    }
  }

  lemma EffectOfOk(c: Cluster, s: System, step: Step) returns (w: Write)
    requires Inv(s) && CallsBack(step) && IsLive(s, step.externalId)
    ensures EffectOk(s.store, s.floating, step.externalId, s.matches[step.externalId].instance, EffectOf(c, s, step), w)
  {
    var x := step.externalId;
    var inst := s.matches[x].instance;
    assert MatchOk(s.store, x, s.matches[x]);
    if step.JoinMatch? {
      w := OnJoinOk(c.config, s.store, s.floating, x, inst, step.userId, step.authorizationId, step.session, step.now, step.fault);
    } else if step.JoinedMatch? {
      w := OnJoinedOk(s.store, s.floating, x, inst, step.session);
    } else {
      w := PlayOk(c, s, step);
    }
  }

  lemma CallbackStepKeeps(c: Cluster, s: System, step: Step)
    requires Inv(s) && CallsBack(step)
    ensures Kept(s, Do(c, s, step))
  {
    if IsLive(s, step.externalId) {
      var w := EffectOfOk(c, s, step);
      CallbackKeeps(s, step.externalId, EffectOf(c, s, step), w);
      StepIsCallback(c, s, step);
    } else {
      SameKeeps(s);
    }
  }

  lemma CallStepKeeps(c: Cluster, s: System, step: Step)
    requires Inv(s) && (step.Create? || step.ResumeLoad? || step.ResumeInspect? || step.ResumeWrite? ||
                        step.CompleteLoad? || step.CompleteSignal? || step.CompleteCheck?)
    ensures Kept(s, Do(c, s, step))
  {
    match step
    case Create(rpc, a, b, now, fault) => CreateKeeps(c.config, s, rpc, a, b, now, fault);
    case ResumeLoad(rpc, id) => ResumeLoadKeeps(c, s, rpc, id);
    case ResumeInspect(rpc) => ResumeInspectKeeps(s, rpc);
    case ResumeWrite(rpc, fault) => ResumeWriteKeeps(s, rpc, fault);
    case CompleteLoad(rpc, id, facts) => CompleteLoadKeeps(c, s, rpc, id, facts);
    case CompleteSignal(rpc, now, fault) => CompleteSignalKeeps(c, s, rpc, now, fault);
    case CompleteCheck(rpc) => CompleteCheckKeeps(c, s, rpc);
  }

  lemma LossKeeps(c: Cluster, s: System, step: Step)
    requires Inv(s) && (step.LoseDelayed? || step.AbandonRpc? || step.StopMatch?)
    ensures Kept(s, Do(c, s, step))
  {
    match step
    case LoseDelayed(w) => DropWriteKeeps(s, Do(c, s, step), w);
    case AbandonRpc(rpc) => DropRpcKeeps(s, Do(c, s, step), rpc);
    case StopMatch(x) => DropMatchKeeps(s, Do(c, s, step), x);
  }

  /** The invariant is inductive and no step takes a durable record backwards. */
  lemma StepKeeps(c: Cluster, s: System, step: Step)
    requires Inv(s)
    ensures Inv(Do(c, s, step)) && Advanced(s.store, Do(c, s, step).store)
  {
    if step.MatchCreate? {
      MatchCreateKeeps(s, step.rpc, step.externalId);
    } else if step.InitRead? {
      InitReadKeeps(c, s, step.externalId);
    } else if step.InitWrite? {
      InitWriteKeeps(s, step.externalId, step.target, step.fault);
    } else if step.JoinMatch? || step.JoinedMatch? || step.PlayCommand? || step.PlayTarget? {
      CallbackStepKeeps(c, s, step);
    } else if step.PerformDelayed? {
      if step.write in s.floating {
        PerformDelayedKeeps(s, step.write);
      }
    } else if step.LoseDelayed? || step.AbandonRpc? || step.StopMatch? {
      LossKeeps(c, s, step);
    } else {
      CallStepKeeps(c, s, step);
    }
  }
}

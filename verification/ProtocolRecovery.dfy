/** The cluster does not lose a match: every durable record restores, and a match
    without a live runtime can always be resumed. */
module ProtocolRecovery {
  import opened Common
  import opened Contract
  import opened MatchEngine
  import opened EngineProgress
  import opened Snapshot
  import opened SnapshotReplay
  import opened StoredMatch
  import opened RecordOrder
  import opened MatchCallbacks
  import opened Protocol
  import opened ProtocolInvariant
  import opened ProtocolProofs
  import opened ProtocolTheorems
  import opened ProtocolChain

  /** Whatever was interleaved or lost, each durable record loads: its snapshot
      passes the validation of every server with the same configuration. */
  lemma {:induction false} EveryDurableRecordLoads(c: Cluster, steps: seq<Step>, id: string)
    requires Genuine(c) && id in Run(c, Empty, steps).store
    ensures Loads(c, Run(c, Empty, steps), id)
  {
    assert steps[..|steps|] == steps;
    DurableSnapshotsAreReachable(c, steps, |steps|, id);
    RestorableIffReachable(c.config, Run(c, Empty, steps).store[id].snapshot);
    RunKeeps(c, steps);
  }

  // --------------------------------------------------------------------- resume

  ghost function Plan(rpc: nat, logicalId: string, externalId: string): seq<Step>
  {
    [ResumeLoad(rpc, logicalId), ResumeInspect(rpc), ResumeWrite(rpc, Reliable), MatchCreate(rpc, externalId),
     InitRead(externalId), InitWrite(externalId, false, Reliable)]
  }

  lemma {:induction false} RunSplit(c: Cluster, s: System, one: seq<Step>, step: Step)
    ensures Run(c, s, one + [step]) == Do(c, Run(c, s, one), step)
  {
    assert (one + [step])[..|one|] == one;
  }

  predicate Resumable(c: Cluster, s: System, rpc: nat, id: string, x: string)
  {
    && Loads(c, s, id) && s.store[id].logicalId == id && s.store[id].snapshot.completion.None?
    && s.store[id].generation + 1 < GENERATION_LIMIT
    && !IsLive(s, s.store[id].externalId)
    && rpc !in s.rpcs && x != "" && x !in s.used && x !in s.matches
  }

  /** The first half: the call fences the old generation. */
  lemma {:induction false} ResumeFences(c: Cluster, s: System, rpc: nat, id: string, x: string)
    requires Resumable(c, s, rpc, id, x)
    ensures var record := s.store[id];
      var updated := record.(externalId := "", generation := record.generation + 1);
      Run(c, s, Plan(rpc, id, x)[..3]) ==
        s.(store := s.store[id := updated], rpcs := s.rpcs[rpc := Starting(id, updated.generation)])
  {
    var record := s.store[id];
    var one := s.(rpcs := s.rpcs[rpc := ResumeRead(record)]);
    var two := s.(rpcs := s.rpcs[rpc := ResumeCleared(record)]);
    RunSplit(c, s, [], ResumeLoad(rpc, id));
    RunSplit(c, s, [ResumeLoad(rpc, id)], ResumeInspect(rpc));
    RunSplit(c, s, [ResumeLoad(rpc, id), ResumeInspect(rpc)], ResumeWrite(rpc, Reliable));
    assert Run(c, s, [ResumeLoad(rpc, id)]) == one;
    assert one.rpcs[rpc := ResumeCleared(record)] == two.rpcs;
    assert Run(c, s, [ResumeLoad(rpc, id), ResumeInspect(rpc)]) == two;
    assert Plan(rpc, id, x)[..3] == [ResumeLoad(rpc, id), ResumeInspect(rpc)] + [ResumeWrite(rpc, Reliable)];
    assert two.rpcs[rpc := Starting(id, record.generation + 1)] == s.rpcs[rpc := Starting(id, record.generation + 1)];
  }

  /** The second half: a runtime initializes from the fenced record. */
  lemma {:induction false} InitBinds(c: Cluster, s: System, rpc: nat, id: string, x: string)
    requires rpc in s.rpcs && x != "" && x !in s.used && x !in s.matches
    requires Loads(c, s, id) && s.store[id].logicalId == id && s.store[id].snapshot.completion.None?
    requires s.rpcs[rpc] == Starting(id, s.store[id].generation)
    ensures var t := Run(c, s, [MatchCreate(rpc, x), InitRead(x), InitWrite(x, false, Reliable)]);
      && Current(t, x) && t.store == s.store[id := s.store[id].(externalId := x)]
      && t.matches[x].instance.logicalId == id && t.matches[x].instance.engine == s.store[id].snapshot
  {
    var record := s.store[id];
    var create, read, write := MatchCreate(rpc, x), InitRead(x), InitWrite(x, false, Reliable);
    RunSplit(c, s, [], create);
    RunSplit(c, s, [create], read);
    RunSplit(c, s, [create, read], write);
    assert [create, read] == [create] + [read] && [create, read, write] == [create, read] + [write];
    var one := Run(c, s, [create]);
    assert one.matches[x] == Requested(id, record.generation) && one.store == s.store;
    var two := Run(c, s, [create, read]);
    assert two.matches[x] == Loaded(record) && two.store == s.store;
    assert Run(c, s, [create, read, write]).matches[x].Live?;
  }

  lemma {:induction false} PlanRecovers(c: Cluster, s: System, rpc: nat, id: string, x: string)
    requires Resumable(c, s, rpc, id, x)
    ensures var t := Run(c, s, Plan(rpc, id, x));
      && Current(t, x) && t.matches[x].instance.logicalId == id
      && t.matches[x].instance.engine == s.store[id].snapshot
      && t.store[id] == s.store[id].(externalId := x, generation := s.store[id].generation + 1)
  {
    ResumeFences(c, s, rpc, id, x);
    var mid := Run(c, s, Plan(rpc, id, x)[..3]);
    InitBinds(c, mid, rpc, id, x);
    RunAppends(c, s, Plan(rpc, id, x)[..3], [MatchCreate(rpc, x), InitRead(x), InitWrite(x, false, Reliable)]);
    PlanParts(rpc, id, x);
  }

  lemma PlanParts(rpc: nat, id: string, x: string)
    ensures Plan(rpc, id, x) == Plan(rpc, id, x)[..3] + [MatchCreate(rpc, x), InitRead(x), InitWrite(x, false, Reliable)]
  {
  }

  /** In every reachable state, an incomplete match that no live runtime serves
      is back under a single current instance, holding exactly the durable state
      in the next generation, after one undisturbed resume. */
  lemma {:induction false} ResumeRecovers(c: Cluster, steps: seq<Step>, rpc: nat, id: string, x: string)
    requires Genuine(c) && id in Run(c, Empty, steps).store
    requires var s := Run(c, Empty, steps);
      && s.store[id].snapshot.completion.None? && s.store[id].generation + 1 < GENERATION_LIMIT
      && !IsLive(s, s.store[id].externalId) && rpc !in s.rpcs && x != "" && x !in s.used
    ensures var s := Run(c, Empty, steps);
      var t := Run(c, s, Plan(rpc, id, x));
      && Current(t, x) && t.matches[x].instance.logicalId == id
      && t.matches[x].instance.engine == s.store[id].snapshot
      && t.store[id] == s.store[id].(externalId := x, generation := s.store[id].generation + 1)
  {
    EveryDurableRecordLoads(c, steps, id);
    RunKeeps(c, steps);
    PlanRecovers(c, Run(c, Empty, steps), rpc, id, x);
  }

  lemma {:induction false} RunAppends(c: Cluster, s: System, one: seq<Step>, two: seq<Step>)
    ensures Run(c, s, one + two) == Run(c, Run(c, s, one), two)
    decreases |two|
  {
    if two == [] {
      assert one + two == one;
    } else {
      var before, last := two[..|two| - 1], two[|two| - 1];
      assert one + two == (one + before) + [last];
      RunSplit(c, s, one + before, last);
      RunAppends(c, s, one, before);
    }
  }

  /** A live instance that its record names stops every resume at the look-up,
      also when it is wedged and can no longer commit: the call ends and the
      generation stays. */
  lemma {:induction false} LiveRuntimeBlocksResume(c: Cluster, s: System, rpc: nat, id: string)
    requires Loads(c, s, id) && s.store[id].snapshot.completion.None? && rpc !in s.rpcs
    requires s.store[id].externalId != "" && IsLive(s, s.store[id].externalId)
    ensures Run(c, s, [ResumeLoad(rpc, id), ResumeInspect(rpc)]) == s
  {
    var one := s.(rpcs := s.rpcs[rpc := ResumeRead(s.store[id])]);
    RunSplit(c, s, [], ResumeLoad(rpc, id));
    RunSplit(c, s, [ResumeLoad(rpc, id)], ResumeInspect(rpc));
    assert Do(c, s, ResumeLoad(rpc, id)) == one;
    InspectEnds(s, one, rpc);
  }

  lemma InspectEnds(s: System, one: System, rpc: nat)
    requires rpc !in s.rpcs && rpc in one.rpcs && one.rpcs[rpc].ResumeRead? && one == s.(rpcs := s.rpcs[rpc := one.rpcs[rpc]])
    requires one.rpcs[rpc].record.externalId != "" && IsLive(s, one.rpcs[rpc].record.externalId)
    ensures DoResumeInspect(one, rpc) == s
  {
    assert one.rpcs - {rpc} == s.rpcs;
  }
}

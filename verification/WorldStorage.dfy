/** The storage as a target instance sees it, and what one of its callbacks may
    do to it (runtime/world_command_storage.go, runtime/nakama_storage.go). */
module WorldStorage {
  import opened Common
  import opened Contract
  import opened MatchEngine
  import opened StoredMatch
  import opened MatchCallbacks
  import opened WorldStore
  import opened WorldAgreement

  /** The durable values, the calls that storage has performed, and the calls that
      failed at their client and may still be performed. */
  datatype Objects = Objects(data: Durables, done: seq<Commitment>, late: seq<Commitment>)

  function AfterCall(o: Objects, c: Commitment, fault: Fault): Objects
  {
    match fault
    case Reliable => o.(data := Apply(o.data, c), done := o.done + [c])
    case AckLost => o.(data := Apply(o.data, c), done := o.done + [c])
    case Dropped => o
    case Delayed => o.(late := o.late + [c])
  }

  /** The two storage collections; histories and calls under way are ghosts. */
  class WorldObjects {
    var matches: Store
    var worlds: Worlds
    ghost var origins: map<string, Record>
    ghost var done: seq<Commitment>
    ghost var late: seq<Commitment>

    constructor ()
      ensures View() == Objects(Durables(map[], map[], map[]), [], [])
    {
      matches, worlds := map[], map[];
      origins, done, late := map[], [], [];
    }

    ghost function View(): Objects
      reads this
    {
      Objects(Durables(matches, worlds, origins), done, late)
    }

    /** One StorageWrite of one or two objects. */
    method StorageWrite(c: Commitment, fault: Fault) returns (acknowledged: bool)
      modifies this
      ensures acknowledged == (fault.Reliable? && AdmitsCall(old(View()).data, c))
      ensures View() == AfterCall(old(View()), c, fault)
    {
      var before := Durables(matches, worlds, map[]);
      acknowledged := fault.Reliable? && AdmitsCall(before, c);
      if fault.Reliable? || fault.AckLost? {
        var after := Apply(before, c);
        ghost var whole := Apply(View().data, c);
        matches, worlds := after.matches, after.worlds;
        origins := whole.origins;
        done := done + [c];
      } else if fault.Delayed? {
        late := late + [c];
      }
    }
  }

  // ------------------------------------------------------- what a callback does

  /** The storage calls since `a`. */
  function Since(a: seq<Commitment>, b: seq<Commitment>): seq<Commitment>
    requires |a| <= |b|
  {
    b[|a|..]
  }

  /** A right call of a target instance; only an instance that has no World store
      open creates a document, from the record it holds. */
  predicate CallOk(origin: Option<Record>, c: Commitment)
  {
    CommitmentOk(c) && !c.Alone? && (c.Creates? ==> origin == Some(c.origin))
  }

  predicate CallsOk(origin: Option<Record>, calls: seq<Commitment>)
  {
    forall i :: 0 <= i < |calls| ==> CallOk(origin, calls[i])
  }

  /** From `a` to `b` storage performed right calls only, and only right calls
      are left to be performed later. */
  predicate Continues(origin: Option<Record>, a: Objects, b: Objects)
  {
    && a.done <= b.done && a.late <= b.late
    && b.data == Performed(a.data, Since(a.done, b.done))
    && CallsOk(origin, Since(a.done, b.done)) && CallsOk(origin, Since(a.late, b.late))
  }

  /** The match records are as they were, and no write of one is under way. */
  predicate Aside(a: Objects, b: Objects)
  {
    b.data.matches == a.data.matches && MatchWrites(b.late) == MatchWrites(a.late)
  }

  /** The match record, its instance and its listeners see exactly this effect. */
  predicate Shows(effect: Effect, b: Objects, next: Option<Instance>, sent: seq<Notice>)
  {
    effect.store == b.data.matches && effect.floating == MatchWrites(b.late) &&
    effect.instance == next && effect.broadcast == sent
  }

  lemma {:induction false} NothingCalled(origin: Option<Record>, a: Objects)
    ensures Continues(origin, a, a) && Aside(a, a)
  {
    assert Since(a.done, a.done) == [] && Since(a.late, a.late) == [];
  }

  lemma SinceInTurn(a: seq<Commitment>, b: seq<Commitment>, c: seq<Commitment>)
    requires a <= b <= c
    ensures Since(a, c) == Since(a, b) + Since(b, c)
  {
  }

  lemma CallsOkInTurn(origin: Option<Record>, a: seq<Commitment>, b: seq<Commitment>)
    requires CallsOk(origin, a) && CallsOk(origin, b)
    ensures CallsOk(origin, a + b)
  {
  }

  lemma {:induction false} InTurn(origin: Option<Record>, a: Objects, b: Objects, c: Objects)
    requires Continues(origin, a, b) && Continues(origin, b, c)
    ensures Continues(origin, a, c)
  {
    SinceInTurn(a.done, b.done, c.done);
    SinceInTurn(a.late, b.late, c.late);
    PerformedInTurn(a.data, Since(a.done, b.done), Since(b.done, c.done));
    CallsOkInTurn(origin, Since(a.done, b.done), Since(b.done, c.done));
    CallsOkInTurn(origin, Since(a.late, b.late), Since(b.late, c.late));
  }

  lemma AlsoUnopened(origin: Option<Record>, a: Objects, b: Objects)
    requires Continues(None, a, b)
    ensures Continues(origin, a, b)
  {
  }

  lemma {:induction false} OneCall(origin: Option<Record>, a: Objects, c: Commitment, fault: Fault)
    requires CallOk(origin, c)
    ensures Continues(origin, a, AfterCall(a, c, fault))
    ensures !c.Both? ==> Aside(a, AfterCall(a, c, fault))
  {
    NothingCalled(origin, a);
    assert Since(a.done, a.done + [c]) == [c] && Since(a.late, a.late + [c]) == [c];
    assert Performed(a.data, [c]) == Apply(Performed(a.data, [c][..0]), c);
    assert [c][..0] == [];
    assert (a.late + [c])[..|a.late|] == a.late;
  }

  // --------------------------------------------------------- commits of both

  /** The commit that an instance issues for its engine and its World store. */
  function PairCall(inst: Instance, after: Engine, doc: WorldDoc, expected: WorldVersion): Commitment
  {
    Both(Write(inst.record.(snapshot := after), MustMatch(inst.version)), WorldWrite(inst.logicalId, doc, Some(expected)))
  }

  /** The fate of this call, seen from the match record alone: a refusal for the
      sake of the World document looks like a write that never arrived. */
  function Outage(a: Objects, call: Commitment, fault: Fault): Fault
    requires call.Both?
  {
    if fault.Delayed? || AdmitsWorld(a.data.worlds, call.w) then fault else Dropped
  }

  function Committed(pre: Instance, after: Engine): Instance
  {
    var updated := pre.record.(snapshot := after);
    pre.(engine := after, record := updated, version := Digest(updated))
  }

  lemma {:induction false} PairedCommit(pre: Instance, after: Engine, event: Event, a: Objects, call: Commitment, fault: Fault)
    requires call.Both? && call.m == Write(pre.record.(snapshot := after), MustMatch(pre.version))
    requires call.w.logicalId == call.m.record.logicalId
    ensures var ok := fault.Reliable? && AdmitsCall(a.data, call);
      Shows(TargetCommit(pre, after, event, a.data.matches, MatchWrites(a.late), Outage(a, call, fault)),
            AfterCall(a, call, fault),
            Some(if ok then Committed(pre, after) else pre.(engine := after, wedged := true)),
            if ok then [ToAll(event)] else [])
  {
    assert (a.late + [call])[..|a.late|] == a.late;
  }

  lemma DroppedCommit(pre: Instance, after: Engine, event: Event, a: Objects)
    ensures Shows(TargetCommit(pre, after, event, a.data.matches, MatchWrites(a.late), Dropped), a,
                  Some(pre.(engine := after, wedged := true)), [])
  {
  }

  // ---------------------------------------------------------------- agreement

  /** A World document that this instance may still create starts where the
      durable record stands. */
  predicate MayOpen(origin: Option<Record>, d: Durables, id: string)
  {
    origin.None? || id in d.worlds ||
    (id in d.matches && origin.value == d.matches[id] && DistinctParticipants(origin.value.snapshot) &&
     origin.value.snapshot.version == |origin.value.snapshot.events| + 1)
  }

  lemma CallKeepsAgreement(origin: Option<Record>, d: Durables, c: Commitment, id: string)
    requires CallOk(origin, c) && Agreeing(d.matches, d.worlds, id) && MayOpen(origin, d, id)
    ensures var after := Apply(d, c); Agreeing(after.matches, after.worlds, id) && MayOpen(origin, after, id)
  {
  }

  lemma {:induction false} CallsKeepAgreement(origin: Option<Record>, d: Durables, calls: seq<Commitment>, id: string)
    requires CallsOk(origin, calls) && Agreeing(d.matches, d.worlds, id) && MayOpen(origin, d, id)
    ensures var after := Performed(d, calls); Agreeing(after.matches, after.worlds, id) && MayOpen(origin, after, id)
  {
    if calls != [] {
      CallsKeepAgreement(origin, d, calls[..|calls| - 1], id);
      CallKeepsAgreement(origin, Performed(d, calls[..|calls| - 1]), calls[|calls| - 1], id);
    }
  }
}

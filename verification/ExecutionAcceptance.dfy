/** Acceptance claims about tasks and workstreams (scripts/check-status-transitions.py).

    Each row is checked against its direct dependencies only. The theorems say
    what the passing checks mean for everything a row depends on. */
module ExecutionAcceptance {
  import opened Common
  import opened DependencyGraph
  import opened GateDerivation

  /** A status row; a target that is absent or malformed is None. */
  datatype Row = Row(
    accepted: bool, target: Option<string>, dependsOn: Option<seq<string>>, gateIds: seq<string>,
    blockingGaps: seq<string>, requiredEvidence: seq<string>, evidenceIds: seq<string>)

  const PLANNED := Row(false, None, None, [], [], [], [])

  /** The approved, immutable membership. */
  datatype ScopeTask = ScopeTask(dependsOn: seq<string>, gateIds: seq<string>)
  datatype ScopeStream = ScopeStream(tasks: seq<string>, dependsOn: seq<string>)

  datatype Product = Product(passed: bool, evidenceIds: seq<string>)

  datatype Claims = Claims(
    scopeTasks: map<string, ScopeTask>, scopeStreams: map<string, ScopeStream>,
    gates: map<string, Gate>, products: map<string, Product>, gaps: map<string, Gap>,
    evidence: map<string, Entry>, accepted: set<string>,
    overrides: map<string, Row>, streams: map<string, Row>)

  function TaskRow(c: Claims, id: string): Row
  {
    if id in c.overrides then c.overrides[id] else PLANNED
  }

  // ------------------------------------------------------------------ the checks

  /** reference_list with a non-empty list. */
  predicate References(list: seq<string>)
  {
    list != [] && Distinct(list)
  }

  /** require_closed_gaps. */
  predicate ClosedGaps(c: Claims, row: Row)
  {
    Distinct(row.blockingGaps) && forall gap :: gap in row.blockingGaps ==> gap in c.gaps && c.gaps[gap].closed
  }

  /** One cited evidence entry of an accepted task. */
  predicate EvidenceHolds(c: Claims, id: string, target: string, cited: string, now: int)
  {
    && cited in c.evidence && cited in c.accepted
    && Admissible(c.evidence[cited], now) && c.evidence[cited].target == target && id in c.evidence[cited].taskIds
  }

  predicate TypeCited(c: Claims, row: Row, evidenceType: string)
  {
    exists k :: 0 <= k < |row.evidenceIds| && row.evidenceIds[k] in c.evidence &&
      c.evidence[row.evidenceIds[k]].evidenceType == evidenceType
  }

  /** validate_accepted_task for an accepted row. */
  predicate TaskHolds(c: Claims, id: string, row: Row, dependencies: seq<string>, now: int)
  {
    && ClosedGaps(c, row) && row.target.Some?
    && (forall d :: d in dependencies ==> TaskRow(c, d).accepted && TaskRow(c, d).target == row.target)
    && References(row.requiredEvidence) && (forall t :: t in row.requiredEvidence ==> t in EVIDENCE_TYPES)
    && References(row.evidenceIds)
    && (forall e :: e in row.evidenceIds ==> EvidenceHolds(c, id, row.target.value, e, now))
    && (forall t :: t in row.requiredEvidence ==> TypeCited(c, row, t))
  }

  /** The task and its gate agree on evidence of one candidate. */
  predicate GateHolds(c: Claims, id: string, row: Row, gate: string)
  {
    && gate in c.gates && gate in c.products && row.target.Some?
    && c.products[gate].passed && c.products[gate].evidenceIds != []
    && (forall e :: e in c.products[gate].evidenceIds ==> e in c.evidence && c.evidence[e].target == row.target.value)
    && (forall t :: t in c.gates[gate].evidenceTypes ==>
          exists k :: 0 <= k < |row.evidenceIds| && row.evidenceIds[k] in c.evidence &&
            var e := c.evidence[row.evidenceIds[k]]; gate in e.gateIds && id in e.taskIds && e.evidenceType == t)
  }

  function GateGaps(c: Claims, gates: seq<string>): set<string>
  {
    set g, gap | g in gates && g in c.gates && gap in c.gates[g].blockingGaps :: gap
  }

  function GateTypes(c: Claims, gates: seq<string>): set<string>
  {
    set g, t | g in gates && g in c.gates && t in c.gates[g].evidenceTypes :: t
  }

  /** validate_backlog_task_acceptance: the row repeats the immutable requirements
      of its gates, and the task and its gates hold. */
  predicate BacklogTaskHolds(c: Claims, id: string, now: int)
    requires id in c.overrides && id in c.scopeTasks
  {
    var row, scope := c.overrides[id], c.scopeTasks[id];
    (row.dependsOn.Some? ==> row.dependsOn.value == scope.dependsOn) &&
    (row.accepted ==>
       && References(scope.gateIds) && (forall g :: g in scope.gateIds ==> g in c.gates)
       && GateGaps(c, scope.gateIds) != {} && GateTypes(c, scope.gateIds) != {}
       && References(row.gateIds) && Elements(row.gateIds) == Elements(scope.gateIds)
       && References(row.blockingGaps) && Elements(row.blockingGaps) == GateGaps(c, scope.gateIds)
       && References(row.requiredEvidence) && Elements(row.requiredEvidence) == GateTypes(c, scope.gateIds)
       && TaskHolds(c, id, row, scope.dependsOn, now)
       && (forall g :: g in scope.gateIds ==> GateHolds(c, id, row, g)))
  }

  predicate StreamHolds(c: Claims, id: string)
    requires id in c.streams
  {
    var row := c.streams[id];
    row.accepted ==>
      && ClosedGaps(c, row) && row.target.Some? && id in c.scopeStreams
      && (forall t :: t in c.scopeStreams[id].tasks ==> TaskRow(c, t).accepted && TaskRow(c, t).target == row.target)
      && (forall d :: d in c.scopeStreams[id].dependsOn ==>
            d in c.streams && c.streams[d].accepted && c.streams[d].target == row.target)
  }

  /** What validate_execution_acceptance looks at: every row on its own. */
  predicate LocallyAccepted(c: Claims, now: int)
  {
    && (forall id :: id in c.overrides ==> id in c.scopeTasks && BacklogTaskHolds(c, id, now))
    && (forall id :: id in c.streams ==> StreamHolds(c, id))
  }

  method CheckTasks(c: Claims, now: int) returns (ok: bool)
    requires forall id :: id in c.overrides ==> id in c.scopeTasks
    ensures ok <==> forall id :: id in c.overrides ==> BacklogTaskHolds(c, id, now)
  {
    var rest := c.overrides.Keys;
    while rest != {}
      invariant rest <= c.overrides.Keys
      invariant forall id :: id in c.overrides && id !in rest ==> BacklogTaskHolds(c, id, now)
      decreases |rest|
    {
      var id :| id in rest;
      if !BacklogTaskHolds(c, id, now) {
        return false;
      }
      rest := rest - {id};
    }
    ok := true;
  }

  method CheckStreams(c: Claims) returns (ok: bool)
    ensures ok <==> forall id :: id in c.streams ==> StreamHolds(c, id)
  {
    var rest := c.streams.Keys;
    while rest != {}
      invariant rest <= c.streams.Keys
      invariant forall id :: id in c.streams && id !in rest ==> StreamHolds(c, id)
      decreases |rest|
    {
      var id :| id in rest;
      if !StreamHolds(c, id) {
        return false;
      }
      rest := rest - {id};
    }
    ok := true;
  }

  /** validate_execution_acceptance, in any order of the rows. */
  method ValidateExecution(c: Claims, now: int) returns (ok: bool)
    ensures ok <==> LocallyAccepted(c, now)
  {
    if exists id :: id in c.overrides && id !in c.scopeTasks {
      return false;
    }
    ok := CheckTasks(c, now);
    if ok {
      ok := CheckStreams(c);
    }
  }

  // --------------------------------------------------- what passing checks mean

  function TaskGraph(c: Claims): Graph
  {
    Graph([], map id | id in c.scopeTasks :: c.scopeTasks[id].dependsOn)
  }

  function StreamGraph(c: Claims): Graph
  {
    Graph([], map id | id in c.scopeStreams :: c.scopeStreams[id].dependsOn)
  }

  /** A task accepted for this candidate: its own gaps are closed, admissible
      evidence of that candidate is mapped to it, and its gates have passed on
      evidence of that candidate alone. */
  predicate AcceptedFor(c: Claims, id: string, target: string, now: int)
  {
    && TaskRow(c, id).accepted && TaskRow(c, id).target == Some(target) && ClosedGaps(c, TaskRow(c, id))
    && (forall e :: e in TaskRow(c, id).evidenceIds ==> EvidenceHolds(c, id, target, e, now))
    && (id in c.scopeTasks ==> forall g :: g in c.scopeTasks[id].gateIds ==> GateHolds(c, id, TaskRow(c, id), g))
  }

  lemma AcceptedTaskHolds(c: Claims, id: string, now: int)
    requires LocallyAccepted(c, now) && TaskRow(c, id).accepted
    ensures id in c.scopeTasks && TaskRow(c, id).target.Some?
    ensures AcceptedFor(c, id, TaskRow(c, id).target.value, now)
    ensures forall d :: d in c.scopeTasks[id].dependsOn ==>
      TaskRow(c, d).accepted && TaskRow(c, d).target == TaskRow(c, id).target
  {
    assert id in c.overrides;
  }

  /** An accepted task has its whole transitive dependency closure accepted for
      the same candidate. */
  lemma {:induction false} AcceptedTaskClosure(c: Claims, id: string, p: seq<string>, now: int)
    requires LocallyAccepted(c, now) && TaskRow(c, id).accepted
    requires Path(TaskGraph(c), p) && p[0] == id
    ensures TaskRow(c, id).target.Some?
    ensures AcceptedFor(c, p[|p| - 1], TaskRow(c, id).target.value, now)
    decreases |p|
  {
    AcceptedTaskHolds(c, id, now);
    if |p| > 1 {
      AcceptedTaskClosure(c, p[1], p[1..], now);
    }
  }

  /** An accepted workstream has every task of every workstream it transitively
      depends on, and whatever those tasks depend on, accepted for one candidate. */
  lemma {:induction false} AcceptedStreamClosure(c: Claims, id: string, p: seq<string>, task: string, q: seq<string>, now: int)
    requires LocallyAccepted(c, now) && id in c.streams && c.streams[id].accepted
    requires Path(StreamGraph(c), p) && p[0] == id && task in c.scopeStreams[p[|p| - 1]].tasks
    requires Path(TaskGraph(c), q) && q[0] == task
    ensures c.streams[id].target.Some?
    ensures p[|p| - 1] in c.streams && c.streams[p[|p| - 1]].accepted && c.streams[p[|p| - 1]].target == c.streams[id].target
    ensures AcceptedFor(c, q[|q| - 1], c.streams[id].target.value, now)
    decreases |p|
  {
    assert StreamHolds(c, id);
    if |p| == 1 {
      AcceptedTaskClosure(c, task, q, now);
    } else {
      AcceptedStreamClosure(c, p[1], p[1..], task, q, now);
    }
  }

  // ----------------------------------------------- local checks, global meaning

  /** What an accepted task must show of itself: the requirements of its gates
      repeated exactly, every blocking gap closed, every evidence type cited, every
      citation admissible and of one candidate, every gate passed on it. */
  ghost predicate ShowsAll(c: Claims, id: string, now: int)
    requires id in c.overrides && id in c.scopeTasks
  {
    var row, gates := c.overrides[id], c.scopeTasks[id].gateIds;
    && row.target.Some? && (forall d :: d in c.scopeTasks[id].dependsOn ==> d in c.scopeTasks)
    && References(gates) && References(row.gateIds) && References(row.blockingGaps)
    && References(row.requiredEvidence) && References(row.evidenceIds)
    && (forall g :: g in gates <==> g in row.gateIds) && (forall g :: g in gates ==> g in c.gates)
    && (forall gap :: gap in row.blockingGaps <==> exists g :: g in gates && gap in c.gates[g].blockingGaps)
    && (forall t :: t in row.requiredEvidence <==> exists g :: g in gates && t in c.gates[g].evidenceTypes)
    && (forall gap :: gap in row.blockingGaps ==> gap in c.gaps && c.gaps[gap].closed)
    && (forall t :: t in row.requiredEvidence ==> t in EVIDENCE_TYPES && TypeCited(c, row, t))
    && (forall e :: e in row.evidenceIds ==> EvidenceHolds(c, id, row.target.value, e, now))
    && (forall g :: g in gates ==> GateHolds(c, id, row, g))
  }

  /** Everything that a task transitively depends on is accepted for its candidate. */
  ghost predicate ClosedBelow(c: Claims, id: string)
  {
    forall p :: Path(TaskGraph(c), p) && p[0] == id ==>
      TaskRow(c, p[|p| - 1]).accepted && TaskRow(c, p[|p| - 1]).target == TaskRow(c, id).target
  }

  /** Everything below a workstream and all of their tasks are, too. */
  ghost predicate StreamClosedBelow(c: Claims, id: string)
    requires id in c.streams
  {
    forall p :: Path(StreamGraph(c), p) && p[0] == id ==>
      var last := p[|p| - 1];
      && last in c.streams && c.streams[last].accepted && c.streams[last].target == c.streams[id].target
      && forall t :: t in c.scopeStreams[last].tasks ==>
           TaskRow(c, t).accepted && TaskRow(c, t).target == c.streams[id].target && ClosedBelow(c, t)
  }

  ghost predicate GloballyAccepted(c: Claims, now: int)
  {
    && (forall id :: id in c.overrides ==>
          && id in c.scopeTasks
          && (c.overrides[id].dependsOn.Some? ==> c.overrides[id].dependsOn.value == c.scopeTasks[id].dependsOn)
          && (c.overrides[id].accepted ==> ShowsAll(c, id, now) && ClosedBelow(c, id)))
    && (forall id :: id in c.streams && c.streams[id].accepted ==>
          && id in c.scopeStreams && c.streams[id].target.Some?
          && (forall d :: d in c.scopeStreams[id].dependsOn ==> d in c.scopeStreams) && Distinct(c.streams[id].blockingGaps)
          && (forall gap :: gap in c.streams[id].blockingGaps ==> gap in c.gaps && c.gaps[gap].closed)
          && StreamClosedBelow(c, id))
  }

  lemma ShowsAllIsHeld(c: Claims, id: string, now: int)
    requires id in c.overrides && id in c.scopeTasks && c.overrides[id].accepted && BacklogTaskHolds(c, id, now)
    requires forall d :: d in c.scopeTasks[id].dependsOn ==> d in c.scopeTasks
    ensures ShowsAll(c, id, now)
  {
    var row, gates := c.overrides[id], c.scopeTasks[id].gateIds;
    forall g ensures g in gates <==> g in row.gateIds { assert g in Elements(gates) <==> g in Elements(row.gateIds); }
    forall gap ensures gap in row.blockingGaps <==> exists g :: g in gates && gap in c.gates[g].blockingGaps {
      assert gap in Elements(row.blockingGaps) <==> gap in GateGaps(c, gates);
    }
    forall t ensures t in row.requiredEvidence <==> exists g :: g in gates && t in c.gates[g].evidenceTypes {
      assert t in Elements(row.requiredEvidence) <==> t in GateTypes(c, gates);
    }
  }

  lemma RequirementsAreSets(c: Claims, row: Row, gates: seq<string>)
    requires forall g :: g in gates ==> g in c.gates
    requires forall gap :: gap in row.blockingGaps <==> exists g :: g in gates && gap in c.gates[g].blockingGaps
    requires forall t :: t in row.requiredEvidence <==> exists g :: g in gates && t in c.gates[g].evidenceTypes
    ensures Elements(row.blockingGaps) == GateGaps(c, gates) && Elements(row.requiredEvidence) == GateTypes(c, gates)
  {
    forall gap ensures gap in Elements(row.blockingGaps) <==> gap in GateGaps(c, gates) {}
    forall t ensures t in Elements(row.requiredEvidence) <==> t in GateTypes(c, gates) {}
  }

  lemma ListedElement(list: seq<string>)
    requires list != []
    ensures list[0] in Elements(list) && Elements(list) != {}
  {
  }

  lemma HeldIsShown(c: Claims, id: string, now: int)
    requires id in c.overrides && id in c.scopeTasks && c.overrides[id].accepted && ShowsAll(c, id, now)
    requires c.overrides[id].dependsOn.Some? ==> c.overrides[id].dependsOn.value == c.scopeTasks[id].dependsOn
    requires forall d :: d in c.scopeTasks[id].dependsOn ==> TaskRow(c, d).accepted && TaskRow(c, d).target == TaskRow(c, id).target
    ensures BacklogTaskHolds(c, id, now)
  {
    var row, gates := c.overrides[id], c.scopeTasks[id].gateIds;
    RequirementsAreSets(c, row, gates);
    ListedElement(row.blockingGaps);
    ListedElement(row.requiredEvidence);
    assert Elements(row.gateIds) == Elements(gates);
  }

  lemma DirectPath(g: Graph, id: string, d: string)
    requires id in g.deps && d in g.deps && d in g.deps[id]
    ensures Path(g, [id, d]) && [id, d][0] == id && [id, d][|[id, d]| - 1] == d
  {
  }

  lemma SelfPath(g: Graph, id: string)
    requires id in g.deps
    ensures Path(g, [id])
  {
  }

  lemma {:induction false} LocalTaskIsGlobal(c: Claims, id: string, now: int)
    requires LocallyAccepted(c, now) && TaskRow(c, id).accepted
    ensures id in c.overrides && id in c.scopeTasks && ShowsAll(c, id, now) && ClosedBelow(c, id)
  {
    AcceptedTaskHolds(c, id, now);
    forall d | d in c.scopeTasks[id].dependsOn ensures d in c.scopeTasks {
      AcceptedTaskHolds(c, d, now);
    }
    ShowsAllIsHeld(c, id, now);
    forall p | Path(TaskGraph(c), p) && p[0] == id
      ensures TaskRow(c, p[|p| - 1]).accepted && TaskRow(c, p[|p| - 1]).target == TaskRow(c, id).target
    {
      AcceptedTaskClosure(c, id, p, now);
    }
  }

  lemma {:induction false} LocalStreamReaches(c: Claims, id: string, p: seq<string>, now: int)
    requires LocallyAccepted(c, now) && id in c.streams && c.streams[id].accepted && Path(StreamGraph(c), p) && p[0] == id
    ensures var last := p[|p| - 1];
      last in c.streams && last in c.scopeStreams && c.streams[last].accepted && c.streams[last].target == c.streams[id].target
    decreases |p|
  {
    assert StreamHolds(c, id);
    if |p| > 1 {
      LocalStreamReaches(c, p[1], p[1..], now);
    }
  }

  lemma {:induction false} LocalStreamIsGlobal(c: Claims, id: string, now: int)
    requires LocallyAccepted(c, now) && id in c.streams && c.streams[id].accepted
    ensures StreamClosedBelow(c, id) && id in c.scopeStreams
    ensures forall d :: d in c.scopeStreams[id].dependsOn ==> d in c.scopeStreams
  {
    assert StreamHolds(c, id);
    forall d | d in c.scopeStreams[id].dependsOn ensures d in c.scopeStreams {
      assert StreamHolds(c, d);
    }
    forall p | Path(StreamGraph(c), p) && p[0] == id
      ensures var last := p[|p| - 1];
        && last in c.streams && c.streams[last].accepted && c.streams[last].target == c.streams[id].target
        && forall t :: t in c.scopeStreams[last].tasks ==>
             TaskRow(c, t).accepted && TaskRow(c, t).target == c.streams[id].target && ClosedBelow(c, t)
    {
      LocalStreamReaches(c, id, p, now);
      assert StreamHolds(c, p[|p| - 1]);
      forall t | t in c.scopeStreams[p[|p| - 1]].tasks ensures ClosedBelow(c, t) {
        LocalTaskIsGlobal(c, t, now);
      }
    }
  }

  lemma GlobalTaskIsLocal(c: Claims, id: string, now: int)
    requires GloballyAccepted(c, now) && id in c.overrides
    ensures id in c.scopeTasks && BacklogTaskHolds(c, id, now)
  {
    if c.overrides[id].accepted {
      forall d | d in c.scopeTasks[id].dependsOn
        ensures TaskRow(c, d).accepted && TaskRow(c, d).target == TaskRow(c, id).target
      {
        DirectPath(TaskGraph(c), id, d);
      }
      HeldIsShown(c, id, now);
    }
  }

  lemma GlobalStreamIsLocal(c: Claims, id: string, now: int)
    requires GloballyAccepted(c, now) && id in c.streams
    ensures StreamHolds(c, id)
  {
    if c.streams[id].accepted {
      var g := StreamGraph(c);
      SelfPath(g, id);
      assert [id][0] == id && [id][|[id]| - 1] == id;
      forall d | d in c.scopeStreams[id].dependsOn
        ensures d in c.streams && c.streams[d].accepted && c.streams[d].target == c.streams[id].target
      {
        DirectPath(g, id, d);
      }
    }
  }

  /** The local checks are exact: they pass if and only if every accepted row shows
      all it must and everything it transitively depends on is accepted for the
      same candidate. */
  lemma {:induction false} LocalIsGlobal(c: Claims, now: int)
    ensures LocallyAccepted(c, now) <==> GloballyAccepted(c, now)
  {
    if LocallyAccepted(c, now) {
      forall id | id in c.overrides && c.overrides[id].accepted ensures ShowsAll(c, id, now) && ClosedBelow(c, id) {
        LocalTaskIsGlobal(c, id, now);
      }
      forall id | id in c.streams && c.streams[id].accepted
        ensures StreamClosedBelow(c, id) && id in c.scopeStreams
        ensures forall d :: d in c.scopeStreams[id].dependsOn ==> d in c.scopeStreams
      {
        LocalStreamIsGlobal(c, id, now);
      }
      forall id | id in c.overrides ensures BacklogTaskHolds(c, id, now) {}
      forall id | id in c.streams ensures StreamHolds(c, id) {}
    }
    if GloballyAccepted(c, now) {
      forall id | id in c.overrides ensures id in c.scopeTasks && BacklogTaskHolds(c, id, now) { GlobalTaskIsLocal(c, id, now); }
      forall id | id in c.streams ensures StreamHolds(c, id) { GlobalStreamIsLocal(c, id, now); }
    }
  }

  /** The gate statuses are the ones derived from this register. */
  ghost predicate FromRegister(c: Claims, reg: Register, now: int)
  {
    c.gaps == reg.gaps && forall g :: g in c.products ==> g in reg.gates && (c.products[g].passed <==> Earned(reg, g, now))
  }

  /** Acceptance of one task reaches through two graphs: every gate below any gate
      of any task below it has its gaps closed and its evidence fresh. */
  lemma AcceptanceReachesGates(c: Claims, reg: Register, id: string, p: seq<string>, gate: string, below: string, now: int)
    requires LocallyAccepted(c, now) && FromRegister(c, reg, now) && TaskRow(c, id).accepted
    requires Path(TaskGraph(c), p) && p[0] == id && gate in c.scopeTasks[p[|p| - 1]].gateIds
    requires Reaches(GraphOf(reg), gate, below)
    ensures SelfEarned(reg, below, now)
  {
    AcceptedTaskClosure(c, id, p, now);
    assert GateHolds(c, p[|p| - 1], TaskRow(c, p[|p| - 1]), gate);
    assert Earned(reg, gate, now);
  }
}

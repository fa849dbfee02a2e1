/** Product-gate status from gaps, evidence and dependencies (scripts/derive-gates.py).

    The parts of evidence admission that read retained files are one flag of an
    entry; the parts that depend on the clock are written out. Times are seconds. */
module GateDerivation {
  import opened Common
  import opened DependencyGraph

  const EVIDENCE_TYPES: set<string> := {
    "manifest", "unit", "property", "fuzz", "wire-differential", "database-differential",
    "runtime-differential", "sdk-blackbox", "migration-rehearsal", "fault-injection", "performance",
    "endurance", "security-review", "penetration-test", "backup-restore", "canary", "cutover", "retirement"}

  const MAX_GATE_FRESHNESS_DAYS := 36500
  const SECONDS_A_DAY := 86400

  /** The freshness_days member of a row, as JSON has it. */
  datatype Freshness = Missing | Null | Integer(days: int) | Other

  datatype Gate = Gate(dependsOn: seq<string>, blockingGaps: seq<string>, evidenceTypes: seq<string>, freshness: Freshness)

  /** A gap declared closed must be backed by evidence at the time of derivation. */
  datatype Gap = Gap(closed: bool, backed: int -> bool)

  datatype Entry = Entry(
    id: string, claimed: bool, retained: bool, gateIds: seq<string>, taskIds: seq<string>, evidenceType: string,
    target: string, completedAt: int, reviewedAt: int, expiresAt: Option<int>)

  datatype Register = Register(order: seq<string>, gates: map<string, Gate>, gaps: map<string, Gap>, entries: seq<Entry>)

  datatype Status = Passed | Open | Blocked

  datatype DeriveError = UnbackedGap | InadmissibleEvidence | MixedTargets | BadGraph(error: GraphError) | BadRow

  // ------------------------------------------------------------------- evidence

  /** validate_entry at this time. */
  predicate Admissible(e: Entry, now: int)
  {
    && e.retained && e.evidenceType in EVIDENCE_TYPES
    && e.completedAt <= e.reviewedAt <= now
    && (e.expiresAt.Some? ==> now < e.expiresAt.value && e.completedAt < e.expiresAt.value)
  }

  /** Every entry that claims acceptance must be admissible. */
  predicate ClaimsAdmissible(entries: seq<Entry>, now: int)
  {
    forall i :: 0 <= i < |entries| && entries[i].claimed ==> Admissible(entries[i], now)
  }

  /** The claimed entries are about one candidate. */
  predicate OneTarget(entries: seq<Entry>)
  {
    forall i, j :: 0 <= i < |entries| && 0 <= j < |entries| && entries[i].claimed && entries[j].claimed ==>
      entries[i].target == entries[j].target
  }

  /** accepted_evidence_records: every claimed entry counts and no other, or
      the derivation fails. */
  method AcceptedRecords(entries: seq<Entry>, now: int) returns (r: Result<seq<Entry>, DeriveError>)
    ensures r.Ok? <==> ClaimsAdmissible(entries, now) && OneTarget(entries)
    ensures r == Err(InadmissibleEvidence) <==> !ClaimsAdmissible(entries, now)
    ensures r.Ok? ==> forall e :: e in r.value <==> e in entries && e.claimed
  {
    var accepted: seq<Entry> := [];
    for i := 0 to |entries|
      invariant forall k :: 0 <= k < i && entries[k].claimed ==> Admissible(entries[k], now)
      invariant forall e :: e in accepted <==> exists k :: 0 <= k < i && entries[k] == e && e.claimed
    {
      if entries[i].claimed {
        if !Admissible(entries[i], now) {
          return Err(InadmissibleEvidence);
        }
        accepted := accepted + [entries[i]];
      }
    }
    if exists a, b :: a in accepted && b in accepted && a.target != b.target {
      return Err(MixedTargets);
    }
    forall i, j | 0 <= i < |entries| && 0 <= j < |entries| && entries[i].claimed && entries[j].claimed
      ensures entries[i].target == entries[j].target
    {
      assert entries[i] in accepted && entries[j] in accepted;
    }
    r := Ok(accepted);
  }

  /** freshness_days: an explicit null, or a positive bounded integer. */
  function FreshnessDays(f: Freshness): Option<Option<nat>>
  {
    match f
    case Null => Some(None)
    case Integer(days) => if 0 < days <= MAX_GATE_FRESHNESS_DAYS then Some(Some(days)) else Option.None
    case _ => Option.None
  }

  /** The record is not older than the age limit. */
  predicate WithinAge(e: Entry, limit: Option<nat>, now: int)
  {
    match limit
    case None => true
    case Some(days) => e.completedAt >= now - days * SECONDS_A_DAY
  }

  /** Some accepted record of this type is mapped to the gate and fresh enough. */
  predicate Present(records: seq<Entry>, id: string, limit: Option<nat>, evidenceType: string, now: int)
  {
    exists i :: 0 <= i < |records| && id in records[i].gateIds && records[i].evidenceType == evidenceType &&
      WithinAge(records[i], limit, now)
  }

  // ------------------------------------------------------------- specification

  function GraphOf(reg: Register): Graph
  {
    Graph(reg.order, map id | id in reg.gates :: reg.gates[id].dependsOn)
  }

  predicate RowValid(reg: Register, id: string)
    requires id in reg.gates
  {
    var gate := reg.gates[id];
    && (forall gap :: gap in gate.blockingGaps ==> gap in reg.gaps)
    && gate.evidenceTypes != [] && (forall t :: t in gate.evidenceTypes ==> t in EVIDENCE_TYPES)
    && (gate.freshness == Null || (gate.freshness.Integer? && 1 <= gate.freshness.days <= 36500))
  }

  predicate GapsClosed(reg: Register, gaps: seq<string>)
  {
    forall gap :: gap in gaps ==> gap in reg.gaps && reg.gaps[gap].closed
  }

  /** This entry claims acceptance, is about this gate and of this type, and was
      completed no longer ago than the gate allows, in seconds. */
  predicate Witnesses(e: Entry, id: string, freshness: Freshness, evidenceType: string, now: int)
  {
    && e.claimed && id in e.gateIds && e.evidenceType == evidenceType
    && (freshness.Integer? ==> now - e.completedAt <= freshness.days * 24 * 60 * 60)
  }

  predicate Covered(reg: Register, id: string, evidenceType: string, now: int)
    requires id in reg.gates
  {
    exists i :: 0 <= i < |reg.entries| && Witnesses(reg.entries[i], id, reg.gates[id].freshness, evidenceType, now)
  }

  predicate EvidenceCovers(reg: Register, id: string, now: int)
    requires id in reg.gates
  {
    forall t :: t in reg.gates[id].evidenceTypes ==> Covered(reg, id, t, now)
  }

  /** The gate itself has all gaps closed and all evidence types freshly covered. */
  predicate SelfEarned(reg: Register, id: string, now: int)
  {
    id in reg.gates && GapsClosed(reg, reg.gates[id].blockingGaps) && EvidenceCovers(reg, id, now)
  }

  /** So has every gate that it transitively depends on. */
  ghost predicate Earned(reg: Register, id: string, now: int)
  {
    id in reg.gates && forall other :: Reaches(GraphOf(reg), id, other) ==> SelfEarned(reg, other, now)
  }

  ghost predicate Derivable(reg: Register, now: int)
  {
    && (forall id :: id in reg.gaps && reg.gaps[id].closed ==> reg.gaps[id].backed(now))
    && ClaimsAdmissible(reg.entries, now) && OneTarget(reg.entries)
    && Closed(GraphOf(reg)) && !Cyclic(GraphOf(reg))
    && (forall id :: id in reg.gates ==> RowValid(reg, id))
  }

  /** A gap of the gate is open, or some gate below one of its dependencies, that
      dependency included, has not earned itself. */
  ghost predicate HeldBack(reg: Register, id: string, now: int)
    requires id in reg.gates
  {
    || !GapsClosed(reg, reg.gates[id].blockingGaps)
    || exists d, other :: d in reg.gates[id].dependsOn && Reaches(GraphOf(reg), d, other) && !SelfEarned(reg, other, now)
  }

  ghost function StatusOf(reg: Register, id: string, now: int): Status
    requires id in reg.gates
  {
    if (exists d :: d in reg.gates[id].dependsOn && !Earned(reg, d, now)) || !GapsClosed(reg, reg.gates[id].blockingGaps)
    then Blocked
    else if !EvidenceCovers(reg, id, now) then Open
    else Passed
  }

  // ------------------------------------------------------------ transitive status

  /** One step of the closure: what the status loop computes is what it means. */
  lemma EarnedByDependencies(reg: Register, id: string, now: int)
    requires id in reg.gates && Closed(GraphOf(reg))
    ensures Earned(reg, id, now) <==>
      (SelfEarned(reg, id, now) && forall d :: d in reg.gates[id].dependsOn ==> Earned(reg, d, now))
  {
    var g := GraphOf(reg);
    assert g.deps[id] == reg.gates[id].dependsOn;
    if Earned(reg, id, now) {
      ReachesItself(g, id);
      forall d | d in reg.gates[id].dependsOn ensures Earned(reg, d, now) {
        assert d in g.deps;
        forall other | Reaches(g, d, other) ensures SelfEarned(reg, other, now) {
          ReachesFurther(g, id, d, other);
        }
      }
    }
    if SelfEarned(reg, id, now) && forall d :: d in reg.gates[id].dependsOn ==> Earned(reg, d, now) {
      forall other | Reaches(g, id, other) ensures SelfEarned(reg, other, now) {
        var d := ReachesByDependency(g, id, other);
      }
    }
  }

  /** What each status means: of the gate and all gates below it, no more. */
  lemma PassedMeansEarned(reg: Register, id: string, now: int)
    requires id in reg.gates && Closed(GraphOf(reg))
    ensures StatusOf(reg, id, now) == Passed <==> Earned(reg, id, now)
    ensures StatusOf(reg, id, now) == Blocked <==> HeldBack(reg, id, now)
    ensures StatusOf(reg, id, now) == Open <==> !HeldBack(reg, id, now) && !EvidenceCovers(reg, id, now)
  {
    EarnedByDependencies(reg, id, now);
    BlockedMeansHeldBack(reg, id, now);
  }

  lemma BlockedMeansHeldBack(reg: Register, id: string, now: int)
    requires id in reg.gates && Closed(GraphOf(reg))
    ensures (exists d :: d in reg.gates[id].dependsOn && !Earned(reg, d, now)) <==>
      exists d, other :: d in reg.gates[id].dependsOn && Reaches(GraphOf(reg), d, other) && !SelfEarned(reg, other, now)
  {
    assert GraphOf(reg).deps[id] == reg.gates[id].dependsOn;
    forall d | d in reg.gates[id].dependsOn
      ensures d in reg.gates
    {
      assert d in GraphOf(reg).deps;
    }
  }

  // ---------------------------------------------------------------- the program

  /** dependency_blockers of one gate. */
  method DependencyBlocks(reg: Register, status: map<string, Status>, id: string, now: int) returns (blocked: bool)
    requires id in reg.gates && Closed(GraphOf(reg))
    requires forall d :: d in reg.gates[id].dependsOn ==> d in reg.gates && d in status && status[d] == StatusOf(reg, d, now)
    ensures blocked <==> exists d :: d in reg.gates[id].dependsOn && !Earned(reg, d, now)
  {
    var dependsOn := reg.gates[id].dependsOn;
    blocked := false;
    for i := 0 to |dependsOn|
      invariant blocked <==> exists k :: 0 <= k < i && !Earned(reg, dependsOn[k], now)
    {
      PassedMeansEarned(reg, dependsOn[i], now);
      if status[dependsOn[i]] != Passed {
        blocked := true;
      }
    }
  }

  /** These are the claimed entries of the register. */
  ghost predicate AreClaimed(reg: Register, records: seq<Entry>)
  {
    forall e :: e in records <==> e in reg.entries && e.claimed
  }

  lemma PresentIsCovered(reg: Register, records: seq<Entry>, id: string, evidenceType: string, now: int)
    requires id in reg.gates && RowValid(reg, id) && AreClaimed(reg, records)
    ensures Present(records, id, FreshnessDays(reg.gates[id].freshness).value, evidenceType, now) <==>
      Covered(reg, id, evidenceType, now)
  {
    var f := reg.gates[id].freshness;
    var limit := FreshnessDays(f).value;
    if Present(records, id, limit, evidenceType, now) {
      var i :| 0 <= i < |records| && id in records[i].gateIds && records[i].evidenceType == evidenceType &&
        WithinAge(records[i], limit, now);
      assert records[i] in reg.entries;
      var k :| 0 <= k < |reg.entries| && reg.entries[k] == records[i];
      assert Witnesses(reg.entries[k], id, f, evidenceType, now);
    }
    if Covered(reg, id, evidenceType, now) {
      var k :| 0 <= k < |reg.entries| && Witnesses(reg.entries[k], id, f, evidenceType, now);
      assert reg.entries[k] in records;
      var i :| 0 <= i < |records| && records[i] == reg.entries[k];
    }
  }

  /** The status of one gate, once those of its dependencies are known. */
  method GateStatus(reg: Register, records: seq<Entry>, status: map<string, Status>, id: string, now: int) returns (s: Status)
    requires id in reg.gates && Closed(GraphOf(reg)) && RowValid(reg, id) && AreClaimed(reg, records)
    requires forall d :: d in reg.gates[id].dependsOn ==> d in reg.gates && d in status && status[d] == StatusOf(reg, d, now)
    ensures s == StatusOf(reg, id, now)
  {
    var gate := reg.gates[id];
    var blocked := DependencyBlocks(reg, status, id, now);
    if blocked || !GapsClosed(reg, gate.blockingGaps) {
      return Blocked;
    }
    var limit := FreshnessDays(gate.freshness).value;
    for i := 0 to |gate.evidenceTypes|
      invariant forall k :: 0 <= k < i ==> Covered(reg, id, gate.evidenceTypes[k], now)
    {
      PresentIsCovered(reg, records, id, gate.evidenceTypes[i], now);
      if !Present(records, id, limit, gate.evidenceTypes[i], now) {
        return Open;
      }
    }
    s := Passed;
  }

  ghost predicate Settled(reg: Register, status: map<string, Status>, now: int)
  {
    forall d :: d in status ==> d in reg.gates && RowValid(reg, d) && status[d] == StatusOf(reg, d, now)
  }

  lemma DependenciesSettled(reg: Register, order: seq<string>, status: map<string, Status>, i: nat, now: int)
    requires Topological(GraphOf(reg), order) && i < |order| && status.Keys == Elements(order[..i])
    requires Settled(reg, status, now)
    ensures order[i] in reg.gates
    ensures forall d :: d in reg.gates[order[i]].dependsOn ==>
      d in reg.gates && d in status && status[d] == StatusOf(reg, d, now)
  {
    assert order[i] in GraphOf(reg).deps;
    forall d | d in reg.gates[order[i]].dependsOn ensures d in status {
      assert d in GraphOf(reg).deps[order[i]];
    }
  }

  lemma SettledStep(reg: Register, order: seq<string>, status: map<string, Status>, i: nat, s: Status, now: int)
    requires i < |order| && status.Keys == Elements(order[..i]) && Settled(reg, status, now)
    requires order[i] in reg.gates && RowValid(reg, order[i]) && s == StatusOf(reg, order[i], now)
    ensures status[order[i] := s].Keys == Elements(order[..i + 1]) && Settled(reg, status[order[i] := s], now)
  {
    assert order[..i + 1] == order[..i] + [order[i]];
  }

  lemma AllSettled(reg: Register, order: seq<string>)
    requires Topological(GraphOf(reg), order)
    ensures Elements(order) == reg.gates.Keys
  {
    forall id ensures id in reg.gates <==> id in order {
      assert id in GraphOf(reg).deps <==> id in order;
    }
  }

  /** The loop over a topological order. */
  method DeriveInOrder(reg: Register, records: seq<Entry>, order: seq<string>, now: int)
    returns (r: Result<map<string, Status>, DeriveError>)
    requires Topological(GraphOf(reg), order) && Closed(GraphOf(reg)) && AreClaimed(reg, records)
    ensures r.Ok? <==> forall id :: id in reg.gates ==> RowValid(reg, id)
    ensures r.Ok? ==> r.value.Keys == reg.gates.Keys && Settled(reg, r.value, now)
  {
    var status: map<string, Status> := map[];
    for i := 0 to |order|
      invariant status.Keys == Elements(order[..i]) && Settled(reg, status, now)
    {
      DependenciesSettled(reg, order, status, i, now);
      if !RowValid(reg, order[i]) {
        return Err(BadRow);
      }
      var s := GateStatus(reg, records, status, order[i], now);
      SettledStep(reg, order, status, i, s, now);
      status := status[order[i] := s];
    }
    assert order[..|order|] == order;
    AllSettled(reg, order);
    r := Ok(status);
  }

  /** derive: it fails closed on any bad input, and otherwise the status of every
      gate is the transitive one, whichever topological order was taken. */
  method Derive(reg: Register, now: int) returns (r: Result<map<string, Status>, DeriveError>)
    requires WellFormed(GraphOf(reg))
    ensures r.Ok? <==> Derivable(reg, now)
    ensures r.Ok? ==> r.value.Keys == reg.gates.Keys
    ensures r.Ok? ==> forall id :: id in reg.gates ==> r.value[id] == StatusOf(reg, id, now)
    ensures r.Ok? ==> forall id :: id in reg.gates ==>
      && (r.value[id] == Passed <==> Earned(reg, id, now))
      && (r.value[id] == Blocked <==> HeldBack(reg, id, now))
      && (r.value[id] == Open <==> !HeldBack(reg, id, now) && !EvidenceCovers(reg, id, now))
  {
    if exists id :: id in reg.gaps && reg.gaps[id].closed && !reg.gaps[id].backed(now) {
      return Err(UnbackedGap);
    }
    var records := AcceptedRecords(reg.entries, now);
    if records.Err? {
      return Err(records.error);
    }
    var order := TopologicalOrder(GraphOf(reg));
    if order.Err? {
      return Err(BadGraph(order.error));
    }
    r := DeriveInOrder(reg, records.value, order.value, now);
    if r.Ok? {
      forall id | id in reg.gates
        ensures StatusOf(reg, id, now) == Passed <==> Earned(reg, id, now)
        ensures StatusOf(reg, id, now) == Blocked <==> HeldBack(reg, id, now)
        ensures StatusOf(reg, id, now) == Open <==> !HeldBack(reg, id, now) && !EvidenceCovers(reg, id, now)
      {
        PassedMeansEarned(reg, id, now);
      }
    }
  }

  // --------------------------------------------------------------- monotonicity

  /** For a fixed register the set of passed gates only shrinks as time goes by. */
  lemma PassedShrinksWithTime(reg: Register, id: string, now: int, later: int)
    requires now <= later && Earned(reg, id, later)
    ensures Earned(reg, id, now)
  {
    forall other | Reaches(GraphOf(reg), id, other) ensures SelfEarned(reg, other, now) {
      assert SelfEarned(reg, other, later);
      forall t | t in reg.gates[other].evidenceTypes ensures Covered(reg, other, t, now) {
        assert Covered(reg, other, t, later);
        var i :| 0 <= i < |reg.entries| && Witnesses(reg.entries[i], other, reg.gates[other].freshness, t, later);
        assert Witnesses(reg.entries[i], other, reg.gates[other].freshness, t, now);
      }
    }
  }

  /** Closing gaps never takes a passed gate back. */
  lemma PassedGrowsAsGapsClose(reg: Register, gaps: map<string, Gap>, id: string, now: int)
    requires forall gap :: gap in reg.gaps && reg.gaps[gap].closed ==> gap in gaps && gaps[gap].closed
    requires Earned(reg, id, now)
    ensures Earned(reg.(gaps := gaps), id, now)
  {
    var better := reg.(gaps := gaps);
    assert GraphOf(better) == GraphOf(reg);
    forall other | Reaches(GraphOf(better), id, other) ensures SelfEarned(better, other, now) {
      assert SelfEarned(reg, other, now);
      forall t | t in reg.gates[other].evidenceTypes ensures Covered(better, other, t, now) {
        assert Covered(reg, other, t, now);
      }
    }
  }
}

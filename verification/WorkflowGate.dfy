/** The exact-head gate over required workflow runs
    (scripts/check-required-workflow-runs-core.py and its hardened form).

    What the API answers in each poll is an input, and so is the poll at which
    the deadline has passed. Failure messages are reduced to their kinds. */
module WorkflowGate {
  import opened Common

  datatype Run = Run(
    id: int, attempt: int, workflowId: int, name: string, path: string,
    status: string, conclusion: Option<string>, headSha: string, event: string)

  datatype Requirement = Requirement(
    workflowId: int, name: string, path: string, allowedEvents: seq<string>, minimumJobs: nat)

  datatype Manifest = Manifest(event: string, aggregateId: int, rejectUnlisted: bool, workflows: seq<Requirement>)

  // ---------------------------------------------------------------- latest runs

  predicate Eligible(m: Manifest, head: string, run: Run)
  {
    run.headSha == head && run.event == m.event && run.workflowId != m.aggregateId
  }

  /** Python compares the pairs (id, attempt) lexicographically. */
  predicate Newer(a: Run, b: Run)
  {
    a.id > b.id || (a.id == b.id && a.attempt > b.attempt)
  }

  function Latest(m: Manifest, head: string, listing: seq<Run>): map<int, Run>
  {
    if listing == [] then map[]
    else
      var before, run := Latest(m, head, listing[..|listing| - 1]), listing[|listing| - 1];
      if Eligible(m, head, run) && (run.workflowId !in before || Newer(run, before[run.workflowId]))
      then before[run.workflowId := run]
      else before
  }

  method LatestRuns(m: Manifest, head: string, listing: seq<Run>) returns (selected: map<int, Run>)
    ensures selected == Latest(m, head, listing)
  {
    selected := map[];
    for i := 0 to |listing|
      invariant selected == Latest(m, head, listing[..i])
    {
      assert listing[..i + 1][..i] == listing[..i];
      var run := listing[i];
      if run.headSha == head && run.event == m.event && run.workflowId != m.aggregateId {
        if run.workflowId !in selected || Newer(run, selected[run.workflowId]) {
          selected := selected[run.workflowId := run];
        }
      }
    }
    assert listing[..|listing|] == listing;
  }

  /** `run` is the newest eligible run of its workflow in the listing. */
  predicate IsNewest(m: Manifest, head: string, listing: seq<Run>, run: Run)
  {
    run in listing && Eligible(m, head, run) &&
    forall other :: other in listing && Eligible(m, head, other) && other.workflowId == run.workflowId ==> !Newer(other, run)
  }

  lemma {:induction false} LatestIsNewest(m: Manifest, head: string, listing: seq<Run>, w: int)
    ensures w in Latest(m, head, listing) <==> exists run :: run in listing && Eligible(m, head, run) && run.workflowId == w
    ensures w in Latest(m, head, listing) ==>
      (Latest(m, head, listing)[w].workflowId == w && IsNewest(m, head, listing, Latest(m, head, listing)[w]))
  {
    if listing != [] {
      var before, last := listing[..|listing| - 1], listing[|listing| - 1];
      LatestIsNewest(m, head, before, w);
      assert listing == before + [last];
      if w in Latest(m, head, listing) {
        assert Latest(m, head, listing)[w] == last || (w in Latest(m, head, before) && Latest(m, head, listing)[w] == Latest(m, head, before)[w]);
      }
    }
  }

  /** Two eligible runs of one workflow never share both their id and attempt. */
  predicate Distinguished(m: Manifest, head: string, listing: seq<Run>)
  {
    forall a, b ::
      (a in listing && b in listing && Eligible(m, head, a) && Eligible(m, head, b) &&
       a.workflowId == b.workflowId && a.id == b.id && a.attempt == b.attempt) ==> a == b
  }

  /** The order in which the API lists the runs does not matter. */
  lemma {:induction false} LatestIgnoresOrder(m: Manifest, head: string, one: seq<Run>, two: seq<Run>)
    requires Distinguished(m, head, one) && forall run :: run in one <==> run in two
    ensures Latest(m, head, one) == Latest(m, head, two)
  {
    forall w
      ensures w in Latest(m, head, one) <==> w in Latest(m, head, two)
      ensures w in Latest(m, head, one) ==> Latest(m, head, one)[w] == Latest(m, head, two)[w]
    {
      LatestIsNewest(m, head, one, w);
      LatestIsNewest(m, head, two, w);
    }
  }

  // ------------------------------------------------------------------ selection

  datatype Failure = Unlisted | NotFound | NameMismatch | PathMismatch | EventMismatch

  /** select_runs: the selected runs in manifest order, and the failures. */
  method SelectRuns(m: Manifest, head: string, listing: seq<Run>) returns (runs: seq<Run>, failures: seq<Failure>)
    ensures var latest := Latest(m, head, listing);
      && runs == Selected(m, latest, |m.workflows|)
      && (Only(failures) <==> Acceptable(m, latest))
      && (NotFound in failures <==> exists i :: 0 <= i < |m.workflows| && m.workflows[i].workflowId !in latest)
  {
    var latest := LatestRuns(m, head, listing);
    failures := [];
    if m.rejectUnlisted && exists w :: w in latest && !Listed(m, w) {
      failures := [Unlisted];
      assert Unlisted in failures;
    }
    runs := [];
    ghost var listed := failures == [];
    for i := 0 to |m.workflows|
      invariant runs == Selected(m, latest, i)
      invariant Only(failures) <==> listed && MatchedUpTo(m, latest, i)
      invariant NotFound in failures <==> MissedUpTo(m, latest, i)
    {
      var requirement := m.workflows[i];
      UpToStep(m, latest, i);
      if requirement.workflowId !in latest {
        OnlyAppend(failures, [NotFound]);
        failures := failures + [NotFound];
      } else {
        var run := latest[requirement.workflowId];
        var mismatches := Mismatches(requirement, run);
        runs := runs + [run];
        OnlyAppend(failures, mismatches);
        failures := failures + mismatches;
      }
    }
  }

  /** The first n requirements agree with their runs, as far as they have one. */
  predicate MatchedUpTo(m: Manifest, latest: map<int, Run>, n: nat)
    requires n <= |m.workflows|
  {
    forall k :: 0 <= k < n && m.workflows[k].workflowId in latest ==>
      Matches(m.workflows[k], latest[m.workflows[k].workflowId])
  }

  /** One of the first n requirements has no run. */
  predicate MissedUpTo(m: Manifest, latest: map<int, Run>, n: nat)
    requires n <= |m.workflows|
  {
    exists k :: 0 <= k < n && m.workflows[k].workflowId !in latest
  }

  lemma UpToStep(m: Manifest, latest: map<int, Run>, i: nat)
    requires i < |m.workflows|
    ensures var id := m.workflows[i].workflowId;
      && (MatchedUpTo(m, latest, i + 1) <==>
            MatchedUpTo(m, latest, i) && (id in latest ==> Matches(m.workflows[i], latest[id])))
      && (MissedUpTo(m, latest, i + 1) <==> MissedUpTo(m, latest, i) || id !in latest)
  {
  }

  predicate Only(failures: seq<Failure>)
  {
    forall f :: f in failures ==> f == NotFound
  }

  lemma OnlyAppend(a: seq<Failure>, b: seq<Failure>)
    ensures Only(a + b) <==> Only(a) && Only(b)
    ensures NotFound in a + b <==> NotFound in a || NotFound in b
  {
    assert forall f :: f in a + b <==> f in a || f in b;
  }

  function Mismatches(r: Requirement, run: Run): (failures: seq<Failure>)
    ensures Only(failures) <==> Matches(r, run)
    ensures NotFound !in failures
  {
    var name := if run.name != r.name then [NameMismatch] else [];
    var path := if run.path != r.path then [PathMismatch] else [];
    var event := if run.event !in r.allowedEvents then [EventMismatch] else [];
    assert run.name != r.name ==> NameMismatch in name;
    assert run.path != r.path ==> PathMismatch in path;
    assert run.event !in r.allowedEvents ==> EventMismatch in event;
    OnlyAppend(name, path);
    OnlyAppend(name + path, event);
    name + path + event
  }

  predicate Listed(m: Manifest, w: int)
  {
    exists i :: 0 <= i < |m.workflows| && m.workflows[i].workflowId == w
  }

  predicate Matches(r: Requirement, run: Run)
  {
    run.name == r.name && run.path == r.path && run.event in r.allowedEvents
  }

  function Selected(m: Manifest, latest: map<int, Run>, n: nat): seq<Run>
    requires n <= |m.workflows|
  {
    if n == 0 then []
    else
      var w := m.workflows[n - 1].workflowId;
      Selected(m, latest, n - 1) + (if w in latest then [latest[w]] else [])
  }

  /** No unlisted workflow, and each listed one that is present is as required. */
  predicate Acceptable(m: Manifest, latest: map<int, Run>)
  {
    && (m.rejectUnlisted ==> forall w :: w in latest ==> Listed(m, w))
    && forall k :: 0 <= k < |m.workflows| && m.workflows[k].workflowId in latest ==>
         Matches(m.workflows[k], latest[m.workflows[k].workflowId])
  }

  // ----------------------------------------------------------------- job evidence

  datatype Step = Step(name: string, status: string, conclusion: Option<string>)

  datatype Job = Malformed | Job(status: string, conclusion: Option<string>, steps: seq<Step>)

  const FRAMEWORK_STEPS: set<string> := {
    "Set up job", "Complete job", "Prepare all required actions", "Initialize containers", "Start containers",
    "Stop containers"}

  predicate IsFrameworkStep(name: string)
  {
    name in FRAMEWORK_STEPS || "Post " <= name
  }

  predicate Succeeded(status: string, conclusion: Option<string>)
  {
    status == "completed" && conclusion == Some("success")
  }

  /** A step of the job itself that was not skipped. */
  predicate Effective(s: Step)
  {
    !IsFrameworkStep(s.name) && s.conclusion != Some("skipped")
  }

  /** The job and all its effective steps succeeded, and there is at least one. */
  predicate Executed(job: Job)
  {
    && job.Job? && Succeeded(job.status, job.conclusion)
    && (exists i :: 0 <= i < |job.steps| && Effective(job.steps[i]))
    && (forall i :: 0 <= i < |job.steps| && Effective(job.steps[i]) ==> Succeeded(job.steps[i].status, job.steps[i].conclusion))
  }

  predicate Skipped(job: Job)
  {
    job.Job? && job.conclusion == Some("skipped")
  }

  function ExecutedCount(jobs: seq<Job>): nat
  {
    if jobs == [] then 0
    else ExecutedCount(jobs[..|jobs| - 1]) + (if Executed(jobs[|jobs| - 1]) then 1 else 0)
  }

  predicate JobsHold(jobs: seq<Job>, minimum: nat)
  {
    && jobs != [] && (forall i :: 0 <= i < |jobs| ==> Skipped(jobs[i]) || Executed(jobs[i]))
    && ExecutedCount(jobs) >= minimum
  }

  method StepFailures(steps: seq<Step>) returns (failures: nat, successful: nat)
    ensures failures == 0 <==>
      forall i :: 0 <= i < |steps| && Effective(steps[i]) ==> Succeeded(steps[i].status, steps[i].conclusion)
    ensures failures == 0 ==> (successful == 0 <==> forall i :: 0 <= i < |steps| ==> !Effective(steps[i]))
    ensures successful > 0 ==> exists i :: 0 <= i < |steps| && Effective(steps[i])
  {
    failures, successful := 0, 0;
    for i := 0 to |steps|
      invariant failures == 0 <==>
        forall k :: 0 <= k < i && Effective(steps[k]) ==> Succeeded(steps[k].status, steps[k].conclusion)
      invariant failures == 0 ==> (successful == 0 <==> forall k :: 0 <= k < i ==> !Effective(steps[k]))
      invariant successful > 0 ==> exists k :: 0 <= k < i && Effective(steps[k])
    {
      if IsFrameworkStep(steps[i].name) || steps[i].conclusion == Some("skipped") {
        continue;
      }
      if steps[i].status != "completed" || steps[i].conclusion != Some("success") {
        failures := failures + 1;
        continue;
      }
      successful := successful + 1;
    }
  }

  /** job_failures: no failure is reported exactly when the evidence holds; a
      failed step is never masked by its job's conclusion. */
  method JobFailures(jobs: seq<Job>, minimum: nat) returns (failures: nat)
    ensures failures == 0 <==> JobsHold(jobs, minimum)
  {
    if jobs == [] {
      return 1;
    }
    failures := 0;
    var valid := 0;
    for i := 0 to |jobs|
      invariant valid == ExecutedCount(jobs[..i])
      invariant failures == 0 <==> forall k :: 0 <= k < i ==> Skipped(jobs[k]) || Executed(jobs[k])
    {
      assert jobs[..i + 1][..i] == jobs[..i];
      var job := jobs[i];
      if job.Malformed? {
        failures := failures + 1;
        continue;
      }
      if job.conclusion == Some("skipped") {
        continue;
      }
      if job.status != "completed" || job.conclusion != Some("success") || job.steps == [] {
        failures := failures + 1;
        continue;
      }
      var failed, successful := StepFailures(job.steps);
      if failed == 0 && successful > 0 {
        valid := valid + 1;
      } else {
        failures := failures + 1;
      }
    }
    assert jobs[..|jobs|] == jobs;
    if valid < minimum {
      failures := failures + 1;
    }
  }

  // -------------------------------------------------------------------- one poll

  datatype Metadata = Metadata(id: int, name: string, path: string, state: string, aliasVerified: bool)

  /** What the API answers during one poll; an absent answer is an error. */
  datatype Poll = Poll(
    first: Option<seq<Run>>, metadata: map<int, Metadata>, jobs: map<(int, int), seq<Job>>,
    final: Option<seq<Run>>, expired: bool)

  type Identity = map<int, (int, int)>

  datatype Outcome = Fails | Waits | Steady(identity: Identity)

  predicate MetadataHolds(r: Requirement, md: Metadata)
  {
    md.id == r.workflowId && (md.name == r.name || md.aliasVerified) && md.path == r.path && md.state == "active"
  }

  function IdentityOf(m: Manifest, latest: map<int, Run>): Identity
  {
    map w | w in latest && Listed(m, w) :: (latest[w].id, latest[w].attempt)
  }

  predicate Conclusive(m: Manifest, latest: map<int, Run>)
  {
    forall k :: 0 <= k < |m.workflows| ==>
      m.workflows[k].workflowId in latest && latest[m.workflows[k].workflowId].status == "completed"
  }

  /** Some selected run completed without success. */
  predicate Unsuccessful(m: Manifest, latest: map<int, Run>)
  {
    exists k :: 0 <= k < |m.workflows| && m.workflows[k].workflowId in latest &&
      var run := latest[m.workflows[k].workflowId]; run.status == "completed" && run.conclusion != Some("success")
  }

  predicate RequirementVerified(r: Requirement, run: Run, poll: Poll)
  {
    && r.workflowId in poll.metadata && MetadataHolds(r, poll.metadata[r.workflowId])
    && (run.id, run.attempt) in poll.jobs && JobsHold(poll.jobs[(run.id, run.attempt)], r.minimumJobs)
  }

  predicate EvidenceHolds(m: Manifest, latest: map<int, Run>, poll: Poll)
  {
    forall k :: 0 <= k < |m.workflows| ==>
      m.workflows[k].workflowId in latest && RequirementVerified(m.workflows[k], latest[m.workflows[k].workflowId], poll)
  }

  /** One pass of the poll loop up to the stability counter. */
  function Look(m: Manifest, head: string, poll: Poll): Outcome
  {
    if poll.first.None? then Fails
    else
      var latest := Latest(m, head, poll.first.value);
      if !Acceptable(m, latest) || Unsuccessful(m, latest) then Fails
      else if !Conclusive(m, latest) then Waits
      else if !EvidenceHolds(m, latest, poll) || poll.final.None? then Fails
      else
        var final := Latest(m, head, poll.final.value);
        if !Acceptable(m, final) || Unsuccessful(m, final) then Fails
        else if !Conclusive(m, final) || IdentityOf(m, final) != IdentityOf(m, latest) then Waits
        else Steady(IdentityOf(m, latest))
  }

  /** The newest run of each required workflow is as required and succeeded, and
      `identity` names it. */
  ghost predicate AllSucceeded(m: Manifest, head: string, listing: seq<Run>, identity: Identity)
  {
    forall k :: 0 <= k < |m.workflows| ==> RequirementSucceeded(m, head, listing, identity, m.workflows[k])
  }

  predicate RequirementSucceeded(m: Manifest, head: string, listing: seq<Run>, identity: Identity, r: Requirement)
  {
    exists run :: run in listing && SucceededAs(m, head, listing, identity, r, run)
  }

  predicate SucceededAs(m: Manifest, head: string, listing: seq<Run>, identity: Identity, r: Requirement, run: Run)
  {
    && IsNewest(m, head, listing, run) && run.workflowId == r.workflowId && Matches(r, run)
    && Succeeded(run.status, run.conclusion)
    && run.workflowId in identity && identity[run.workflowId] == (run.id, run.attempt)
  }

  lemma {:induction false} ListingSucceeded(m: Manifest, head: string, listing: seq<Run>)
    requires var latest := Latest(m, head, listing); Acceptable(m, latest) && !Unsuccessful(m, latest) && Conclusive(m, latest)
    ensures AllSucceeded(m, head, listing, IdentityOf(m, Latest(m, head, listing)))
  {
    var latest := Latest(m, head, listing);
    forall k | 0 <= k < |m.workflows|
      ensures RequirementSucceeded(m, head, listing, IdentityOf(m, latest), m.workflows[k])
    {
      var w := m.workflows[k].workflowId;
      LatestIsNewest(m, head, listing, w);
      assert Listed(m, w);
      assert SucceededAs(m, head, listing, IdentityOf(m, latest), m.workflows[k], latest[w]);
    }
  }

  /** A poll counts as steady only if both of its listings show every required
      workflow succeeded at one identity whose jobs were all verified. */
  lemma SteadyMeansVerified(m: Manifest, head: string, poll: Poll)
    requires Look(m, head, poll).Steady?
    ensures var identity := Look(m, head, poll).identity;
      && poll.first.Some? && AllSucceeded(m, head, poll.first.value, identity)
      && poll.final.Some? && AllSucceeded(m, head, poll.final.value, identity)
      && (forall k :: 0 <= k < |m.workflows| ==>
            m.workflows[k].workflowId in identity && identity[m.workflows[k].workflowId] in poll.jobs &&
            JobsHold(poll.jobs[identity[m.workflows[k].workflowId]], m.workflows[k].minimumJobs))
  {
    var latest := Latest(m, head, poll.first.value);
    ListingSucceeded(m, head, poll.first.value);
    ListingSucceeded(m, head, poll.final.value);
    forall k | 0 <= k < |m.workflows|
      ensures var w := m.workflows[k].workflowId; w in latest && Listed(m, w) && RequirementVerified(m.workflows[k], latest[w], poll)
    {
    }
  }

  // ----------------------------------------------- one poll, over what the API listed

  /** Some newest run is of a workflow that must not be there, differs from its
      requirement, or ended without success. */
  predicate Broken(m: Manifest, head: string, listing: seq<Run>)
  {
    exists run :: run in listing && Breaks(m, head, listing, run)
  }

  predicate Breaks(m: Manifest, head: string, listing: seq<Run>, run: Run)
  {
    IsNewest(m, head, listing, run) &&
    ((m.rejectUnlisted && !Listed(m, run.workflowId)) ||
     exists k :: 0 <= k < |m.workflows| && m.workflows[k].workflowId == run.workflowId &&
       (!Matches(m.workflows[k], run) || (run.status == "completed" && run.conclusion != Some("success"))))
  }

  /** Every required workflow has a newest run that ended. */
  predicate Ended(m: Manifest, head: string, listing: seq<Run>)
  {
    forall k :: 0 <= k < |m.workflows| ==> EndedRun(m, head, listing, m.workflows[k].workflowId)
  }

  predicate EndedRun(m: Manifest, head: string, listing: seq<Run>, w: int)
  {
    exists run :: run in listing && IsNewest(m, head, listing, run) && run.workflowId == w && run.status == "completed"
  }

  /** The newest runs are the same ones in both listings. */
  predicate SameRuns(m: Manifest, head: string, one: seq<Run>, two: seq<Run>)
  {
    forall k :: 0 <= k < |m.workflows| ==> SharedRun(m, head, one, two, m.workflows[k].workflowId)
  }

  predicate SharedRun(m: Manifest, head: string, one: seq<Run>, two: seq<Run>, w: int)
  {
    exists a, b :: a in one && b in two && IsNewest(m, head, one, a) && IsNewest(m, head, two, b) &&
      a.workflowId == w == b.workflowId && a.id == b.id && a.attempt == b.attempt
  }

  /** Metadata and jobs of the newest runs are as required. */
  predicate Verified(m: Manifest, head: string, listing: seq<Run>, poll: Poll)
  {
    forall k :: 0 <= k < |m.workflows| ==> VerifiedRun(m, head, listing, poll, m.workflows[k])
  }

  predicate VerifiedRun(m: Manifest, head: string, listing: seq<Run>, poll: Poll, r: Requirement)
  {
    exists run :: run in listing && IsNewest(m, head, listing, run) && run.workflowId == r.workflowId &&
      RequirementVerified(r, run, poll)
  }

  lemma {:induction false} NewestIsLatest(m: Manifest, head: string, listing: seq<Run>, run: Run)
    requires Distinguished(m, head, listing)
    ensures IsNewest(m, head, listing, run) <==>
      run.workflowId in Latest(m, head, listing) && Latest(m, head, listing)[run.workflowId] == run
  {
    LatestIsNewest(m, head, listing, run.workflowId);
  }

  lemma {:induction false} LatestAreNewest(m: Manifest, head: string, listing: seq<Run>, latest: map<int, Run>)
    requires Distinguished(m, head, listing) && latest == Latest(m, head, listing)
    ensures forall w :: w in latest ==> latest[w] in listing && latest[w].workflowId == w && IsNewest(m, head, listing, latest[w])
    ensures forall run :: IsNewest(m, head, listing, run) ==> run.workflowId in latest && latest[run.workflowId] == run
  {
    forall w | w in latest ensures latest[w] in listing && latest[w].workflowId == w && IsNewest(m, head, listing, latest[w]) {
      LatestIsNewest(m, head, listing, w);
    }
    forall run | IsNewest(m, head, listing, run) ensures run.workflowId in latest && latest[run.workflowId] == run {
      NewestIsLatest(m, head, listing, run);
    }
  }

  lemma {:induction false} BrokenIsExact(m: Manifest, head: string, listing: seq<Run>, latest: map<int, Run>)
    requires Distinguished(m, head, listing) && latest == Latest(m, head, listing)
    ensures Broken(m, head, listing) <==> !Acceptable(m, latest) || Unsuccessful(m, latest)
  {
    LatestAreNewest(m, head, listing, latest);
    if !Acceptable(m, latest) {
      if m.rejectUnlisted && exists w :: w in latest && !Listed(m, w) {
        var w :| w in latest && !Listed(m, w);
        assert Breaks(m, head, listing, latest[w]);
      } else {
        var k :| 0 <= k < |m.workflows| && m.workflows[k].workflowId in latest &&
          !Matches(m.workflows[k], latest[m.workflows[k].workflowId]);
        assert Breaks(m, head, listing, latest[m.workflows[k].workflowId]);
      }
    }
    if Unsuccessful(m, latest) {
      var k :| 0 <= k < |m.workflows| && m.workflows[k].workflowId in latest &&
        latest[m.workflows[k].workflowId].status == "completed" && latest[m.workflows[k].workflowId].conclusion != Some("success");
      assert Breaks(m, head, listing, latest[m.workflows[k].workflowId]);
    }
  }

  lemma {:induction false} EndedIsExact(m: Manifest, head: string, listing: seq<Run>, latest: map<int, Run>)
    requires Distinguished(m, head, listing) && latest == Latest(m, head, listing)
    ensures Ended(m, head, listing) <==> Conclusive(m, latest)
  {
    LatestAreNewest(m, head, listing, latest);
    if Ended(m, head, listing) {
      forall k | 0 <= k < |m.workflows|
        ensures m.workflows[k].workflowId in latest && latest[m.workflows[k].workflowId].status == "completed"
      {
        assert EndedRun(m, head, listing, m.workflows[k].workflowId);
      }
    }
    if Conclusive(m, latest) {
      forall k | 0 <= k < |m.workflows| ensures EndedRun(m, head, listing, m.workflows[k].workflowId) {
        assert IsNewest(m, head, listing, latest[m.workflows[k].workflowId]);
      }
    }
  }

  lemma {:induction false} VerifiedIsExact(m: Manifest, head: string, listing: seq<Run>, latest: map<int, Run>, poll: Poll)
    requires Distinguished(m, head, listing) && latest == Latest(m, head, listing)
    ensures Verified(m, head, listing, poll) <==> EvidenceHolds(m, latest, poll)
  {
    LatestAreNewest(m, head, listing, latest);
    if Verified(m, head, listing, poll) {
      forall k | 0 <= k < |m.workflows|
        ensures m.workflows[k].workflowId in latest && RequirementVerified(m.workflows[k], latest[m.workflows[k].workflowId], poll)
      {
        assert VerifiedRun(m, head, listing, poll, m.workflows[k]);
      }
    }
    if EvidenceHolds(m, latest, poll) {
      forall k | 0 <= k < |m.workflows| ensures VerifiedRun(m, head, listing, poll, m.workflows[k]) {
        assert IsNewest(m, head, listing, latest[m.workflows[k].workflowId]);
      }
    }
  }

  lemma {:induction false} SharedRunIsExact(m: Manifest, head: string, one: seq<Run>, two: seq<Run>, latest: map<int, Run>,
                                            final: map<int, Run>, w: int)
    requires Distinguished(m, head, one) && latest == Latest(m, head, one) && w in latest
    requires Distinguished(m, head, two) && final == Latest(m, head, two) && w in final
    ensures SharedRun(m, head, one, two, w) <==> (latest[w].id, latest[w].attempt) == (final[w].id, final[w].attempt)
  {
    LatestIsNewest(m, head, one, w);
    LatestIsNewest(m, head, two, w);
    if SharedRun(m, head, one, two, w) {
      var a, b :| a in one && b in two && IsNewest(m, head, one, a) && IsNewest(m, head, two, b) &&
        a.workflowId == w == b.workflowId && a.id == b.id && a.attempt == b.attempt;
      NewestIsLatest(m, head, one, a);
      NewestIsLatest(m, head, two, b);
    }
  }

  lemma IdentitiesEqual(m: Manifest, latest: map<int, Run>, final: map<int, Run>)
    requires Conclusive(m, latest) && Conclusive(m, final)
    ensures IdentityOf(m, final) == IdentityOf(m, latest) <==>
      forall k :: 0 <= k < |m.workflows| ==>
        var w := m.workflows[k].workflowId; (latest[w].id, latest[w].attempt) == (final[w].id, final[w].attempt)
  {
    forall w ensures w in IdentityOf(m, final) <==> w in IdentityOf(m, latest) {}
    if IdentityOf(m, final) == IdentityOf(m, latest) {
      forall k | 0 <= k < |m.workflows|
        ensures var w := m.workflows[k].workflowId; (latest[w].id, latest[w].attempt) == (final[w].id, final[w].attempt)
      {
        var w := m.workflows[k].workflowId;
        assert Listed(m, w) && IdentityOf(m, final)[w] == IdentityOf(m, latest)[w];
      }
    }
  }

  lemma {:induction false} SameRunsIsExact(m: Manifest, head: string, one: seq<Run>, two: seq<Run>, latest: map<int, Run>,
                                           final: map<int, Run>)
    requires Distinguished(m, head, one) && latest == Latest(m, head, one) && Conclusive(m, latest)
    requires Distinguished(m, head, two) && final == Latest(m, head, two) && Conclusive(m, final)
    ensures SameRuns(m, head, one, two) <==> IdentityOf(m, final) == IdentityOf(m, latest)
  {
    IdentitiesEqual(m, latest, final);
    forall k | 0 <= k < |m.workflows|
      ensures var w := m.workflows[k].workflowId;
        SharedRun(m, head, one, two, w) <==> (latest[w].id, latest[w].attempt) == (final[w].id, final[w].attempt)
    {
      SharedRunIsExact(m, head, one, two, latest, final, m.workflows[k].workflowId);
    }
  }

  /** A poll whose listings tell runs apart fails, waits or is steady exactly by
      what it listed: it fails on a missing answer, a broken listing or missing
      evidence, is steady when both listings ended and show the same verified
      runs, and waits otherwise. */
  lemma {:induction false} LookIsExact(m: Manifest, head: string, poll: Poll)
    requires poll.first.Some? ==> Distinguished(m, head, poll.first.value)
    requires poll.final.Some? ==> Distinguished(m, head, poll.final.value)
    ensures Look(m, head, poll).Fails? <==>
      || poll.first.None? || Broken(m, head, poll.first.value)
      || (Ended(m, head, poll.first.value) &&
          (!Verified(m, head, poll.first.value, poll) || poll.final.None? || Broken(m, head, poll.final.value)))
    ensures Look(m, head, poll).Steady? <==>
      && poll.first.Some? && !Broken(m, head, poll.first.value) && Ended(m, head, poll.first.value)
      && poll.final.Some? && !Broken(m, head, poll.final.value) && Ended(m, head, poll.final.value)
      && Verified(m, head, poll.first.value, poll) && SameRuns(m, head, poll.first.value, poll.final.value)
  {
    if poll.first.Some? {
      var latest := Latest(m, head, poll.first.value);
      BrokenIsExact(m, head, poll.first.value, latest);
      EndedIsExact(m, head, poll.first.value, latest);
      VerifiedIsExact(m, head, poll.first.value, latest, poll);
      if poll.final.Some? {
        var final := Latest(m, head, poll.final.value);
        BrokenIsExact(m, head, poll.final.value, final);
        EndedIsExact(m, head, poll.final.value, final);
        if Conclusive(m, latest) && Conclusive(m, final) {
          SameRunsIsExact(m, head, poll.first.value, poll.final.value, latest, final);
        }
      }
    }
  }

  // ------------------------------------------------------------------ the program

  lemma {:induction false} SelectedAll(m: Manifest, latest: map<int, Run>, n: nat)
    requires n <= |m.workflows|
    ensures |Selected(m, latest, n)| <= n
    ensures |Selected(m, latest, n)| == n <==> forall k :: 0 <= k < n ==> m.workflows[k].workflowId in latest
    ensures forall run :: run in Selected(m, latest, n) <==>
      exists k :: 0 <= k < n && m.workflows[k].workflowId in latest && latest[m.workflows[k].workflowId] == run
  {
    if n > 0 {
      SelectedAll(m, latest, n - 1);
    }
  }

  datatype Listing = Rejected | Incomplete | Complete

  /** What one listing says about the required workflows. */
  method Inspect(m: Manifest, head: string, listing: seq<Run>) returns (verdict: Listing, runs: seq<Run>)
    ensures var latest := Latest(m, head, listing);
      && runs == Selected(m, latest, |m.workflows|)
      && (verdict.Rejected? <==> !Acceptable(m, latest) || Unsuccessful(m, latest))
      && (verdict.Complete? <==> !verdict.Rejected? && Conclusive(m, latest))
  {
    var failures;
    runs, failures := SelectRuns(m, head, listing);
    ghost var latest := Latest(m, head, listing);
    SelectedAll(m, latest, |m.workflows|);
    if !Only(failures) || exists run :: run in runs && run.status == "completed" && run.conclusion != Some("success") {
      return Rejected, runs;
    }
    if NotFound in failures || |runs| != |m.workflows| || exists run :: run in runs && run.status != "completed" {
      return Incomplete, runs;
    }
    verdict := Complete;
  }

  /** The evidence of each required workflow, in manifest order; the first
      missing answer or failure decides. */
  method VerifyEvidence(m: Manifest, latest: map<int, Run>, poll: Poll) returns (ok: bool)
    requires Conclusive(m, latest)
    ensures ok <==> EvidenceHolds(m, latest, poll)
  {
    for i := 0 to |m.workflows|
      invariant forall k :: 0 <= k < i ==> RequirementVerified(m.workflows[k], latest[m.workflows[k].workflowId], poll)
    {
      var r := m.workflows[i];
      var run := latest[r.workflowId];
      if r.workflowId !in poll.metadata || (run.id, run.attempt) !in poll.jobs {
        return false;
      }
      var failures := JobFailures(poll.jobs[(run.id, run.attempt)], r.minimumJobs);
      if failures != 0 || !MetadataHolds(r, poll.metadata[r.workflowId]) {
        return false;
      }
    }
    ok := true;
  }

  method CheckPoll(m: Manifest, head: string, poll: Poll) returns (outcome: Outcome)
    ensures outcome == Look(m, head, poll)
  {
    if poll.first.None? {
      return Fails;
    }
    var verdict, runs := Inspect(m, head, poll.first.value);
    if verdict.Rejected? {
      return Fails;
    }
    if verdict.Incomplete? {
      return Waits;
    }
    var latest := LatestRuns(m, head, poll.first.value);
    var verified := VerifyEvidence(m, latest, poll);
    if !verified || poll.final.None? {
      return Fails;
    }
    verdict, runs := Inspect(m, head, poll.final.value);
    if verdict.Rejected? {
      return Fails;
    }
    var final := LatestRuns(m, head, poll.final.value);
    if verdict.Incomplete? || IdentityOf(m, final) != IdentityOf(m, latest) {
      return Waits;
    }
    outcome := Steady(IdentityOf(m, latest));
  }

  function Looks(m: Manifest, head: string, polls: seq<Poll>): seq<Outcome>
  {
    seq(|polls|, i requires 0 <= i < |polls| => Look(m, head, polls[i]))
  }

  /** The last `n` polls up to `k` were steady at one identity. */
  predicate Streak(looks: seq<Outcome>, k: nat, n: nat)
    requires k < |looks|
  {
    n <= k + 1 && looks[k].Steady? && forall i :: k - n < i <= k ==> looks[i] == looks[k]
  }

  /** The gate gets as far as poll `k`: no failure and no deadline before it. */
  predicate Continues(looks: seq<Outcome>, polls: seq<Poll>, k: nat)
    requires k <= |polls| == |looks|
  {
    forall i :: 0 <= i < k ==> !looks[i].Fails? && !polls[i].expired
  }

  /** The counter after poll `i` is the length of the streak that ends there. */
  predicate Counts(looks: seq<Outcome>, i: nat, stable: nat, previous: Option<Identity>)
    requires i <= |looks|
  {
    && stable <= i && (stable > 0 <==> previous.Some?)
    && (forall j :: i - stable <= j < i ==> looks[j] == Steady(previous.value))
    && (0 < stable < i ==> looks[i - stable - 1] != Steady(previous.value))
    && (stable == 0 && i > 0 ==> !looks[i - 1].Steady?)
  }

  /** Some poll completes `n` steady polls in a row at one identity, and no poll
      before it failed or met the deadline. */
  predicate Passes(looks: seq<Outcome>, polls: seq<Poll>, n: nat)
    requires |polls| == |looks|
  {
    exists k :: 0 <= k < |looks| && Continues(looks, polls, k) && Streak(looks, k, n)
  }

  /** main, from the first poll to the exit. */
  method RunGate(m: Manifest, head: string, stablePolls: nat, polls: seq<Poll>) returns (passed: bool)
    requires 0 < stablePolls && polls != [] && polls[|polls| - 1].expired
    ensures passed <==> Passes(Looks(m, head, polls), polls, stablePolls)
  {
    ghost var looks := Looks(m, head, polls);
    var stable, i := 0, 0;
    var previous: Option<Identity> := None;
    while true
      invariant i < |polls| && Continues(looks, polls, i)
      invariant Counts(looks, i, stable, previous)
      invariant forall k :: 0 <= k < i ==> !Streak(looks, k, stablePolls)
      decreases |polls| - i
    {
      var outcome := CheckPoll(m, head, polls[i]);
      assert outcome == looks[i];
      CounterStep(looks, i, stable, previous);
      if outcome.Fails? {
        GateStops(looks, polls, i, stablePolls);
        return false;
      }
      if outcome.Steady? {
        stable := if previous == Some(outcome.identity) then stable + 1 else 1;
        previous := Some(outcome.identity);
      } else {
        stable, previous := 0, None;
      }
      StreakCounts(looks, i, stable, previous, stablePolls);
      if stable >= stablePolls {
        return true;
      }
      if polls[i].expired {
        GateStops(looks, polls, i, stablePolls);
        return false;
      }
      i := i + 1;
    }
  }

  lemma CounterStep(looks: seq<Outcome>, i: nat, stable: nat, previous: Option<Identity>)
    requires i < |looks| && Counts(looks, i, stable, previous)
    ensures
      if looks[i].Steady?
      then Counts(looks, i + 1, if previous == Some(looks[i].identity) then stable + 1 else 1, Some(looks[i].identity))
      else Counts(looks, i + 1, 0, None)
  {
  }

  lemma GateStops(looks: seq<Outcome>, polls: seq<Poll>, i: nat, n: nat)
    requires |polls| == |looks| && i < |looks| && forall k :: 0 <= k < i ==> !Streak(looks, k, n)
    requires looks[i].Fails? || (polls[i].expired && !Streak(looks, i, n))
    ensures !Passes(looks, polls, n)
  {
  }

  /** So the gate passes neither too early nor too late. */
  lemma StreakCounts(looks: seq<Outcome>, i: nat, stable: nat, previous: Option<Identity>, n: nat)
    requires i < |looks| && 0 < n && Counts(looks, i + 1, stable, previous)
    ensures Streak(looks, i, n) <==> stable >= n
  {
    if 0 < stable < n && stable <= i {
      assert looks[i] == Steady(previous.value) && looks[i - stable] != looks[i];
    }
  }

  /** Safety: if the gate passed, then in each of the last `stablePolls` polls
      both listings show every required workflow succeeded, all at the same run
      identity, and the jobs of exactly these attempts were verified. */
  lemma PassedMeansVerified(m: Manifest, head: string, stablePolls: nat, polls: seq<Poll>, k: nat, i: int)
    requires 0 < stablePolls && k < |polls| && Streak(Looks(m, head, polls), k, stablePolls) && k - stablePolls < i <= k
    ensures 0 <= i
    ensures var identity := Looks(m, head, polls)[k].identity;
      && polls[i].first.Some? && AllSucceeded(m, head, polls[i].first.value, identity)
      && polls[i].final.Some? && AllSucceeded(m, head, polls[i].final.value, identity)
      && (forall j :: 0 <= j < |m.workflows| ==>
            m.workflows[j].workflowId in identity && identity[m.workflows[j].workflowId] in polls[i].jobs &&
            JobsHold(polls[i].jobs[identity[m.workflows[j].workflowId]], m.workflows[j].minimumJobs))
  {
    assert Looks(m, head, polls)[i] == Looks(m, head, polls)[k];
    SteadyMeansVerified(m, head, polls[i]);
  }
}

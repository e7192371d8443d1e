/**
 * The event detector (EventDetector.java): the diff of one poll's snapshot
 * against the state remembered from the previous poll, as an ordered list of
 * events.
 *
 * The source applies one rule to jobs and, through branches that test
 * `containsKey` the wrong way round, a different one to runs and steps (see
 * the `...AsWritten` functions below). The detector modelled here applies the
 * job rule at all three levels, which is what the unit tests assert:
 *   - an entity seen for the first time reports its current status:
 *     "completed" gives a completion, "in_progress" or "queued" a start, any
 *     other status nothing;
 *   - an entity seen before reports only a change of status into "completed".
 * A completed step is a failure exactly when its conclusion is "failure".
 */
module Detector {
  import opened Wrappers
  import opened Dto
  import opened State
  import opened Events

  /** What one observation of an entity reports. */
  datatype Transition = Started | Completed

  predicate Active(status: string)
  {
    status == "in_progress" || status == "queued"
  }

  /**
   * The job rule. `previous` is the status recorded at the last poll, or
   * `None` when the entity was never seen.
   */
  function Observe(previous: Option<string>, status: string): (t: Option<Transition>)
    ensures t == Some(Started) <==> previous.None? && Active(status)
    ensures t == Some(Completed) <==> status == "completed" && previous != Some("completed")
    ensures previous == Some(status) ==> t.None?
  {
    match previous
    case None =>
      if status == "completed" then Some(Completed)
      else if Active(status) then Some(Started)
      else None
    case Some(prior) =>
      if status != prior && status == "completed" then Some(Completed) else None
  }

  // ---------------------------------------------------------------------------
  // What the previous state knows about an entity

  function PriorRunStatus(known: map<int, RunState>, id: int): Option<string>
  {
    if id in known then Some(known[id].status) else None
  }

  /** The jobs of a run as last seen; a run never seen has none. */
  function PriorJobs(known: map<int, RunState>, id: int): (jobs: map<int, JobState>)
    ensures id !in known ==> jobs == map[]
  {
    if id in known then known[id].knownJobs else map[]
  }

  function PriorJobStatus(jobs: map<int, JobState>, id: int): Option<string>
  {
    if id in jobs then Some(jobs[id].status) else None
  }

  /** The steps of a job as last seen; a job never seen has none. */
  function PriorSteps(jobs: map<int, JobState>, id: int): (steps: map<string, StepState>)
    ensures id !in jobs ==> steps == map[]
  {
    if id in jobs then jobs[id].stepStates else map[]
  }

  function PriorStepStatus(steps: map<string, StepState>, name: string): Option<string>
  {
    if name in steps then Some(steps[name].status) else None
  }

  // ---------------------------------------------------------------------------
  // One entity

  /** The events of the run itself. */
  function WorkflowEvents(run: WorkflowRunDto, known: map<int, RunState>): (r: seq<Event>)
    ensures |r| <= 1
    ensures run.id !in known ==>
      && (r == [WorkflowStartedEvent(run)] <==> Active(run.status))
      && (r == [WorkflowCompletedEvent(run)] <==> run.status == "completed")
      && (r == [] <==> !Active(run.status) && run.status != "completed")
    ensures run.id in known ==>
      && (r != [] <==> run.status == "completed" && known[run.id].status != "completed")
      && (r != [] ==> r == [WorkflowCompletedEvent(run)])
    ensures r == [] <==> Observe(PriorRunStatus(known, run.id), run.status).None?
  {
    match Observe(PriorRunStatus(known, run.id), run.status)
    case Some(Started) => [WorkflowStartedEvent(run)]
    case Some(Completed) => [WorkflowCompletedEvent(run)]
    case None => []
  }

  /** The event of one job itself, without its steps. */
  function JobEvents(run: WorkflowRunDto, job: WorkflowJobDto, jobs: map<int, JobState>): (r: seq<Event>)
    ensures |r| <= 1
    ensures job.id !in jobs ==>
      && (r == [JobStartedEvent(run, job)] <==> Active(job.status))
      && (r == [JobCompletedEvent(run, job)] <==> job.status == "completed")
      && (r == [] <==> !Active(job.status) && job.status != "completed")
    ensures job.id in jobs ==>
      && (r != [] <==> job.status == "completed" && jobs[job.id].status != "completed")
      && (r != [] ==> r == [JobCompletedEvent(run, job)])
    ensures r == [] <==> Observe(PriorJobStatus(jobs, job.id), job.status).None?
  {
    match Observe(PriorJobStatus(jobs, job.id), job.status)
    case Some(Started) => [JobStartedEvent(run, job)]
    case Some(Completed) => [JobCompletedEvent(run, job)]
    case None => []
  }

  /** The completion event of a step: a failure exactly when its conclusion is "failure". */
  function StepCompletion(run: WorkflowRunDto, job: WorkflowJobDto, step: StepDto): (e: Event)
    ensures e.eventType == StepFailed <==> step.conclusion == Some("failure")
    ensures e.eventType == StepFailed || e.eventType == StepCompleted
  {
    if step.conclusion == Some("failure") then StepFailedEvent(run, job, step)
    else StepCompletedEvent(run, job, step)
  }

  /** The event of one step. */
  function StepEvents(run: WorkflowRunDto, job: WorkflowJobDto, step: StepDto,
                      steps: map<string, StepState>): (r: seq<Event>)
    ensures |r| <= 1
    ensures step.name !in steps ==>
      && (r == [StepStartedEvent(run, job, step)] <==> Active(step.status))
      && (r != [] && r[0].eventType != StepStarted <==> step.status == "completed")
      && (r == [] <==> !Active(step.status) && step.status != "completed")
    ensures step.name in steps ==>
      && (r != [] <==> step.status == "completed" && steps[step.name].status != "completed")
      && r != [StepStartedEvent(run, job, step)]
    ensures r == [] <==> Observe(PriorStepStatus(steps, step.name), step.status).None?
    ensures r != [] && r[0].eventType != StepStarted ==> r == [StepCompletion(run, job, step)]
    ensures r != [] && r[0].eventType != StepStarted ==>
      (r[0].eventType == StepFailed <==> step.conclusion == Some("failure"))
  {
    match Observe(PriorStepStatus(steps, step.name), step.status)
    case Some(Started) => [StepStartedEvent(run, job, step)]
    case Some(Completed) => [StepCompletion(run, job, step)]
    case None => []
  }

  // ---------------------------------------------------------------------------
  // Lists of entities, in list order

  /** The lists `f` gives for the elements of `list`, one after the other in list order. */
  function Concat<T>(list: seq<T>, f: T -> seq<Event>): seq<Event>
    decreases |list|
  {
    if list == [] then []
    else Concat(list[..|list| - 1], f) + f(list[|list| - 1])
  }

  lemma ConcatSnoc<T>(list: seq<T>, x: T, f: T -> seq<Event>)
    ensures Concat(list + [x], f) == Concat(list, f) + f(x)
  {
    assert (list + [x])[..|list|] == list;
  }

  lemma ConcatSingle<T>(x: T, f: T -> seq<Event>)
    ensures Concat([x], f) == f(x)
  {
    ConcatSnoc([], x, f);
    assert [] + [x] == [x];
  }

  /** Concatenating over a concatenation is concatenating the two results. */
  lemma {:induction false} ConcatAppend<T>(a: seq<T>, b: seq<T>, f: T -> seq<Event>)
    ensures Concat(a + b, f) == Concat(a, f) + Concat(b, f)
    decreases |b|
  {
    if b == [] {
      assert a + b == a;
    } else {
      var b' := b[..|b| - 1];
      assert (a + b)[..|a + b| - 1] == a + b';
      assert (a + b)[|a + b| - 1] == b[|b| - 1];
      ConcatAppend(a, b', f);
    }
  }

  /** The events of a job's steps, in step order. */
  function StepsEvents(run: WorkflowRunDto, job: WorkflowJobDto, steps: seq<StepDto>,
                       prior: map<string, StepState>): seq<Event>
  {
    Concat(steps, step => StepEvents(run, job, step, prior))
  }

  /** A job's own event, followed by those of its steps. */
  function JobBlock(run: WorkflowRunDto, job: WorkflowJobDto, jobs: map<int, JobState>): seq<Event>
  {
    JobEvents(run, job, jobs) + StepsEvents(run, job, job.steps, PriorSteps(jobs, job.id))
  }

  /** The events of a run's jobs, job after job in list order. */
  function JobsEvents(run: WorkflowRunDto, list: seq<WorkflowJobDto>, jobs: map<int, JobState>): seq<Event>
  {
    Concat(list, job => JobBlock(run, job, jobs))
  }

  /** A run's own events, followed by those of its jobs. */
  function RunBlock(entry: RunWithJobs, known: map<int, RunState>): seq<Event>
  {
    WorkflowEvents(entry.run, known)
    + JobsEvents(entry.run, entry.jobs, PriorJobs(known, entry.run.id))
  }

  /** `detectEvents`: the runs' blocks, run after run in snapshot order. */
  function Detect(s: Snapshot, previous: MonitorState): seq<Event>
  {
    Concat(s, entry => RunBlock(entry, previous.knownRuns))
  }

  // ---------------------------------------------------------------------------
  // The detector's loops, as the source runs them (appending to a list), with
  // the corrected branch order: an unknown run or step is tested first

  method DetectSteps(run: WorkflowRunDto, job: WorkflowJobDto, stepStates: map<string, StepState>)
    returns (events: seq<Event>)
    ensures events == StepsEvents(run, job, job.steps, stepStates)
  {
    events := [];
    var i := 0;
    while i < |job.steps|
      invariant 0 <= i <= |job.steps|
      invariant events == StepsEvents(run, job, job.steps[..i], stepStates)
    {
      var step := job.steps[i];
      var found: seq<Event> := [];
      if step.name !in stepStates {
        if step.status == "completed" {
          if step.conclusion == Some("failure") {
            found := [StepFailedEvent(run, job, step)];
          } else {
            found := [StepCompletedEvent(run, job, step)];
          }
        } else if step.status == "in_progress" || step.status == "queued" {
          found := [StepStartedEvent(run, job, step)];
        }
      } else {
        var statusChanged := step.status != stepStates[step.name].status;
        if statusChanged && step.status == "completed" {
          if step.conclusion == Some("failure") {
            found := [StepFailedEvent(run, job, step)];
          } else {
            found := [StepCompletedEvent(run, job, step)];
          }
        }
      }
      assert found == StepEvents(run, job, step, stepStates);
      assert job.steps[..i + 1] == job.steps[..i] + [step];
      ConcatSnoc(job.steps[..i], step, s => StepEvents(run, job, s, stepStates));
      events := events + found;
      i := i + 1;
    }
    assert job.steps[..i] == job.steps;
  }

  /** The job-status part of one iteration of `detectJobs`. */
  method DetectJobStatus(run: WorkflowRunDto, job: WorkflowJobDto, jobStates: map<int, JobState>)
    returns (found: seq<Event>)
    ensures found == JobEvents(run, job, jobStates)
  {
    found := [];
    if job.id !in jobStates {
      if job.status == "completed" {
        found := [JobCompletedEvent(run, job)];
      } else if job.status == "in_progress" || job.status == "queued" {
        found := [JobStartedEvent(run, job)];
      }
    } else {
      var statusChanged := job.status != jobStates[job.id].status;
      if statusChanged && job.status == "completed" {
        found := [JobCompletedEvent(run, job)];
      }
    }
  }

  lemma JobsEventsStep(run: WorkflowRunDto, jobs: seq<WorkflowJobDto>, i: int, jobStates: map<int, JobState>)
    requires 0 <= i < |jobs|
    ensures JobsEvents(run, jobs[..i + 1], jobStates) == JobsEvents(run, jobs[..i], jobStates) + JobBlock(run, jobs[i], jobStates)
  {
    assert jobs[..i + 1] == jobs[..i] + [jobs[i]];
    ConcatSnoc(jobs[..i], jobs[i], j => JobBlock(run, j, jobStates));
  }

  method DetectJobs(run: WorkflowRunDto, jobs: seq<WorkflowJobDto>, jobStates: map<int, JobState>)
    returns (events: seq<Event>)
    ensures events == JobsEvents(run, jobs, jobStates)
  {
    events := [];
    var i := 0;
    while i < |jobs|
      invariant 0 <= i <= |jobs|
      invariant events == JobsEvents(run, jobs[..i], jobStates)
    {
      var job := jobs[i];
      var found := DetectJobStatus(run, job, jobStates);
      var stepEvents := DetectSteps(run, job, PriorSteps(jobStates, job.id));
      JobsEventsStep(run, jobs, i, jobStates);
      events := events + (found + stepEvents);
      i := i + 1;
    }
    assert jobs[..i] == jobs;
  }

  method DetectWorkflowEvents(run: WorkflowRunDto, previousState: MonitorState)
    returns (events: seq<Event>)
    ensures events == WorkflowEvents(run, previousState.knownRuns)
  {
    events := [];
    if run.id !in previousState.knownRuns {
      if run.status == "completed" {
        events := [WorkflowCompletedEvent(run)];
      } else if run.status == "in_progress" || run.status == "queued" {
        events := [WorkflowStartedEvent(run)];
      }
    } else {
      var statusChanged := run.status != previousState.knownRuns[run.id].status;
      if statusChanged && run.status == "completed" {
        events := [WorkflowCompletedEvent(run)];
      }
    }
  }

  lemma DetectStep(s: Snapshot, i: int, previous: MonitorState)
    requires 0 <= i < |s|
    ensures Detect(s[..i + 1], previous) == Detect(s[..i], previous) + RunBlock(s[i], previous.knownRuns)
  {
    assert s[..i + 1] == s[..i] + [s[i]];
    ConcatSnoc(s[..i], s[i], entry => RunBlock(entry, previous.knownRuns));
  }

  method DetectEvents(runsWithJobs: Snapshot, previousState: MonitorState)
    returns (events: seq<Event>)
    ensures events == Detect(runsWithJobs, previousState)
  {
    events := [];
    var i := 0;
    while i < |runsWithJobs|
      invariant 0 <= i <= |runsWithJobs|
      invariant events == Detect(runsWithJobs[..i], previousState)
    {
      var run := runsWithJobs[i].run;
      var jobs := runsWithJobs[i].jobs;
      var workflowEvents := DetectWorkflowEvents(run, previousState);
      var jobEvents := DetectJobs(run, jobs, PriorJobs(previousState.knownRuns, run.id));
      DetectStep(runsWithJobs, i, previousState);
      events := events + (workflowEvents + jobEvents);
      i := i + 1;
    }
    assert runsWithJobs[..i] == runsWithJobs;
  }

  // ---------------------------------------------------------------------------
  // Properties of the detector

  /** Detection is run by run: the events of a concatenation are the concatenation of the events. */
  lemma DetectConcat(a: Snapshot, b: Snapshot, previous: MonitorState)
    ensures Detect(a + b, previous) == Detect(a, previous) + Detect(b, previous)
  {
    ConcatAppend(a, b, entry => RunBlock(entry, previous.knownRuns));
  }

  /** How many events of a type a list holds. */
  function CountOf(events: seq<Event>, t: EventType): nat
    decreases |events|
  {
    if events == [] then 0
    else CountOf(events[..|events| - 1], t) + (if events[|events| - 1].eventType == t then 1 else 0)
  }

  lemma {:induction false} CountOfConcat(a: seq<Event>, b: seq<Event>, t: EventType)
    ensures CountOf(a + b, t) == CountOf(a, t) + CountOf(b, t)
    decreases |b|
  {
    if b == [] {
      assert a + b == a;
    } else {
      var b' := b[..|b| - 1];
      assert (a + b)[..|a + b| - 1] == a + b';
      assert (a + b)[|a + b| - 1] == b[|b| - 1];
      CountOfConcat(a, b', t);
    }
  }

  lemma {:induction false} CountOfAbsent(events: seq<Event>, t: EventType)
    requires forall e :: e in events ==> e.eventType != t
    ensures CountOf(events, t) == 0
    decreases |events|
  {
    if events != [] {
      assert forall e :: e in events[..|events| - 1] ==> e in events;
      CountOfAbsent(events[..|events| - 1], t);
    }
  }

  /** How many runs of a snapshot have a status that `status` accepts. */
  function RunsWith(s: Snapshot, status: string -> bool): nat
    decreases |s|
  {
    if s == [] then 0
    else RunsWith(s[..|s| - 1], status) + (if status(s[|s| - 1].run.status) then 1 else 0)
  }

  /** How many jobs of a list have a status that `status` accepts. */
  function JobsWith(list: seq<WorkflowJobDto>, status: string -> bool): nat
    decreases |list|
  {
    if list == [] then 0
    else JobsWith(list[..|list| - 1], status) + (if status(list[|list| - 1].status) then 1 else 0)
  }

  /** How many jobs of all runs of a snapshot have a status that `status` accepts. */
  function AllJobsWith(s: Snapshot, status: string -> bool): nat
    decreases |s|
  {
    if s == [] then 0
    else AllJobsWith(s[..|s| - 1], status) + JobsWith(s[|s| - 1].jobs, status)
  }

  predicate IsStepType(t: EventType)
  {
    t.StepStarted? || t.StepCompleted? || t.StepFailed?
  }

  predicate IsWorkflowType(t: EventType)
  {
    t.WorkflowStarted? || t.WorkflowCompleted?
  }

  /** Every event of a job's steps is a step event naming that run, job and a step. */
  lemma {:induction false} StepsEventsShape(run: WorkflowRunDto, job: WorkflowJobDto, steps: seq<StepDto>,
                                            prior: map<string, StepState>)
    ensures forall e :: e in StepsEvents(run, job, steps, prior) ==>
      FromRun(e, run) && e.jobName == Some(job.name) && e.stepName.Some? && IsStepType(e.eventType)
    decreases |steps|
  {
    if steps != [] {
      StepsEventsShape(run, job, steps[..|steps| - 1], prior);
    }
  }

  /** Every event of a run's jobs names that run and a job, and is no workflow event. */
  lemma {:induction false} JobsEventsShape(run: WorkflowRunDto, list: seq<WorkflowJobDto>, jobs: map<int, JobState>)
    ensures forall e :: e in JobsEvents(run, list, jobs) ==>
      FromRun(e, run) && e.jobName.Some? && !IsWorkflowType(e.eventType)
    decreases |list|
  {
    if list != [] {
      var job := list[|list| - 1];
      JobsEventsShape(run, list[..|list| - 1], jobs);
      StepsEventsShape(run, job, job.steps, PriorSteps(jobs, job.id));
    }
  }

  lemma CountOfSingle(events: seq<Event>, t: EventType)
    requires |events| <= 1
    ensures CountOf(events, t) == if events != [] && events[0].eventType == t then 1 else 0
  {
    if events != [] {
      assert events[..0] == [];
    }
  }

  /** Against no previous jobs, one job's block holds one JOB_STARTED if it is active and one JOB_COMPLETED if completed. */
  lemma NewJobBlockCount(run: WorkflowRunDto, job: WorkflowJobDto)
    ensures CountOf(JobBlock(run, job, map[]), JobStarted) == if Active(job.status) then 1 else 0
    ensures CountOf(JobBlock(run, job, map[]), JobCompleted) == if job.status == "completed" then 1 else 0
  {
    var own := JobEvents(run, job, map[]);
    var steps := StepsEvents(run, job, job.steps, PriorSteps(map[], job.id));
    StepsEventsShape(run, job, job.steps, PriorSteps(map[], job.id));
    CountOfConcat(own, steps, JobStarted);
    CountOfConcat(own, steps, JobCompleted);
    CountOfAbsent(steps, JobStarted);
    CountOfAbsent(steps, JobCompleted);
    CountOfSingle(own, JobStarted);
    CountOfSingle(own, JobCompleted);
  }

  lemma {:induction false} NewJobsCount(run: WorkflowRunDto, list: seq<WorkflowJobDto>)
    ensures CountOf(JobsEvents(run, list, map[]), JobStarted) == JobsWith(list, Active)
    ensures CountOf(JobsEvents(run, list, map[]), JobCompleted) == JobsWith(list, s => s == "completed")
    decreases |list|
  {
    if list != [] {
      var last := |list| - 1;
      var job, rest := list[last], list[..last];
      var before, block := JobsEvents(run, rest, map[]), JobBlock(run, job, map[]);
      JobsEventsStep(run, list, last, map[]);
      assert list[..last + 1] == list;
      assert JobsWith(list, Active) == JobsWith(rest, Active) + (if Active(job.status) then 1 else 0);
      assert JobsWith(list, s => s == "completed") == JobsWith(rest, s => s == "completed") + (if job.status == "completed" then 1 else 0);
      NewJobsCount(run, rest);
      CountOfConcat(before, block, JobStarted);
      CountOfConcat(before, block, JobCompleted);
      NewJobBlockCount(run, job);
    }
  }

  /** The counts of FirstSightBurst for a single run. */
  lemma NewRunBlockCount(entry: RunWithJobs)
    ensures CountOf(RunBlock(entry, map[]), WorkflowStarted) == if Active(entry.run.status) then 1 else 0
    ensures CountOf(RunBlock(entry, map[]), WorkflowCompleted) == if entry.run.status == "completed" then 1 else 0
    ensures CountOf(RunBlock(entry, map[]), JobStarted) == JobsWith(entry.jobs, Active)
    ensures CountOf(RunBlock(entry, map[]), JobCompleted) == JobsWith(entry.jobs, s => s == "completed")
  {
    var w := WorkflowEvents(entry.run, map[]);
    var j := JobsEvents(entry.run, entry.jobs, map[]);
    assert RunBlock(entry, map[]) == w + j;
    JobsEventsShape(entry.run, entry.jobs, map[]);
    NewJobsCount(entry.run, entry.jobs);
    CountOfAbsent(j, WorkflowStarted);
    CountOfAbsent(j, WorkflowCompleted);
    CountOfSingle(w, WorkflowStarted);
    CountOfSingle(w, WorkflowCompleted);
    CountOfSingle(w, JobStarted);
    CountOfSingle(w, JobCompleted);
    CountOfConcat(w, j, WorkflowStarted);
    CountOfConcat(w, j, WorkflowCompleted);
    CountOfConcat(w, j, JobStarted);
    CountOfConcat(w, j, JobCompleted);
  }

  /**
   * Against the empty state everything is seen for the first time: there is
   * one WORKFLOW_STARTED per queued or in-progress run and one
   * WORKFLOW_COMPLETED per completed run, and likewise one JOB_STARTED per
   * queued or in-progress job and one JOB_COMPLETED per completed job.
   */
  lemma {:induction false} FirstSightBurst(s: Snapshot)
    ensures CountOf(Detect(s, Empty), WorkflowStarted) == RunsWith(s, Active)
    ensures CountOf(Detect(s, Empty), WorkflowCompleted) == RunsWith(s, st => st == "completed")
    ensures CountOf(Detect(s, Empty), JobStarted) == AllJobsWith(s, Active)
    ensures CountOf(Detect(s, Empty), JobCompleted) == AllJobsWith(s, st => st == "completed")
    decreases |s|
  {
    if s != [] {
      var last := |s| - 1;
      var entry, rest := s[last], s[..last];
      var before, block := Detect(rest, Empty), RunBlock(entry, map[]);
      DetectStep(s, last, Empty);
      assert s[..last + 1] == s;
      FirstSightBurst(rest);
      NewRunBlockCount(entry);
      CountOfConcat(before, block, WorkflowStarted);
      CountOfConcat(before, block, WorkflowCompleted);
      CountOfConcat(before, block, JobStarted);
      CountOfConcat(before, block, JobCompleted);
    }
  }

  // ---------------------------------------------------------------------------
  // The detector as written

  /**
   * `detectWorkflowEvents` as written: the `containsKey` test has its branches
   * swapped. A known run reports its current status on every poll; an unknown
   * run reaches `previousRunState.status()` on a null reference (`None`).
   */
  function WorkflowEventsAsWritten(run: WorkflowRunDto, known: map<int, RunState>): (r: Option<seq<Event>>)
    ensures r.None? <==> run.id !in known
    ensures run.id in known && run.status == "completed" ==> r == Some([WorkflowCompletedEvent(run)])
    ensures run.id in known && Active(run.status) ==> r == Some([WorkflowStartedEvent(run)])
  {
    if run.id in known then
      if run.status == "completed" then Some([WorkflowCompletedEvent(run)])
      else if Active(run.status) then Some([WorkflowStartedEvent(run)])
      else Some([])
    else
      None
  }

  /**
   * `detectSteps`'s loop body as written, also with the branches swapped: a
   * known step reports its current status; an unknown step reaches
   * `previousState.status()` on a null reference (`None`).
   */
  function StepEventsAsWritten(run: WorkflowRunDto, job: WorkflowJobDto, step: StepDto,
                               steps: map<string, StepState>): (r: Option<seq<Event>>)
    ensures r.None? <==> step.name !in steps
    ensures step.name in steps && step.status == "completed" ==> r == Some([StepCompletion(run, job, step)])
    ensures step.name in steps && Active(step.status) ==> r == Some([StepStartedEvent(run, job, step)])
  {
    if step.name in steps then
      if step.status == "completed" then Some([StepCompletion(run, job, step)])
      else if Active(step.status) then Some([StepStartedEvent(run, job, step)])
      else Some([])
    else
      None
  }

  /** Every step of the list is known to `prior`. */
  ghost predicate StepsKnown(steps: seq<StepDto>, prior: map<string, StepState>)
  {
    forall k :: 0 <= k < |steps| ==> steps[k].name in prior
  }

  /** Every step of every job of the list is known to the job's previous step map. */
  ghost predicate JobsStepsKnown(list: seq<WorkflowJobDto>, jobs: map<int, JobState>)
  {
    forall k :: 0 <= k < |list| ==> StepsKnown(list[k].steps, PriorSteps(jobs, list[k].id))
  }

  /** Every run of the snapshot, and every step of each of its jobs, was seen before. */
  ghost predicate AllKnown(s: Snapshot, previous: MonitorState)
  {
    forall i :: 0 <= i < |s| ==>
      && s[i].run.id in previous.knownRuns
      && JobsStepsKnown(s[i].jobs, PriorJobs(previous.knownRuns, s[i].run.id))
  }

  function StepsAsWritten(run: WorkflowRunDto, job: WorkflowJobDto, steps: seq<StepDto>,
                          prior: map<string, StepState>): (r: Option<seq<Event>>)
    ensures r.Some? <==> StepsKnown(steps, prior)
    decreases |steps|
  {
    if steps == [] then Some([])
    else
      var init := StepsAsWritten(run, job, steps[..|steps| - 1], prior);
      var last := StepEventsAsWritten(run, job, steps[|steps| - 1], prior);
      if init.Some? && last.Some? then Some(init.value + last.value) else None
  }

  function JobsAsWritten(run: WorkflowRunDto, list: seq<WorkflowJobDto>, jobs: map<int, JobState>): (r: Option<seq<Event>>)
    ensures r.Some? <==> JobsStepsKnown(list, jobs)
    decreases |list|
  {
    if list == [] then Some([])
    else
      var init := JobsAsWritten(run, list[..|list| - 1], jobs);
      var job := list[|list| - 1];
      var steps := StepsAsWritten(run, job, job.steps, PriorSteps(jobs, job.id));
      if init.Some? && steps.Some? then Some(init.value + JobEvents(run, job, jobs) + steps.value)
      else None
  }

  /**
   * `detectEvents` as written: `None` stands for the NullPointerException,
   * which is thrown exactly when some run or some step of the snapshot was
   * never seen before.
   */
  function DetectAsWritten(s: Snapshot, previous: MonitorState): (r: Option<seq<Event>>)
    ensures r.Some? <==> AllKnown(s, previous)
    decreases |s|
  {
    if s == [] then Some([])
    else
      var init := DetectAsWritten(s[..|s| - 1], previous);
      var entry := s[|s| - 1];
      var own := WorkflowEventsAsWritten(entry.run, previous.knownRuns);
      var jobs := JobsAsWritten(entry.run, entry.jobs, PriorJobs(previous.knownRuns, entry.run.id));
      if init.Some? && own.Some? && jobs.Some? then Some(init.value + own.value + jobs.value)
      else None
  }
}

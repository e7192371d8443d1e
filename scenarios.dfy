/**
 * The detector on the scenarios of the project's unit tests for the event
 * detector: one workflow run (id 1, "Test Workflow" on "main" at "abc123"),
 * one job (id 10, "Test Job") and the steps "Setup" and "Build".
 */
module Scenarios {
  import opened Wrappers
  import opened Dto
  import opened State
  import opened Events
  import opened Detector

  function TestRun(status: string, conclusion: Option<string>): WorkflowRunDto
  {
    WorkflowRunDto(1, "Test Workflow", "main", Some("abc123"), status, conclusion, "2025-01-01T00:00:00")
  }

  function TestJob(status: string, conclusion: Option<string>, steps: seq<StepDto>): WorkflowJobDto
  {
    WorkflowJobDto(10, "Test Job", status, conclusion, steps)
  }

  /** A previous state that knows run 1 with the given status and jobs. */
  function KnownRun(status: string, jobs: map<int, JobState>): MonitorState
  {
    MonitorState(0, map[1 := RunState(1, status, None, jobs)])
  }

  /** One entry, one job: the shape every scenario below shares. */
  lemma OneRunOneJob(run: WorkflowRunDto, job: WorkflowJobDto, previous: MonitorState)
    ensures Detect([RunWithJobs(run, [job])], previous)
         == WorkflowEvents(run, previous.knownRuns)
            + JobEvents(run, job, PriorJobs(previous.knownRuns, run.id))
            + StepsEvents(run, job, job.steps, PriorSteps(PriorJobs(previous.knownRuns, run.id), job.id))
  {
    var entry := RunWithJobs(run, [job]);
    ConcatSingle(entry, e => RunBlock(e, previous.knownRuns));
    ConcatSingle(job, j => JobBlock(run, j, PriorJobs(previous.knownRuns, run.id)));
  }

  /** A new queued run against the empty state gives exactly one WORKFLOW_STARTED. */
  lemma NewWorkflowStarted()
    ensures Detect([RunWithJobs(TestRun("queued", None), [])], Empty)
         == [WorkflowStartedEvent(TestRun("queued", None))]
  {
    var entry := RunWithJobs(TestRun("queued", None), []);
    ConcatSingle(entry, e => RunBlock(e, Empty.knownRuns));
  }

  /** A known in-progress run now completed gives exactly one WORKFLOW_COMPLETED. */
  lemma WorkflowCompletedScenario()
    ensures Detect([RunWithJobs(TestRun("completed", Some("success")), [])], KnownRun("in_progress", map[]))
         == [WorkflowCompletedEvent(TestRun("completed", Some("success")))]
  {
    var entry := RunWithJobs(TestRun("completed", Some("success")), []);
    ConcatSingle(entry, e => RunBlock(e, KnownRun("in_progress", map[]).knownRuns));
  }

  /** A new queued job of a known run gives exactly one JOB_STARTED. */
  lemma NewJobStarted()
    ensures Detect([RunWithJobs(TestRun("queued", None), [TestJob("queued", None, [])])], KnownRun("in_progress", map[]))
         == [JobStartedEvent(TestRun("queued", None), TestJob("queued", None, []))]
  {
    OneRunOneJob(TestRun("queued", None), TestJob("queued", None, []), KnownRun("in_progress", map[]));
  }

  /** A known in-progress job now completed gives exactly one JOB_COMPLETED. */
  lemma JobCompletedScenario()
    ensures Detect([RunWithJobs(TestRun("queued", None), [TestJob("completed", Some("success"), [])])],
                   KnownRun("in_progress", map[10 := JobState(10, "in_progress", None, map[])]))
         == [JobCompletedEvent(TestRun("queued", None), TestJob("completed", Some("success"), []))]
  {
    OneRunOneJob(TestRun("queued", None), TestJob("completed", Some("success"), []),
                 KnownRun("in_progress", map[10 := JobState(10, "in_progress", None, map[])]));
  }

  /** A new in-progress step of a known job gives exactly one STEP_STARTED. */
  lemma NewStepStarted()
    ensures var step := StepDto("Build", "in_progress", None);
            var job := TestJob("in_progress", None, [step]);
            Detect([RunWithJobs(TestRun("queued", None), [job])],
                   KnownRun("in_progress", map[10 := JobState(10, "in_progress", None, map[])]))
            == [StepStartedEvent(TestRun("queued", None), job, step)]
  {
    var step := StepDto("Build", "in_progress", None);
    var job := TestJob("in_progress", None, [step]);
    var jobs := map[10 := JobState(10, "in_progress", None, map[])];
    OneRunOneJob(TestRun("queued", None), job, KnownRun("in_progress", jobs));
    ConcatSingle(step, s => StepEvents(TestRun("queued", None), job, s, PriorSteps(jobs, 10)));
  }

  /** A known in-progress step now completed with conclusion `conclusion`. */
  function CompletedStepScenario(conclusion: string): seq<Event>
  {
    var step := StepDto("Build", "completed", Some(conclusion));
    var job := TestJob("in_progress", None, [step]);
    var jobs := map[10 := JobState(10, "in_progress", None, map["Build" := StepState("in_progress", None, "Build")])];
    Detect([RunWithJobs(TestRun("queued", None), [job])], KnownRun("in_progress", jobs))
  }

  /**
   * A known in-progress step now completed gives exactly one event:
   * STEP_FAILED when the conclusion is "failure", STEP_COMPLETED otherwise.
   */
  lemma StepCompletedScenario(conclusion: string)
    ensures var step := StepDto("Build", "completed", Some(conclusion));
            var job := TestJob("in_progress", None, [step]);
            CompletedStepScenario(conclusion)
            == if conclusion == "failure" then [StepFailedEvent(TestRun("queued", None), job, step)]
            else [StepCompletedEvent(TestRun("queued", None), job, step)]
  {
    var step := StepDto("Build", "completed", Some(conclusion));
    var job := TestJob("in_progress", None, [step]);
    var jobs := map[10 := JobState(10, "in_progress", None, map["Build" := StepState("in_progress", None, "Build")])];
    OneRunOneJob(TestRun("queued", None), job, KnownRun("in_progress", jobs));
    ConcatSingle(step, s => StepEvents(TestRun("queued", None), job, s, PriorSteps(jobs, 10)));
  }

  /** A queued run and job, unchanged since the last poll, give no event. */
  lemma NothingChanges()
    ensures Detect([RunWithJobs(TestRun("queued", None), [TestJob("queued", None, [])])],
                   KnownRun("queued", map[10 := JobState(10, "queued", None, map[])]))
         == []
  {
    OneRunOneJob(TestRun("queued", None), TestJob("queued", None, []),
                 KnownRun("queued", map[10 := JobState(10, "queued", None, map[])]));
  }

  /**
   * A run and job that completed, a known step that completed and a new step
   * that started give exactly these four events, in this order.
   */
  lemma MultipleEvents()
    ensures var setup := StepDto("Setup", "completed", Some("success"));
            var build := StepDto("Build", "in_progress", None);
            var run := TestRun("completed", Some("success"));
            var job := TestJob("completed", Some("success"), [setup, build]);
            var jobs := map[10 := JobState(10, "in_progress", None, map["Setup" := StepState("in_progress", None, "Setup")])];
            Detect([RunWithJobs(run, [job])], KnownRun("in_progress", jobs))
            == [WorkflowCompletedEvent(run), JobCompletedEvent(run, job),
                StepCompletedEvent(run, job, setup), StepStartedEvent(run, job, build)]
  {
    var setup := StepDto("Setup", "completed", Some("success"));
    var build := StepDto("Build", "in_progress", None);
    var run := TestRun("completed", Some("success"));
    var job := TestJob("completed", Some("success"), [setup, build]);
    var jobs := map[10 := JobState(10, "in_progress", None, map["Setup" := StepState("in_progress", None, "Setup")])];
    var previous := KnownRun("in_progress", jobs);
    OneRunOneJob(run, job, previous);
    assert WorkflowEvents(run, previous.knownRuns) == [WorkflowCompletedEvent(run)];
    assert PriorJobs(previous.knownRuns, 1) == jobs;
    assert JobEvents(run, job, jobs) == [JobCompletedEvent(run, job)];
    var prior := PriorSteps(jobs, 10);
    assert StepEvents(run, job, setup, prior) == [StepCompletedEvent(run, job, setup)];
    assert StepEvents(run, job, build, prior) == [StepStartedEvent(run, job, build)];
    var f := s => StepEvents(run, job, s, prior);
    ConcatSingle(setup, f);
    ConcatSnoc([setup], build, f);
    assert [setup] + [build] == [setup, build];
  }

  // ---------------------------------------------------------------------------
  // The same scenarios against the detector as written

  /** As written, the first scenario's new run is dereferenced as if known: the detector fails. */
  lemma AsWrittenNewRunFails()
    ensures DetectAsWritten([RunWithJobs(TestRun("queued", None), [])], Empty).None?
    ensures Detect([RunWithJobs(TestRun("queued", None), [])], Empty) != []
  {
    NewWorkflowStarted();
  }

  /** Run 2 of the test workflow, queued. */
  function SecondRun(): WorkflowRunDto
  {
    WorkflowRunDto(2, "Test Workflow", "main", Some("abc123"), "queued", None, "2025-01-01T00:00:00")
  }

  /**
   * A state that knows run 1 meets a poll that fetches run 2: the intended
   * detector reports WORKFLOW_STARTED, while as written detection throws,
   * so the poll prints and saves nothing.
   */
  lemma AsWrittenSecondRunFails()
    ensures !AllKnown([RunWithJobs(SecondRun(), [])], KnownRun("in_progress", map[]))
    ensures DetectAsWritten([RunWithJobs(SecondRun(), [])], KnownRun("in_progress", map[])).None?
    ensures Detect([RunWithJobs(SecondRun(), [])], KnownRun("in_progress", map[])) == [WorkflowStartedEvent(SecondRun())]
  {
    var entry := RunWithJobs(SecondRun(), []);
    ConcatSingle(entry, e => RunBlock(e, KnownRun("in_progress", map[]).knownRuns));
  }

  /**
   * As written, the known run that is still queued re-reports WORKFLOW_STARTED,
   * so the new-job scenario gives two events where the job rule gives one.
   */
  lemma AsWrittenKnownRunRestarts()
    ensures DetectAsWritten([RunWithJobs(TestRun("queued", None), [TestJob("queued", None, [])])], KnownRun("in_progress", map[]))
         == Some([WorkflowStartedEvent(TestRun("queued", None)), JobStartedEvent(TestRun("queued", None), TestJob("queued", None, []))])
  {
    var run, job := TestRun("queued", None), TestJob("queued", None, []);
    var s := [RunWithJobs(run, [job])];
    var previous := KnownRun("in_progress", map[]);
    assert s[..0] == [];
    assert [job][..0] == [];
    assert StepsAsWritten(run, job, [], map[]) == Some([]);
    assert JobEvents(run, job, map[]) == [JobStartedEvent(run, job)];
    assert JobsAsWritten(run, [job][..0], map[]) == Some([]);
    assert StepsAsWritten(run, job, job.steps, PriorSteps(map[], job.id)) == Some([]);
    assert [] + [JobStartedEvent(run, job)] + [] == [JobStartedEvent(run, job)];
    assert JobsAsWritten(run, [job], map[]) == Some([JobStartedEvent(run, job)]);
    assert [] + [WorkflowStartedEvent(run)] + [JobStartedEvent(run, job)]
        == [WorkflowStartedEvent(run), JobStartedEvent(run, job)];
    assert WorkflowEventsAsWritten(run, previous.knownRuns) == Some([WorkflowStartedEvent(run)]);
  }

  /** As written, the new step of a known job is dereferenced as if known: the detector fails. */
  lemma AsWrittenNewStepFails()
    ensures var step := StepDto("Build", "in_progress", None);
            var job := TestJob("in_progress", None, [step]);
            DetectAsWritten([RunWithJobs(TestRun("in_progress", None), [job])],
                            KnownRun("in_progress", map[10 := JobState(10, "in_progress", None, map[])])).None?
  {
  }
}

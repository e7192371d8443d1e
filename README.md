# CIViewerCLI: the poll, diff and persist cycle in Dafny

CIViewerCLI watches the GitHub Actions runs of one repository. Each poll
fetches a snapshot of workflow runs, each with its jobs, each with its steps.
It diffs the snapshot against the state remembered from the previous poll,
prints one line per lifecycle event, merges the snapshot into the remembered
state and saves it under `(owner, repo)` so that a later process resumes
where this one stopped.

This project models that cycle and proves properties of it:

- `Events` (events.dfy): the seven event types, the `Event` record, its
  seven factories and `toFormattedString`.
- `Detector` (detector.dfy): `detectEvents` and its helpers. There are pure
  specification functions and the source's loops as methods proved equal to
  them. The detector as literally written is kept beside the intended one
  (see "## Findings").
- `Scenarios` (scenarios.dfy): the event-detector unit-test scenarios, run
  against both detectors.
- `Persistence` (persistence.dfy): `StateManager` as a class over four
  in-memory tables that stand in for `repo_state`, `run_state`,
  `job_state` and `step_state`. Saving upserts in nested loops. Loading
  rebuilds the run, job and step tree of one `(owner, repo)`.
- `StoreProperties` (store_properties.dfy):
  - save then load round-trips;
  - saving under one key leaves every other key's load unchanged;
  - saving never deletes;
  - the state-manager unit-test scenarios.
- `Monitor` (monitor.dfy):
  - `buildMonitorState`, the merge of a snapshot into the known runs;
  - the display of events;
  - `WorkflowMonitor`, a class whose fields `lastDateTime`, `isRunning` and
    `state` evolve through first run or resume and then poll after poll.
- `Wrappers`, `Dto` and `State` hold `Option` (a Java reference that may
  be null), the three DTO records and the persisted state records.

Conventions:

- An instant is an `int`, read as seconds from the epoch. `MinInstant` is
  `LocalDateTime.MIN` (-999999999-01-01T00:00) taken at UTC, which is
  -31557014135596800; it is the sentinel that means "never polled".
- A snapshot is a sequence of (run, jobs) entries. Its order stands for the
  unspecified iteration order of the source's `HashMap`.
- The provider, the clock and the terminal are not modelled. What a fetch
  returns, the current time and whether a sleep was interrupted are inputs.
  The `since` instant of every fetch is recorded in `requests` and the
  printed event lines in `output`.
- An exception that the source lets escape is an error result:
  - a null commit SHA while formatting;
  - a duplicate job id in `Collectors.toMap`;
  - a null dereference in the detector as written.

Where the system's documented behaviour and its code differ, the model
follows the code:

- A completed step is `STEP_FAILED` only when its conclusion is exactly
  `"failure"`. `"failed"` gives `STEP_COMPLETED`.
- The poll interval is a fixed sleep. It does not adapt to empty polls, and
  no per-type event counters exist.
- A storage error while loading does not give the empty state:
  - the timestamp query falls back to the current time, so runs are still
    loaded;
  - a failing run, job or step query empties that level only.
- The first run for a repository builds and saves state without detecting
  or displaying any event.
- Against an empty previous state, completed runs and jobs report
  completions, not starts (`Detector.FirstSightBurst`).

## Model

| member | source | states |
|---|---|---|
| Events.WorkflowStartedEvent | src/main/java/org/mathieucuvelier/CIViewerCLI/models/Event.java:30-42 | type WORKFLOW_STARTED; timestamp, workflow name, branch and SHA come from the run; no job or step name; status and conclusion are the run's |
| Events.WorkflowCompletedEvent | src/main/java/org/mathieucuvelier/CIViewerCLI/models/Event.java:44-56 | type WORKFLOW_COMPLETED; run fields as above; no job or step name; status and conclusion are the run's |
| Events.JobStartedEvent | src/main/java/org/mathieucuvelier/CIViewerCLI/models/Event.java:59-71 | type JOB_STARTED; run fields from the run; job name set, step name null; status and conclusion are the job's |
| Events.JobCompletedEvent | src/main/java/org/mathieucuvelier/CIViewerCLI/models/Event.java:73-85 | type JOB_COMPLETED; run fields from the run; job name set, step name null; status and conclusion are the job's |
| Events.StepStartedEvent | src/main/java/org/mathieucuvelier/CIViewerCLI/models/Event.java:88-100 | type STEP_STARTED; run fields from the run; job and step names set; status and conclusion are the step's |
| Events.StepCompletedEvent | src/main/java/org/mathieucuvelier/CIViewerCLI/models/Event.java:102-114 | type STEP_COMPLETED; run fields from the run; job and step names set; status and conclusion are the step's |
| Events.StepFailedEvent | src/main/java/org/mathieucuvelier/CIViewerCLI/models/Event.java:116-128 | type STEP_FAILED; run fields from the run; job and step names set; status and conclusion are the step's |
| Events.ShortSha | src/main/java/org/mathieucuvelier/CIViewerCLI/models/Event.java:25 | the shortened SHA is a prefix of the SHA of length min(7, length): the whole SHA when it has at most 7 characters, exactly 7 otherwise |
| Events.ToFormattedString | src/main/java/org/mathieucuvelier/CIViewerCLI/models/Event.java:10-27 | a line is produced exactly when the commit SHA is non-null; a null SHA is the error case |
| Events.FormattedLayout | src/main/java/org/mathieucuvelier/CIViewerCLI/models/Event.java:11-26 | the line starts with `[timestamp] TYPE - workflow`; then ` / job` when the job name is present, ` / step` directly when only the step name is present, job before step, and ` - status` directly after the header when neither is present; the line ends with ` - branch@` and the shortened SHA |
| Events.FormattedMentions | src/main/java/org/mathieucuvelier/CIViewerCLI/models/Event.java:12-24 | the line contains the type's name, the workflow name, ` - status`, ` / job` and ` / step` when those names are present, and ` (conclusion)` when the conclusion is present |
| Events.FactoryLines | src/test/java/org/mathieucuvelier/CIViewerCLI/models/EventTest.java:49-128 | for a run with a SHA, each of the seven factories sets its own type, and its line is defined and contains that type's name and the job or step name it carries |
| Detector.Observe | src/main/java/org/mathieucuvelier/CIViewerCLI/service/EventDetector.java:58-69 | the per-entity rule: a start exactly when the entity is unseen and queued or in progress; a completion exactly when it is now completed and was not already completed; an unchanged status reports nothing |
| Detector.WorkflowEvents | src/main/java/org/mathieucuvelier/CIViewerCLI/service/EventDetector.java:34-51 | an unknown run gives WORKFLOW_STARTED iff active and WORKFLOW_COMPLETED iff completed; a known run gives an event iff it is now completed and was not, and that event is WORKFLOW_COMPLETED; at most one event; no event exactly when the run's status change (`Observe`) reports nothing |
| Detector.JobEvents | src/main/java/org/mathieucuvelier/CIViewerCLI/service/EventDetector.java:56-69 | a job with no previous entry gives JOB_STARTED iff active and JOB_COMPLETED iff completed; a known job gives an event iff its status changed into completed, and that event is JOB_COMPLETED; no event exactly when the job's status change (`Observe`) reports nothing |
| Detector.StepCompletion | src/main/java/org/mathieucuvelier/CIViewerCLI/service/EventDetector.java:84-88 | a completed step's event is STEP_FAILED iff its conclusion is exactly "failure", STEP_COMPLETED otherwise (null included) |
| Detector.StepEvents | src/main/java/org/mathieucuvelier/CIViewerCLI/service/EventDetector.java:79-106 | an unseen step gives STEP_STARTED iff active and a completion iff completed; a known step gives an event iff its status changed into completed and never a start; a completion is a failure iff the conclusion is "failure"; no event exactly when the step's status change (`Observe`) reports nothing; an event that is not STEP_STARTED is exactly the step's completion |
| Detector.DetectSteps | src/main/java/org/mathieucuvelier/CIViewerCLI/service/EventDetector.java:79-106 | the loop returns exactly the step events of the job's steps, in step order, against the job's previous steps |
| Detector.DetectJobStatus | src/main/java/org/mathieucuvelier/CIViewerCLI/service/EventDetector.java:56-69 | the branches of one iteration give exactly the job rule's event |
| Detector.DetectJobs | src/main/java/org/mathieucuvelier/CIViewerCLI/service/EventDetector.java:53-77 | the loop returns, job after job in list order, the job's event followed by its steps' events; a job with no previous entry has its steps compared against the empty map |
| Detector.DetectWorkflowEvents | src/main/java/org/mathieucuvelier/CIViewerCLI/service/EventDetector.java:34-51 | the branches give exactly the run rule's event |
| Detector.DetectEvents | src/main/java/org/mathieucuvelier/CIViewerCLI/service/EventDetector.java:17-32 | the loop returns, run after run in snapshot order, the run's events followed by its jobs' events; a run absent from the previous state has its jobs compared against the empty map |
| Detector.JobsEventsStep | src/main/java/org/mathieucuvelier/CIViewerCLI/service/EventDetector.java:74 | the events of one more job are the previous jobs' events followed by that job's block |
| Detector.DetectStep | src/main/java/org/mathieucuvelier/CIViewerCLI/service/EventDetector.java:23-29 | the events of one more run are the previous runs' events followed by that run's block |
| Detector.DetectConcat | src/main/java/org/mathieucuvelier/CIViewerCLI/service/EventDetector.java:19-30 | detection is run by run: the events of two snapshots one after the other are the events of the first followed by those of the second |
| Detector.StepsEventsShape | src/main/java/org/mathieucuvelier/CIViewerCLI/service/EventDetector.java:79-106 | every step event carries the run's timestamp, workflow name, branch and SHA, the job's name, a step name and a step type |
| Detector.JobsEventsShape | src/main/java/org/mathieucuvelier/CIViewerCLI/service/EventDetector.java:53-77 | every event from a run's jobs carries the run's fields and a job name, and is never a workflow event |
| Detector.NewJobsCount | src/main/java/org/mathieucuvelier/CIViewerCLI/service/EventDetector.java:58-63 | against no previous jobs, the JOB_STARTED count is the number of active jobs and the JOB_COMPLETED count the number of completed jobs |
| Detector.FirstSightBurst | src/main/java/org/mathieucuvelier/CIViewerCLI/service/EventDetector.java:17-77 | against the empty state, the WORKFLOW_STARTED and WORKFLOW_COMPLETED counts are the numbers of active and completed runs, and the JOB_STARTED and JOB_COMPLETED counts the numbers of active and completed jobs over all runs |
| Detector.WorkflowEventsAsWritten | src/main/java/org/mathieucuvelier/CIViewerCLI/service/EventDetector.java:34-51 | as written: the error (null dereference) happens exactly when the run is unknown; a known completed run gives WORKFLOW_COMPLETED and a known active run WORKFLOW_STARTED on every poll |
| Detector.StepEventsAsWritten | src/main/java/org/mathieucuvelier/CIViewerCLI/service/EventDetector.java:79-106 | as written: the error happens exactly when the step is unknown; a known completed step gives its completion and a known active step STEP_STARTED on every poll |
| Detector.StepsAsWritten | src/main/java/org/mathieucuvelier/CIViewerCLI/service/EventDetector.java:81-104 | as written: a job's steps succeed iff every step is already known |
| Detector.JobsAsWritten | src/main/java/org/mathieucuvelier/CIViewerCLI/service/EventDetector.java:53-77 | as written: a run's jobs succeed iff every step of every job is known to that job's previous state |
| Detector.DetectAsWritten | src/main/java/org/mathieucuvelier/CIViewerCLI/service/EventDetector.java:17-32 | as written: detection succeeds iff every run and every step is already known |
| Scenarios.NewWorkflowStarted | src/test/java/org/mathieucuvelier/CIViewerCLI/service/EventDetectorTest.java:45-53 | a new queued run against the empty state gives exactly one WORKFLOW_STARTED |
| Scenarios.WorkflowCompletedScenario | src/test/java/org/mathieucuvelier/CIViewerCLI/service/EventDetectorTest.java:56-80 | a known in-progress run now completed gives exactly one WORKFLOW_COMPLETED |
| Scenarios.NewJobStarted | src/test/java/org/mathieucuvelier/CIViewerCLI/service/EventDetectorTest.java:83-99 | a new queued job of a known run gives exactly one JOB_STARTED |
| Scenarios.JobCompletedScenario | src/test/java/org/mathieucuvelier/CIViewerCLI/service/EventDetectorTest.java:102-128 | a known in-progress job now completed gives exactly one JOB_COMPLETED |
| Scenarios.NewStepStarted | src/test/java/org/mathieucuvelier/CIViewerCLI/service/EventDetectorTest.java:131-158 | a new in-progress step of a known job gives exactly one STEP_STARTED |
| Scenarios.StepCompletedScenario | src/test/java/org/mathieucuvelier/CIViewerCLI/service/EventDetectorTest.java:161-220 | a known in-progress step now completed gives exactly one event: STEP_FAILED for conclusion "failure", STEP_COMPLETED for any other |
| Scenarios.NothingChanges | src/test/java/org/mathieucuvelier/CIViewerCLI/service/EventDetectorTest.java:223-238 | an unchanged queued run and job give no event |
| Scenarios.MultipleEvents | src/test/java/org/mathieucuvelier/CIViewerCLI/service/EventDetectorTest.java:241-285 | the mixed scenario gives exactly WORKFLOW_COMPLETED, JOB_COMPLETED, STEP_COMPLETED, STEP_STARTED, in that order |
| Scenarios.AsWrittenSecondRunFails | src/main/java/org/mathieucuvelier/CIViewerCLI/service/EventDetector.java:36-48 | a state that knows run 1 and a fetch holding a new queued run 2: the as-written detector fails on the unknown run, the corrected one reports WORKFLOW_STARTED for it |
| Scenarios.AsWrittenNewRunFails | src/main/java/org/mathieucuvelier/CIViewerCLI/service/EventDetector.java:42-44 | as written, the first scenario's new run is dereferenced as if known and detection fails, where the intended detector reports it |
| Scenarios.AsWrittenKnownRunRestarts | src/main/java/org/mathieucuvelier/CIViewerCLI/service/EventDetector.java:36-41 | as written, a known run still queued re-reports WORKFLOW_STARTED, so the new-job scenario gives two events instead of one |
| Scenarios.AsWrittenNewStepFails | src/main/java/org/mathieucuvelier/CIViewerCLI/service/EventDetector.java:92-94 | as written, the new step of a known job is dereferenced as if known and detection fails |
| Persistence.RunIdsOf | src/main/java/org/mathieucuvelier/CIViewerCLI/persistence/StateManager.java:34-35 | the runs query returns exactly the run ids with a row under (owner, repo) |
| Persistence.JobIdsOf | src/main/java/org/mathieucuvelier/CIViewerCLI/persistence/StateManager.java:36-37 | the jobs query returns exactly the job ids with a row under (owner, repo, run) |
| Persistence.StepNamesOf | src/main/java/org/mathieucuvelier/CIViewerCLI/persistence/StateManager.java:38-40 | the steps query returns exactly the step names with a row under (owner, repo, run, job) |
| Persistence.LoadStepsSpec | src/main/java/org/mathieucuvelier/CIViewerCLI/persistence/StateManager.java:146-176 | the loaded steps are keyed by their own names, are exactly the stored step rows of that job with their status and conclusion, and are empty when the query fails |
| Persistence.LoadJobsSpec | src/main/java/org/mathieucuvelier/CIViewerCLI/persistence/StateManager.java:116-144 | the loaded jobs are keyed by their own ids, are exactly the stored job rows of that run, each with its loaded steps, and are empty when the query fails |
| Persistence.LoadRunsSpec | src/main/java/org/mathieucuvelier/CIViewerCLI/persistence/StateManager.java:89-114 | the loaded runs are keyed by their own ids, are exactly the stored run rows of (owner, repo), each with its loaded jobs, and are empty when the query fails |
| Persistence.LoadTimestampSpec | src/main/java/org/mathieucuvelier/CIViewerCLI/persistence/StateManager.java:62-87 | the stored timestamp; the sentinel when there is no row; the current time when the query fails |
| Persistence.LoadSpec | src/main/java/org/mathieucuvelier/CIViewerCLI/persistence/StateManager.java:52-60 | the loaded state carries the loaded timestamp; the sentinel gives exactly the empty state, so no repo row gives the empty state; otherwise the runs are the loaded runs |
| Persistence.StateManager.constructor | src/main/java/org/mathieucuvelier/CIViewerCLI/persistence/StateManager.java:27-50 | the store starts with the given tables |
| Persistence.StateManager.LoadSteps | src/main/java/org/mathieucuvelier/CIViewerCLI/persistence/StateManager.java:146-176 | the put loop over the query rows returns exactly the loaded steps |
| Persistence.StateManager.LoadJobs | src/main/java/org/mathieucuvelier/CIViewerCLI/persistence/StateManager.java:116-144 | the collection of the query rows returns exactly the loaded jobs |
| Persistence.StateManager.LoadRuns | src/main/java/org/mathieucuvelier/CIViewerCLI/persistence/StateManager.java:89-114 | the collection of the query rows returns exactly the loaded runs |
| Persistence.StateManager.LoadLastCheckTimestamp | src/main/java/org/mathieucuvelier/CIViewerCLI/persistence/StateManager.java:62-87 | returns exactly the loaded timestamp, including the sentinel and the current-time fallback |
| Persistence.StateManager.LoadState | src/main/java/org/mathieucuvelier/CIViewerCLI/persistence/StateManager.java:52-60 | returns exactly the loaded state and changes nothing |
| Persistence.StateManager.SaveStep | src/main/java/org/mathieucuvelier/CIViewerCLI/persistence/StateManager.java:229-240 | upserts the step row under (owner, repo, run, job, step name); every other row of every table is unchanged |
| Persistence.StateManager.SaveJob | src/main/java/org/mathieucuvelier/CIViewerCLI/persistence/StateManager.java:213-227 | upserts the job row and one row per step of the job, each under its own name; other step rows, runs and timestamps are unchanged |
| Persistence.StateManager.SaveRun | src/main/java/org/mathieucuvelier/CIViewerCLI/persistence/StateManager.java:198-211 | upserts the run row, one row per job and one per step of each job; every other row is unchanged |
| Persistence.StateManager.SaveState | src/main/java/org/mathieucuvelier/CIViewerCLI/persistence/StateManager.java:178-188 | replaces the timestamp row and upserts one row per run, job and step of the state, each under its own key; no other row changes |
| StoreProperties.SavedStoresState | src/main/java/org/mathieucuvelier/CIViewerCLI/persistence/StateManager.java:178-240 | after a save of a state whose runs sit under their own ids, the repository's timestamp row holds the state's timestamp and every run is stored with its jobs and steps |
| StoreProperties.SavedStoresRuns | src/main/java/org/mathieucuvelier/CIViewerCLI/persistence/StateManager.java:178-240 | after a save, every run of the state has its row, its jobs' rows and their steps' rows, with equal status and conclusion |
| StoreProperties.LoadStoredJob | src/main/java/org/mathieucuvelier/CIViewerCLI/persistence/StateManager.java:116-176 | a stored job loads back with equal status and conclusion and with at least its stored steps |
| StoreProperties.LoadStoredRun | src/main/java/org/mathieucuvelier/CIViewerCLI/persistence/StateManager.java:89-176 | a stored run loads back with equal status and conclusion and with at least its stored jobs and steps |
| StoreProperties.SaveThenLoad | src/test/java/org/mathieucuvelier/CIViewerCLI/persistence/StateManagerTest.java:39-124 | save then load: the same timestamp; the empty state for the sentinel; otherwise every run, job and step of the saved state comes back with equal status and conclusion |
| StoreProperties.SavedExactly | src/main/java/org/mathieucuvelier/CIViewerCLI/persistence/StateManager.java:178-240 | saved into a key with nothing stored, the rows under the key are exactly the state's runs, jobs and steps |
| StoreProperties.LoadStepsExactly | src/main/java/org/mathieucuvelier/CIViewerCLI/persistence/StateManager.java:146-176 | when the step rows of a job are exactly a step map, loading gives back that map |
| StoreProperties.LoadJobsExactly | src/main/java/org/mathieucuvelier/CIViewerCLI/persistence/StateManager.java:116-144 | when the job and step rows of a run are exactly a job map, loading gives back that map |
| StoreProperties.LoadRunsExactly | src/main/java/org/mathieucuvelier/CIViewerCLI/persistence/StateManager.java:89-114 | when the rows of (owner, repo) are exactly a run map, loading gives back that map |
| StoreProperties.SaveThenLoadExact | src/test/java/org/mathieucuvelier/CIViewerCLI/persistence/StateManagerTest.java:94-124 | a state saved under a key with nothing stored loads back equal to itself |
| StoreProperties.LoadStepsAgree | src/main/java/org/mathieucuvelier/CIViewerCLI/persistence/StateManager.java:38-39 | loading a job's steps reads only that job's step rows |
| StoreProperties.LoadJobsAgree | src/main/java/org/mathieucuvelier/CIViewerCLI/persistence/StateManager.java:36-37 | loading a run's jobs reads only that run's job and step rows |
| StoreProperties.LoadAgrees | src/main/java/org/mathieucuvelier/CIViewerCLI/persistence/StateManager.java:32-39 | loading (owner, repo) reads only the rows under (owner, repo) |
| StoreProperties.SavedKeepsOtherRepos | src/main/java/org/mathieucuvelier/CIViewerCLI/persistence/StateManager.java:41-49 | a save under one key leaves every row under any other key unchanged |
| StoreProperties.SavePartition | src/main/java/org/mathieucuvelier/CIViewerCLI/persistence/StateManager.java:33-39 | a save under one key leaves what any other key loads unchanged, whatever the faults and the time |
| StoreProperties.SavedKeepsNothingStored | src/main/java/org/mathieucuvelier/CIViewerCLI/persistence/StateManager.java:41-49 | a save under one key leaves another key with nothing stored still with nothing stored |
| StoreProperties.SavedGrows | src/main/java/org/mathieucuvelier/CIViewerCLI/persistence/StateManager.java:42-48 | INSERT OR REPLACE never removes a row: every run, job and step key stored before a save is stored after it |
| StoreProperties.LoadJobsMonotone | src/main/java/org/mathieucuvelier/CIViewerCLI/persistence/StateManager.java:116-176 | with more rows, a run's loaded jobs include every job and step loaded before |
| StoreProperties.LoadMonotone | src/main/java/org/mathieucuvelier/CIViewerCLI/persistence/StateManager.java:89-176 | with more rows, the loaded runs include every run, job and step loaded before |
| StoreProperties.SaveNeverDeletes | src/main/java/org/mathieucuvelier/CIViewerCLI/persistence/StateManager.java:178-240 | after a save, every run, job and step that any key loaded before is still loaded |
| StoreProperties.SaveKeepsUnsavedRuns | src/main/java/org/mathieucuvelier/CIViewerCLI/persistence/StateManager.java:178-240 | a run absent from the saved state loads back exactly as before the save |
| StoreProperties.MultipleRepositories | src/test/java/org/mathieucuvelier/CIViewerCLI/persistence/StateManagerTest.java:126-146 | two states saved one after the other under two keys into empty tables each load back exactly |
| StoreProperties.UpdateExistingState | src/test/java/org/mathieucuvelier/CIViewerCLI/persistence/StateManagerTest.java:148-167 | re-saving run 123 as completed/success replaces its status and conclusion, and the timestamp row |
| Monitor.StepsMap | src/main/java/org/mathieucuvelier/CIViewerCLI/service/WorkflowMonitor.java:63-66 | the rebuilt step map is keyed by each step's own name |
| Monitor.StepsMapKeys | src/main/java/org/mathieucuvelier/CIViewerCLI/service/WorkflowMonitor.java:63-66 | the step map's keys are exactly the fetched steps' names |
| Monitor.StepsMapLast | src/main/java/org/mathieucuvelier/CIViewerCLI/service/WorkflowMonitor.java:64-66 | when names repeat, the later step in list order wins |
| Monitor.JobsMap | src/main/java/org/mathieucuvelier/CIViewerCLI/service/WorkflowMonitor.java:59-71 | a collected job map is keyed by each job's own id |
| Monitor.JobsMapSome | src/main/java/org/mathieucuvelier/CIViewerCLI/service/WorkflowMonitor.java:59-61 | collecting the jobs succeeds iff their ids are distinct; a duplicate id is the error `Collectors.toMap` throws |
| Monitor.JobsMapContents | src/main/java/org/mathieucuvelier/CIViewerCLI/service/WorkflowMonitor.java:59-71 | the job map holds exactly the fetched jobs' ids, each with that job's status, conclusion and rebuilt steps; previous jobs are not merged in |
| Monitor.MergeRuns | src/main/java/org/mathieucuvelier/CIViewerCLI/service/WorkflowMonitor.java:53-75 | merging keeps runs keyed by their own ids |
| Monitor.MergeRunsSome | src/main/java/org/mathieucuvelier/CIViewerCLI/service/WorkflowMonitor.java:55-75 | the merge succeeds iff no fetched run has a duplicate job id |
| Monitor.MergeRunsKeys | src/main/java/org/mathieucuvelier/CIViewerCLI/service/WorkflowMonitor.java:53-75 | the merged ids are exactly the known ids and the fetched ids; a known run not fetched is kept unchanged |
| Monitor.MergeRunsAt | src/main/java/org/mathieucuvelier/CIViewerCLI/service/WorkflowMonitor.java:73-74 | a fetched run maps to a run state with its id, status, conclusion and collected jobs, replacing any prior entry; the last entry of a repeated id wins |
| Monitor.Merge | src/main/java/org/mathieucuvelier/CIViewerCLI/service/WorkflowMonitor.java:52-78 | the merged state's timestamp is the given instant, and its runs stay keyed by their own ids |
| Monitor.CollectSteps | src/main/java/org/mathieucuvelier/CIViewerCLI/service/WorkflowMonitor.java:63-66 | the put loop returns exactly the step map |
| Monitor.CollectJobs | src/main/java/org/mathieucuvelier/CIViewerCLI/service/WorkflowMonitor.java:59-71 | the collection returns exactly the job map, and fails on a duplicate id |
| Monitor.BuildMonitorState | src/main/java/org/mathieucuvelier/CIViewerCLI/service/WorkflowMonitor.java:52-78 | the copy-and-put loop returns exactly the merged state |
| Monitor.StepsQuietAfterMerge | src/main/java/org/mathieucuvelier/CIViewerCLI/service/WorkflowMonitor.java:63-66 | a job's steps with distinct names give no event against the step map built from them |
| Monitor.JobsQuietAfterMerge | src/main/java/org/mathieucuvelier/CIViewerCLI/service/WorkflowMonitor.java:59-71 | a run's jobs give no event against the job map built from them |
| Monitor.DetectAfterMerge | src/main/java/org/mathieucuvelier/CIViewerCLI/service/WorkflowMonitor.java:52-78 | with distinct run ids, job ids and step names, detecting a snapshot against the state merged from it gives no event |
| Monitor.Lines | src/main/java/org/mathieucuvelier/CIViewerCLI/service/WorkflowMonitor.java:152-154 | no more lines than events |
| Monitor.LinesSpec | src/main/java/org/mathieucuvelier/CIViewerCLI/service/WorkflowMonitor.java:152-154 | each printed line is its event's formatted line, in order; printing stops exactly at the first event without a SHA; all events print iff every one has a SHA |
| Monitor.Displayed | src/main/java/org/mathieucuvelier/CIViewerCLI/service/WorkflowMonitor.java:149-155 | no event gives exactly the one "No new events detected." line; otherwise at most one line per event |
| Monitor.DisplayedAll | src/main/java/org/mathieucuvelier/CIViewerCLI/service/WorkflowMonitor.java:149-155 | printable events give exactly one line per event, in order |
| Monitor.Requests | src/main/java/org/mathieucuvelier/CIViewerCLI/service/WorkflowMonitor.java:120-123 | one fetch per poll |
| Monitor.RequestsAt | src/main/java/org/mathieucuvelier/CIViewerCLI/service/WorkflowMonitor.java:120-123 | the first fetch is made with the starting watermark and each later one with the previous poll's time |
| Monitor.RequestsSnoc | src/main/java/org/mathieucuvelier/CIViewerCLI/service/WorkflowMonitor.java:120-123 | one more poll fetches with the watermark left by the polls before it |
| Monitor.WorkflowMonitor.constructor | src/main/java/org/mathieucuvelier/CIViewerCLI/service/WorkflowMonitor.java:24-35 | a new monitor is running, for the given owner, repository and store, with the empty state, having fetched and printed nothing |
| Monitor.WorkflowMonitor.HandleFirstRun | src/main/java/org/mathieucuvelier/CIViewerCLI/service/WorkflowMonitor.java:105-116 | the watermark becomes now before the fetch; the fetch is made since the sentinel; the state is merged from an empty known-run map and saved; nothing is printed; a duplicate job id fails and changes neither state nor store |
| Monitor.WorkflowMonitor.InitializeState | src/main/java/org/mathieucuvelier/CIViewerCLI/service/WorkflowMonitor.java:90-103 | a sentinel loaded timestamp takes the first-run path, which fails exactly on a repeated job id and then leaves state and store as they were; otherwise the loaded state is kept, the watermark becomes its timestamp, and nothing is fetched or saved |
| Monitor.WorkflowMonitor.DisplayEvents | src/main/java/org/mathieucuvelier/CIViewerCLI/service/WorkflowMonitor.java:149-155 | appends exactly the displayed lines; succeeds iff every event has a SHA |
| Monitor.WorkflowMonitor.ProcessAndDisplayEvents | src/main/java/org/mathieucuvelier/CIViewerCLI/service/WorkflowMonitor.java:145-156 | prints the lines of the events detected against the given state, changing nothing else |
| Monitor.WorkflowMonitor.UpdateAndSaveState | src/main/java/org/mathieucuvelier/CIViewerCLI/service/WorkflowMonitor.java:158-163 | the new state is the fetched snapshot merged into the current runs with the current watermark, and it is saved; a duplicate job id changes nothing |
| Monitor.WorkflowMonitor.PollOnce | src/main/java/org/mathieucuvelier/CIViewerCLI/service/WorkflowMonitor.java:120-127 | the fetch uses the old watermark; the watermark becomes now before detection; the events against the old state are printed; the merged state carries now, is saved and becomes the next state; a failure saves nothing |
| Monitor.WorkflowMonitor.SleepBetweenPolls | src/main/java/org/mathieucuvelier/CIViewerCLI/service/WorkflowMonitor.java:165-172 | an interrupted sleep clears the running flag; nothing else changes |
| Monitor.WorkflowMonitor.Iteration | src/main/java/org/mathieucuvelier/CIViewerCLI/service/WorkflowMonitor.java:120-129 | one loop body: fetch with the old watermark, watermark to now; the lines of the events detected against the old state are printed; a successful poll carries on with `PollResult` (the merge at now) and saves it, a failed one leaves state and store as they were; the running flag is cleared only by an interrupted sleep after a successful poll |
| Monitor.WorkflowMonitor.RunMonitoringLoop | src/main/java/org/mathieucuvelier/CIViewerCLI/service/WorkflowMonitor.java:118-131 | a stopped monitor polls nothing; each poll fetches with the previous poll's time; no poll before the last was interrupted; a loop that stops without error stopped because its last sleep was interrupted; the states carried and the lines printed are the `History` of the polls made, which `HistoryFolds` equates with the folds `Carried` and `Printed`; after a successful poll the store holds the state carried |
| Monitor.WorkflowMonitor.Advance | src/main/java/org/mathieucuvelier/CIViewerCLI/service/WorkflowMonitor.java:120-129 | one loop body extends the history of the loop by poll `n`: its lines are recorded and printed, and a successful poll's state is both the next state and the one stored |
| Monitor.WorkflowMonitor.PollOnceAsWritten | src/main/java/org/mathieucuvelier/CIViewerCLI/service/WorkflowMonitor.java:120-127 | the poll with the detector as written: a run or step the state has not seen fails it before anything is printed or saved; otherwise it prints the as-written events and, when they are printable and job ids distinct, merges and saves |
| Monitor.PollSucceeds | src/main/java/org/mathieucuvelier/CIViewerCLI/service/WorkflowMonitor.java:145-163 | a poll carries on iff every detected event can be printed and no job id repeats, and then with the merge of the fetch at the poll's clock |
| Monitor.Carried | src/main/java/org/mathieucuvelier/CIViewerCLI/service/WorkflowMonitor.java:118-131 | the state carried after a sequence of polls has the last poll's clock as its timestamp and keeps every run under its own id |
| Monitor.HistoryCarried | src/main/java/org/mathieucuvelier/CIViewerCLI/service/WorkflowMonitor.java:118-131 | a record of successful polls, each carrying on with the next recorded state and printing its recorded lines, is the fold `Carried`, and its lines are `Printed` |
| Monitor.HistoryFailed | src/main/java/org/mathieucuvelier/CIViewerCLI/service/WorkflowMonitor.java:118-131 | a record whose last poll failed: the fold succeeds up to that poll, fails at it, and the lines printed include that poll's |
| Monitor.HistoryFolds | src/main/java/org/mathieucuvelier/CIViewerCLI/service/WorkflowMonitor.java:118-131 | the loop's record is the fold: the current state is `Carried` of the polls made (or of all but the failed last one), and the output is the old output followed by `Printed` |
| Monitor.CarriedPrefix | src/main/java/org/mathieucuvelier/CIViewerCLI/service/WorkflowMonitor.java:118-131 | a sequence of polls that succeeds has every prefix succeed: once a poll fails the loop does not resume |
| Monitor.PrintedAtLeast | src/main/java/org/mathieucuvelier/CIViewerCLI/service/WorkflowMonitor.java:145-156 | successful polls print at least one line each ("No new events detected." or one line per event) |

## Left out

- Fetching from GitHub (HTTP, authentication, backoff, exit on 401, 403 or 404) and JSON mapping: what a fetch returns is an input of the monitor.
- The SQL engine and DatabaseManager: the four tables are Dafny maps. The schema in DatabaseManager.java creates no `step_state` table; the model assumes the table StateManager queries exists.
- Persistence.StateManager.SaveState: a storage error during a save is not modelled, so the non-atomic partial save (rows written before the failing upsert stay, the rest are skipped) is not captured.
- Row-level read errors are not modelled; query-level errors are (the `LoadFaults` input). In `loadRuns` and `loadJobs` the row mapper returns null for a bad row and the row is skipped (StateManager.java:107, 137). `loadSteps` does not filter, so a null row there throws at `step.stepName()` (StateManager.java:167) and the exception escapes `loadState`.
- The `last_updated` columns (`System.currentTimeMillis()`) are never read back and are not modelled.
- Persistence.StateManager.SaveRun, Persistence.StateManager.SaveJob, Persistence.StateManager.SaveState: require each run, job and step to sit under its own id or name in its map, as in every state the monitor builds and the store loads; for any other state the rows written would depend on HashMap order.
- `StateManager.close` only releases resources and is not modelled.
- Zone conversions: instants are integers; `toInstant().toString()` followed by `Instant.parse` is taken as the identity, and `Event.timestamp` is the run's creation time as text.
- Ids are unbounded integers rather than 64-bit `long`s.
- Names, branches and statuses are never null; conclusions, job and step names and the commit SHA may be.
- Terminal output other than the event lines and "No new events detected." (banners, the resume message, ANSI colours) is not modelled.
- The shutdown hooks and the real 30-second sleep: the sleep is an input saying whether it was interrupted.
- Monitor.WorkflowMonitor.PollOnce: the monitor (PollOnce, ProcessAndDisplayEvents, Iteration, RunMonitoringLoop) detects with the corrected `Detect`, where WorkflowMonitor.java:147 calls `detectEvents` as written; with the as-written detector any fetch holding a run or step the state has not seen throws before printing or saving and the exception ends the loop. `Monitor.WorkflowMonitor.PollOnceAsWritten` models that poll (see Scenarios.AsWrittenSecondRunFails).
- Monitor.WorkflowMonitor.RunMonitoringLoop: `while (isRunning)` is bounded by the finite sequence of polls given as input, so a monitor that is never interrupted is modelled only up to that many polls.
- Monitor.WorkflowMonitor.InitializeState: the source reads the clock twice (a failing timestamp query, then the first-run watermark); the model uses one `now` for both.
- Monitor.WorkflowMonitor.constructor: the source constructs its own StateManager; the model is given the store.
- Events.FormattedMentions: states that ` (conclusion)` appears when the conclusion is present; that it is absent for a null conclusion follows only from the definition of `ToFormattedString`.

## Findings

| source | as written | input that shows it | evidently intended | confidence | as-written member | corrected member |
|---|---|---|---|---|---|---|
| src/main/java/org/mathieucuvelier/CIViewerCLI/service/EventDetector.java:36-48 | the run branch tests `containsKey` the wrong way round: an unknown run reaches `previousRunState.status()` on null, and a known queued or in-progress run re-reports WORKFLOW_STARTED every poll | run 1, queued, against the empty state (NullPointerException); run 1 still queued against a state that knows it as in progress (a second WORKFLOW_STARTED) | the job rule: an unknown run reports its current status, a known run only its change into completed | high, not executed | Detector.WorkflowEventsAsWritten, Scenarios.AsWrittenNewRunFails, Scenarios.AsWrittenKnownRunRestarts, Scenarios.AsWrittenSecondRunFails, Monitor.WorkflowMonitor.PollOnceAsWritten | Detector.WorkflowEvents, Detector.DetectWorkflowEvents, Detector.DetectEvents |
| src/main/java/org/mathieucuvelier/CIViewerCLI/service/EventDetector.java:82-103 | the step branch tests `containsKey` the wrong way round: an unknown step reaches `previousState.status()` on null, and a known active step re-reports STEP_STARTED every poll | step "Build", in progress, of job 10 that is known with no steps (NullPointerException) | the job rule at step level, with STEP_FAILED for the conclusion "failure" | high, not executed | Detector.StepEventsAsWritten, Scenarios.AsWrittenNewStepFails | Detector.StepEvents, Detector.DetectSteps, Detector.DetectEvents |

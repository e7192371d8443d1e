/**
 * The state store (StateManager.java) over four in-memory tables in place of
 * the SQL ones: one timestamp row per (owner, repo), and one status row per
 * run, per job of a run and per step of a job, each keyed by the whole path
 * down to it. Saving upserts (`INSERT OR REPLACE`) and never deletes; loading
 * rebuilds the tree of one (owner, repo) from the rows stored under it.
 */
module Persistence {
  import opened Wrappers
  import opened State

  datatype RepoKey = RepoKey(owner: string, repo: string)
  datatype RunKey = RunKey(owner: string, repo: string, runId: int)
  datatype JobKey = JobKey(owner: string, repo: string, runId: int, jobId: int)
  datatype StepKey = StepKey(owner: string, repo: string, runId: int, jobId: int, stepName: string)

  /** The status and conclusion columns of a run, job or step row. */
  datatype Row = Row(status: string, conclusion: Option<string>)

  /** The tables `repo_state`, `run_state`, `job_state` and `step_state`. */
  datatype Tables = Tables(
    repoState: map<RepoKey, Instant>,
    runState: map<RunKey, Row>,
    jobState: map<JobKey, Row>,
    stepState: map<StepKey, Row>)

  /**
   * Which queries of one load fail with a storage error: the timestamp query,
   * the runs query, the jobs query of the runs in `jobs` and the steps query
   * of the (run, job) pairs in `steps`.
   */
  datatype LoadFaults = LoadFaults(timestamp: bool, runs: bool, jobs: set<int>, steps: set<(int, int)>)

  const NoFaults: LoadFaults := LoadFaults(false, false, {}, {})

  function RunRow(run: RunState): Row { Row(run.status, run.conclusion) }
  function JobRow(job: JobState): Row { Row(job.status, job.conclusion) }
  function StepRow(step: StepState): Row { Row(step.status, step.conclusion) }

  // ---------------------------------------------------------------------------
  // The row a save writes under a key, if any. Each function stops at the
  // entities whose name or id is in its last argument, so that a loop can
  // describe the rows it has written so far.

  /** The row `saveStep` writes at `k` for the steps of one job named in `names`. */
  function JobStepRow(k: StepKey, owner: string, repo: string, runId: int, jobId: int,
                      steps: map<string, StepState>, names: set<string>): Option<Row>
  {
    if k.owner == owner && k.repo == repo && k.runId == runId && k.jobId == jobId
       && k.stepName in steps && k.stepName in names
    then Some(StepRow(steps[k.stepName]))
    else None
  }

  /** The step row written at `k` for the jobs of one run with an id in `ids`. */
  function RunStepRow(k: StepKey, owner: string, repo: string, runId: int,
                      jobs: map<int, JobState>, ids: set<int>): Option<Row>
  {
    if k.jobId in jobs && k.jobId in ids
    then JobStepRow(k, owner, repo, runId, k.jobId, jobs[k.jobId].stepStates, jobs[k.jobId].stepStates.Keys)
    else None
  }

  /** The step row written at `k` for the runs with an id in `ids`. */
  function StepRowAt(k: StepKey, owner: string, repo: string, runs: map<int, RunState>, ids: set<int>): Option<Row>
  {
    if k.runId in runs && k.runId in ids
    then RunStepRow(k, owner, repo, k.runId, runs[k.runId].knownJobs, runs[k.runId].knownJobs.Keys)
    else None
  }

  /** The row `saveJob` writes at `k` for the jobs of one run with an id in `ids`. */
  function RunJobRow(k: JobKey, owner: string, repo: string, runId: int,
                     jobs: map<int, JobState>, ids: set<int>): Option<Row>
  {
    if k.owner == owner && k.repo == repo && k.runId == runId && k.jobId in jobs && k.jobId in ids
    then Some(JobRow(jobs[k.jobId]))
    else None
  }

  /** The job row written at `k` for the runs with an id in `ids`. */
  function JobRowAt(k: JobKey, owner: string, repo: string, runs: map<int, RunState>, ids: set<int>): Option<Row>
  {
    if k.runId in runs && k.runId in ids
    then RunJobRow(k, owner, repo, k.runId, runs[k.runId].knownJobs, runs[k.runId].knownJobs.Keys)
    else None
  }

  /** The row `saveRun` writes at `k` for the runs with an id in `ids`. */
  function RunRowAt(k: RunKey, owner: string, repo: string, runs: map<int, RunState>, ids: set<int>): Option<Row>
  {
    if k.owner == owner && k.repo == repo && k.runId in runs && k.runId in ids
    then Some(RunRow(runs[k.runId]))
    else None
  }


  // ---------------------------------------------------------------------------
  // A table after an upsert: at each key `k`, the row function's `Some(r)`
  // inserts or replaces `r`, and its `None` keeps the key as it was.

  ghost predicate JobStepsUpserted(before: map<StepKey, Row>, after: map<StepKey, Row>, owner: string, repo: string,
                                   runId: int, jobId: int, steps: map<string, StepState>, names: set<string>)
  {
    forall k ::
      && (k in after <==> k in before || JobStepRow(k, owner, repo, runId, jobId, steps, names).Some?)
      && (k in after ==> after[k] == (var row := JobStepRow(k, owner, repo, runId, jobId, steps, names); if row.Some? then row.value else before[k]))
  }

  ghost predicate RunStepsUpserted(before: map<StepKey, Row>, after: map<StepKey, Row>, owner: string, repo: string,
                                   runId: int, jobs: map<int, JobState>, ids: set<int>)
  {
    forall k ::
      && (k in after <==> k in before || RunStepRow(k, owner, repo, runId, jobs, ids).Some?)
      && (k in after ==> after[k] == (var row := RunStepRow(k, owner, repo, runId, jobs, ids); if row.Some? then row.value else before[k]))
  }

  ghost predicate StepsUpserted(before: map<StepKey, Row>, after: map<StepKey, Row>, owner: string, repo: string,
                                runs: map<int, RunState>, ids: set<int>)
  {
    forall k ::
      && (k in after <==> k in before || StepRowAt(k, owner, repo, runs, ids).Some?)
      && (k in after ==> after[k] == (var row := StepRowAt(k, owner, repo, runs, ids); if row.Some? then row.value else before[k]))
  }

  ghost predicate RunJobsUpserted(before: map<JobKey, Row>, after: map<JobKey, Row>, owner: string, repo: string,
                                  runId: int, jobs: map<int, JobState>, ids: set<int>)
  {
    forall k ::
      && (k in after <==> k in before || RunJobRow(k, owner, repo, runId, jobs, ids).Some?)
      && (k in after ==> after[k] == (var row := RunJobRow(k, owner, repo, runId, jobs, ids); if row.Some? then row.value else before[k]))
  }

  ghost predicate JobsUpserted(before: map<JobKey, Row>, after: map<JobKey, Row>, owner: string, repo: string,
                               runs: map<int, RunState>, ids: set<int>)
  {
    forall k ::
      && (k in after <==> k in before || JobRowAt(k, owner, repo, runs, ids).Some?)
      && (k in after ==> after[k] == (var row := JobRowAt(k, owner, repo, runs, ids); if row.Some? then row.value else before[k]))
  }

  ghost predicate RunsUpserted(before: map<RunKey, Row>, after: map<RunKey, Row>, owner: string, repo: string,
                               runs: map<int, RunState>, ids: set<int>)
  {
    forall k ::
      && (k in after <==> k in before || RunRowAt(k, owner, repo, runs, ids).Some?)
      && (k in after ==> after[k] == (var row := RunRowAt(k, owner, repo, runs, ids); if row.Some? then row.value else before[k]))
  }

  /**
   * `saveState(owner, repo, state)` turns the tables `before` into `after`:
   * the timestamp row is replaced, and one row is upserted for every run, job
   * and step of `state`, each under its own key; every other row is kept.
   */
  ghost predicate Saved(before: Tables, after: Tables, owner: string, repo: string, state: MonitorState)
  {
    var runs := state.knownRuns;
    && after.repoState == before.repoState[RepoKey(owner, repo) := state.lastCheckTimestamp]
    && RunsUpserted(before.runState, after.runState, owner, repo, runs, runs.Keys)
    && JobsUpserted(before.jobState, after.jobState, owner, repo, runs, runs.Keys)
    && StepsUpserted(before.stepState, after.stepState, owner, repo, runs, runs.Keys)
  }

  // ---------------------------------------------------------------------------
  // What a load reads back

  /** The run ids the runs query returns for (owner, repo). */
  function RunIdsOf(rows: map<RunKey, Row>, owner: string, repo: string): (ids: set<int>)
    ensures forall id :: id in ids <==> RunKey(owner, repo, id) in rows
  {
    set k | k in rows && k.owner == owner && k.repo == repo :: k.runId
  }

  /** The job ids the jobs query returns for one run. */
  function JobIdsOf(rows: map<JobKey, Row>, owner: string, repo: string, runId: int): (ids: set<int>)
    ensures forall id :: id in ids <==> JobKey(owner, repo, runId, id) in rows
  {
    set k | k in rows && k.owner == owner && k.repo == repo && k.runId == runId :: k.jobId
  }

  /** The step names the steps query returns for one job. */
  function StepNamesOf(rows: map<StepKey, Row>, owner: string, repo: string, runId: int, jobId: int): (names: set<string>)
    ensures forall n :: n in names <==> StepKey(owner, repo, runId, jobId, n) in rows
  {
    set k | k in rows && k.owner == owner && k.repo == repo && k.runId == runId && k.jobId == jobId :: k.stepName
  }

  /** `loadSteps`: the steps stored for one job, keyed by name; a failing query gives none. */
  function LoadStepsSpec(t: Tables, owner: string, repo: string, runId: int, jobId: int,
                         faults: LoadFaults): (steps: map<string, StepState>)
    ensures StepsWellKeyed(steps)
    ensures (runId, jobId) in faults.steps ==> steps == map[]
    ensures (runId, jobId) !in faults.steps ==>
      forall n :: n in steps <==> StepKey(owner, repo, runId, jobId, n) in t.stepState
    ensures forall n :: n in steps ==>
      StepRow(steps[n]) == t.stepState[StepKey(owner, repo, runId, jobId, n)]
  {
    if (runId, jobId) in faults.steps then map[]
    else
      map n | n in StepNamesOf(t.stepState, owner, repo, runId, jobId) ::
        var row := t.stepState[StepKey(owner, repo, runId, jobId, n)];
        StepState(row.status, row.conclusion, n)
  }

  /** `loadJobs`: the jobs stored for one run, keyed by id; a failing query gives none. */
  function LoadJobsSpec(t: Tables, owner: string, repo: string, runId: int, faults: LoadFaults): (jobs: map<int, JobState>)
    ensures JobsWellKeyed(jobs)
    ensures runId in faults.jobs ==> jobs == map[]
    ensures runId !in faults.jobs ==>
      forall id :: id in jobs <==> JobKey(owner, repo, runId, id) in t.jobState
    ensures forall id :: id in jobs ==>
      && JobRow(jobs[id]) == t.jobState[JobKey(owner, repo, runId, id)]
      && jobs[id].stepStates == LoadStepsSpec(t, owner, repo, runId, id, faults)
  {
    if runId in faults.jobs then map[]
    else
      map id | id in JobIdsOf(t.jobState, owner, repo, runId) ::
        var row := t.jobState[JobKey(owner, repo, runId, id)];
        JobState(id, row.status, row.conclusion, LoadStepsSpec(t, owner, repo, runId, id, faults))
  }

  /** `loadRuns`: the runs stored for (owner, repo), keyed by id; a failing query gives none. */
  function LoadRunsSpec(t: Tables, owner: string, repo: string, faults: LoadFaults): (runs: map<int, RunState>)
    ensures RunsWellKeyed(runs)
    ensures faults.runs ==> runs == map[]
    ensures !faults.runs ==> forall id :: id in runs <==> RunKey(owner, repo, id) in t.runState
    ensures forall id :: id in runs ==>
      && RunRow(runs[id]) == t.runState[RunKey(owner, repo, id)]
      && runs[id].knownJobs == LoadJobsSpec(t, owner, repo, id, faults)
  {
    if faults.runs then map[]
    else
      map id | id in RunIdsOf(t.runState, owner, repo) ::
        var row := t.runState[RunKey(owner, repo, id)];
        RunState(id, row.status, row.conclusion, LoadJobsSpec(t, owner, repo, id, faults))
  }

  /**
   * `loadLastCheckTimestamp`: the stored timestamp; the sentinel when there is
   * no row; the current time when the query fails.
   */
  function LoadTimestampSpec(t: Tables, owner: string, repo: string, faults: LoadFaults, now: Instant): (ts: Instant)
    ensures !faults.timestamp && RepoKey(owner, repo) !in t.repoState ==> ts == MinInstant
    ensures !faults.timestamp && RepoKey(owner, repo) in t.repoState ==> ts == t.repoState[RepoKey(owner, repo)]
    ensures faults.timestamp ==> ts == now
  {
    if faults.timestamp then now
    else if RepoKey(owner, repo) in t.repoState then t.repoState[RepoKey(owner, repo)]
    else MinInstant
  }

  /** `loadState`: the sentinel timestamp gives `MonitorState.empty()`, any other the stored runs. */
  function LoadSpec(t: Tables, owner: string, repo: string, faults: LoadFaults, now: Instant): (s: MonitorState)
    ensures RunsWellKeyed(s.knownRuns)
    ensures s.lastCheckTimestamp == LoadTimestampSpec(t, owner, repo, faults, now)
    ensures s.lastCheckTimestamp == MinInstant ==> s == Empty
    ensures !faults.timestamp && RepoKey(owner, repo) !in t.repoState ==> s == Empty
    ensures s.lastCheckTimestamp != MinInstant ==> s.knownRuns == LoadRunsSpec(t, owner, repo, faults)
  {
    var ts := LoadTimestampSpec(t, owner, repo, faults, now);
    if ts == MinInstant then Empty else MonitorState(ts, LoadRunsSpec(t, owner, repo, faults))
  }

  // ---------------------------------------------------------------------------
  // One more job or run saved

  lemma RunJobsUpsertedStep(before: map<JobKey, Row>, middle: map<JobKey, Row>, after: map<JobKey, Row>,
                            owner: string, repo: string, runId: int, jobs: map<int, JobState>, done: set<int>, id: int)
    requires id in jobs && jobs[id].jobId == id
    requires RunJobsUpserted(before, middle, owner, repo, runId, jobs, done)
    requires after == middle[JobKey(owner, repo, runId, id) := JobRow(jobs[id])]
    ensures RunJobsUpserted(before, after, owner, repo, runId, jobs, done + {id})
  {
  }

  lemma RunStepsUpsertedStep(before: map<StepKey, Row>, middle: map<StepKey, Row>, after: map<StepKey, Row>,
                             owner: string, repo: string, runId: int, jobs: map<int, JobState>, done: set<int>, id: int)
    requires id in jobs
    requires RunStepsUpserted(before, middle, owner, repo, runId, jobs, done)
    requires JobStepsUpserted(middle, after, owner, repo, runId, id, jobs[id].stepStates, jobs[id].stepStates.Keys)
    ensures RunStepsUpserted(before, after, owner, repo, runId, jobs, done + {id})
  {
  }

  lemma RunsUpsertedStep(before: map<RunKey, Row>, middle: map<RunKey, Row>, after: map<RunKey, Row>,
                         owner: string, repo: string, runs: map<int, RunState>, done: set<int>, id: int)
    requires id in runs && runs[id].runId == id
    requires RunsUpserted(before, middle, owner, repo, runs, done)
    requires after == middle[RunKey(owner, repo, id) := RunRow(runs[id])]
    ensures RunsUpserted(before, after, owner, repo, runs, done + {id})
  {
  }

  lemma JobsUpsertedStep(before: map<JobKey, Row>, middle: map<JobKey, Row>, after: map<JobKey, Row>,
                         owner: string, repo: string, runs: map<int, RunState>, done: set<int>, id: int)
    requires id in runs
    requires JobsUpserted(before, middle, owner, repo, runs, done)
    requires RunJobsUpserted(middle, after, owner, repo, id, runs[id].knownJobs, runs[id].knownJobs.Keys)
    ensures JobsUpserted(before, after, owner, repo, runs, done + {id})
  {
  }

  lemma StepsUpsertedStep(before: map<StepKey, Row>, middle: map<StepKey, Row>, after: map<StepKey, Row>,
                          owner: string, repo: string, runs: map<int, RunState>, done: set<int>, id: int)
    requires id in runs
    requires StepsUpserted(before, middle, owner, repo, runs, done)
    requires RunStepsUpserted(middle, after, owner, repo, id, runs[id].knownJobs, runs[id].knownJobs.Keys)
    ensures StepsUpserted(before, after, owner, repo, runs, done + {id})
  {
  }

  // ---------------------------------------------------------------------------
  // The store

  /** Some element of a non-empty set; which one is left open. */
  method Choose<T>(s: set<T>) returns (x: T)
    requires s != {}
    ensures x in s
  {
    x :| x in s;
  }

  class StateManager {
    var repoState: map<RepoKey, Instant>
    var runState: map<RunKey, Row>
    var jobState: map<JobKey, Row>
    var stepState: map<StepKey, Row>

    /** The four tables as they are now. */
    function Contents(): Tables
      reads this
    {
      Tables(repoState, runState, jobState, stepState)
    }

    /** A store over the database `db` as it is on disk. */
    constructor (db: Tables)
      ensures Contents() == db
    {
      repoState, runState, jobState, stepState := db.repoState, db.runState, db.jobState, db.stepState;
    }

    /** `loadSteps`: the steps query's rows put into a map by step name, in the order the rows come. */
    method LoadSteps(owner: string, repo: string, runId: int, jobId: int, faults: LoadFaults)
      returns (steps: map<string, StepState>)
      ensures steps == LoadStepsSpec(Contents(), owner, repo, runId, jobId, faults)
    {
      steps := map[];
      if (runId, jobId) in faults.steps {
        return;
      }
      var pending := StepNamesOf(stepState, owner, repo, runId, jobId);
      ghost var names := pending;
      while pending != {}
        invariant pending <= names
        invariant forall n :: n in steps <==> n in names - pending
        invariant forall n :: n in steps ==>
          var row := stepState[StepKey(owner, repo, runId, jobId, n)];
          steps[n] == StepState(row.status, row.conclusion, n)
        decreases pending
      {
        var name := Choose(pending);
        var row := stepState[StepKey(owner, repo, runId, jobId, name)];
        steps := steps[name := StepState(row.status, row.conclusion, name)];
        pending := pending - {name};
      }
    }

    /** `loadJobs`: one job per row of the jobs query, each with its steps loaded, collected by job id. */
    method LoadJobs(owner: string, repo: string, runId: int, faults: LoadFaults)
      returns (jobs: map<int, JobState>)
      ensures jobs == LoadJobsSpec(Contents(), owner, repo, runId, faults)
    {
      jobs := map[];
      if runId in faults.jobs {
        return;
      }
      var pending := JobIdsOf(jobState, owner, repo, runId);
      ghost var ids := pending;
      while pending != {}
        invariant pending <= ids
        invariant forall id :: id in jobs <==> id in ids - pending
        invariant forall id :: id in jobs ==>
          var row := jobState[JobKey(owner, repo, runId, id)];
          jobs[id] == JobState(id, row.status, row.conclusion, LoadStepsSpec(Contents(), owner, repo, runId, id, faults))
        decreases pending
      {
        var id := Choose(pending);
        var steps := LoadSteps(owner, repo, runId, id, faults);
        var row := jobState[JobKey(owner, repo, runId, id)];
        jobs := jobs[id := JobState(id, row.status, row.conclusion, steps)];
        pending := pending - {id};
      }
      ghost var spec := LoadJobsSpec(Contents(), owner, repo, runId, faults);
      assert forall id :: id in jobs <==> id in ids;
      assert forall id :: id in spec <==> id in ids;
      assert jobs.Keys == spec.Keys;
      assert forall id :: id in jobs ==> jobs[id] == spec[id];
    }

    /** `loadRuns`: one run per row of the runs query, each with its jobs loaded, collected by run id. */
    method LoadRuns(owner: string, repo: string, faults: LoadFaults) returns (runs: map<int, RunState>)
      ensures runs == LoadRunsSpec(Contents(), owner, repo, faults)
    {
      runs := map[];
      if faults.runs {
        return;
      }
      var pending := RunIdsOf(runState, owner, repo);
      ghost var ids := pending;
      while pending != {}
        invariant pending <= ids
        invariant forall id :: id in runs <==> id in ids - pending
        invariant forall id :: id in runs ==>
          var row := runState[RunKey(owner, repo, id)];
          runs[id] == RunState(id, row.status, row.conclusion, LoadJobsSpec(Contents(), owner, repo, id, faults))
        decreases pending
      {
        var id := Choose(pending);
        var jobs := LoadJobs(owner, repo, id, faults);
        var row := runState[RunKey(owner, repo, id)];
        runs := runs[id := RunState(id, row.status, row.conclusion, jobs)];
        pending := pending - {id};
      }
      ghost var spec := LoadRunsSpec(Contents(), owner, repo, faults);
      assert forall id :: id in runs <==> id in ids;
      assert forall id :: id in spec <==> id in ids;
      assert runs.Keys == spec.Keys;
      assert forall id :: id in runs ==> runs[id] == spec[id];
    }

    /** `loadLastCheckTimestamp`, with `now` standing for the clock read on a storage error. */
    method LoadLastCheckTimestamp(owner: string, repo: string, faults: LoadFaults, now: Instant) returns (ts: Instant)
      ensures ts == LoadTimestampSpec(Contents(), owner, repo, faults, now)
    {
      if faults.timestamp {
        return now;
      }
      var key := RepoKey(owner, repo);
      if key in repoState {
        ts := repoState[key];
      } else {
        ts := MinInstant;
      }
    }

    /** `loadState`: the sentinel timestamp stops the load at `MonitorState.empty()`. */
    method LoadState(owner: string, repo: string, faults: LoadFaults, now: Instant) returns (state: MonitorState)
      ensures state == LoadSpec(Contents(), owner, repo, faults, now)
    {
      var ts := LoadLastCheckTimestamp(owner, repo, faults, now);
      if ts == MinInstant {
        return Empty;
      }
      var runs := LoadRuns(owner, repo, faults);
      state := MonitorState(ts, runs);
    }

    method SaveStep(owner: string, repo: string, runId: int, jobId: int, step: StepState)
      modifies this
      ensures stepState == old(stepState)[StepKey(owner, repo, runId, jobId, step.stepName) := StepRow(step)]
      ensures repoState == old(repoState) && runState == old(runState) && jobState == old(jobState)
    {
      stepState := stepState[StepKey(owner, repo, runId, jobId, step.stepName) := StepRow(step)];
    }

    /** `saveJob`: the job's row, then one row per step, in the step map's order. */
    method SaveJob(owner: string, repo: string, runId: int, job: JobState)
      requires StepsWellKeyed(job.stepStates)
      modifies this
      ensures jobState == old(jobState)[JobKey(owner, repo, runId, job.jobId) := JobRow(job)]
      ensures JobStepsUpserted(old(stepState), stepState, owner, repo, runId, job.jobId, job.stepStates, job.stepStates.Keys)
      ensures repoState == old(repoState) && runState == old(runState)
    {
      jobState := jobState[JobKey(owner, repo, runId, job.jobId) := JobRow(job)];
      var steps := job.stepStates;
      var pending := steps.Keys;
      while pending != {}
        invariant pending <= steps.Keys
        invariant JobStepsUpserted(old(stepState), stepState, owner, repo, runId, job.jobId, steps, steps.Keys - pending)
        invariant jobState == old(jobState)[JobKey(owner, repo, runId, job.jobId) := JobRow(job)]
        invariant repoState == old(repoState) && runState == old(runState)
        decreases pending
      {
        var name := Choose(pending);
        SaveStep(owner, repo, runId, job.jobId, steps[name]);
        pending := pending - {name};
      }
    }

    /** `saveRun`: the run's row, then each job with its steps, in the job map's order. */
    method SaveRun(owner: string, repo: string, run: RunState)
      requires JobsWellKeyed(run.knownJobs)
      modifies this
      ensures runState == old(runState)[RunKey(owner, repo, run.runId) := RunRow(run)]
      ensures RunJobsUpserted(old(jobState), jobState, owner, repo, run.runId, run.knownJobs, run.knownJobs.Keys)
      ensures RunStepsUpserted(old(stepState), stepState, owner, repo, run.runId, run.knownJobs, run.knownJobs.Keys)
      ensures repoState == old(repoState)
    {
      runState := runState[RunKey(owner, repo, run.runId) := RunRow(run)];
      var jobs := run.knownJobs;
      var pending := jobs.Keys;
      while pending != {}
        invariant pending <= jobs.Keys
        invariant RunJobsUpserted(old(jobState), jobState, owner, repo, run.runId, jobs, jobs.Keys - pending)
        invariant RunStepsUpserted(old(stepState), stepState, owner, repo, run.runId, jobs, jobs.Keys - pending)
        invariant runState == old(runState)[RunKey(owner, repo, run.runId) := RunRow(run)]
        invariant repoState == old(repoState)
        decreases pending
      {
        var id := Choose(pending);
        ghost var done, jobsBefore, stepsBefore := jobs.Keys - pending, jobState, stepState;
        SaveJob(owner, repo, run.runId, jobs[id]);
        RunJobsUpsertedStep(old(jobState), jobsBefore, jobState, owner, repo, run.runId, jobs, done, id);
        RunStepsUpsertedStep(old(stepState), stepsBefore, stepState, owner, repo, run.runId, jobs, done, id);
        pending := pending - {id};
        assert jobs.Keys - pending == done + {id};
      }
    }

    /** `saveState`: the timestamp row, then each run with its jobs and steps, in the run map's order. */
    method SaveState(owner: string, repo: string, state: MonitorState)
      requires RunsWellKeyed(state.knownRuns)
      modifies this
      ensures Saved(old(Contents()), Contents(), owner, repo, state)
    {
      repoState := repoState[RepoKey(owner, repo) := state.lastCheckTimestamp];
      var runs := state.knownRuns;
      var pending := runs.Keys;
      while pending != {}
        invariant pending <= runs.Keys
        invariant RunsUpserted(old(runState), runState, owner, repo, runs, runs.Keys - pending)
        invariant JobsUpserted(old(jobState), jobState, owner, repo, runs, runs.Keys - pending)
        invariant StepsUpserted(old(stepState), stepState, owner, repo, runs, runs.Keys - pending)
        invariant repoState == old(repoState)[RepoKey(owner, repo) := state.lastCheckTimestamp]
        decreases pending
      {
        var id := Choose(pending);
        ghost var done, runsBefore, jobsBefore, stepsBefore := runs.Keys - pending, runState, jobState, stepState;
        SaveRun(owner, repo, runs[id]);
        RunsUpsertedStep(old(runState), runsBefore, runState, owner, repo, runs, done, id);
        JobsUpsertedStep(old(jobState), jobsBefore, jobState, owner, repo, runs, done, id);
        StepsUpsertedStep(old(stepState), stepsBefore, stepState, owner, repo, runs, done, id);
        pending := pending - {id};
        assert runs.Keys - pending == done + {id};
      }
    }
  }
}

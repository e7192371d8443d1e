/**
 * What a save followed by a load promises (StateManager.java): the round trip,
 * the partition of the tables by (owner, repo), and that saving never deletes.
 * Every lemma is stated over the `Saved` relation that `SaveState` establishes
 * and the `Load*Spec` functions the load methods compute.
 */
module StoreProperties {
  import opened Wrappers
  import opened State
  import opened Persistence

  // ---------------------------------------------------------------------------
  // Round trip

  /** The rows a save writes for `job` of run `runId` are in `t`. */
  ghost predicate JobStored(t: Tables, owner: string, repo: string, runId: int, job: JobState)
  {
    && JobKey(owner, repo, runId, job.jobId) in t.jobState
    && t.jobState[JobKey(owner, repo, runId, job.jobId)] == JobRow(job)
    && forall n :: n in job.stepStates ==>
         && StepKey(owner, repo, runId, job.jobId, n) in t.stepState
         && t.stepState[StepKey(owner, repo, runId, job.jobId, n)] == StepRow(job.stepStates[n])
  }

  /** The rows a save writes for `run` and everything below it are in `t`. */
  ghost predicate RunStored(t: Tables, owner: string, repo: string, run: RunState)
  {
    && RunKey(owner, repo, run.runId) in t.runState
    && t.runState[RunKey(owner, repo, run.runId)] == RunRow(run)
    && forall id :: id in run.knownJobs ==> JobStored(t, owner, repo, run.runId, run.knownJobs[id])
  }

  /** After a save, every run of the saved state is stored with its jobs and steps. */
  lemma SavedStoresRuns(before: Tables, after: Tables, owner: string, repo: string, state: MonitorState)
    requires RunsWellKeyed(state.knownRuns)
    requires Saved(before, after, owner, repo, state)
    ensures forall id :: id in state.knownRuns ==> RunStored(after, owner, repo, state.knownRuns[id])
  {
    var runs := state.knownRuns;
    forall id | id in runs
      ensures RunStored(after, owner, repo, runs[id])
    {
      assert RunRowAt(RunKey(owner, repo, id), owner, repo, runs, runs.Keys).Some?;
      var jobs := runs[id].knownJobs;
      forall jid | jid in jobs
        ensures JobStored(after, owner, repo, id, jobs[jid])
      {
        assert JobRowAt(JobKey(owner, repo, id, jid), owner, repo, runs, runs.Keys).Some?;
        var steps := jobs[jid].stepStates;
        forall n | n in steps
          ensures StepKey(owner, repo, id, jid, n) in after.stepState
          ensures after.stepState[StepKey(owner, repo, id, jid, n)] == StepRow(steps[n])
        {
          assert StepRowAt(StepKey(owner, repo, id, jid, n), owner, repo, runs, runs.Keys).Some?;
        }
      }
    }
  }

  /** Everything a save of `state` writes is in `t`: the repository's timestamp and every run with its jobs and steps. */
  ghost predicate StateStored(t: Tables, owner: string, repo: string, state: MonitorState)
  {
    && RepoKey(owner, repo) in t.repoState
    && t.repoState[RepoKey(owner, repo)] == state.lastCheckTimestamp
    && forall id :: id in state.knownRuns ==> RunStored(t, owner, repo, state.knownRuns[id])
  }

  /** A save leaves the saved state stored. */
  lemma SavedStoresState(before: Tables, after: Tables, owner: string, repo: string, state: MonitorState)
    requires RunsWellKeyed(state.knownRuns)
    requires Saved(before, after, owner, repo, state)
    ensures StateStored(after, owner, repo, state)
  {
    SavedStoresRuns(before, after, owner, repo, state);
  }

  /** A stored job loads back with its status, conclusion and every step. */
  lemma LoadStoredJob(t: Tables, owner: string, repo: string, runId: int, job: JobState)
    requires StepsWellKeyed(job.stepStates)
    requires JobStored(t, owner, repo, runId, job)
    ensures job.jobId in LoadJobsSpec(t, owner, repo, runId, NoFaults)
    ensures JobCovers(LoadJobsSpec(t, owner, repo, runId, NoFaults)[job.jobId], job)
  {
    var steps := LoadStepsSpec(t, owner, repo, runId, job.jobId, NoFaults);
    forall n | n in job.stepStates
      ensures n in steps && steps[n] == job.stepStates[n]
    {
      assert StepRow(steps[n]) == StepRow(job.stepStates[n]);
    }
  }

  /** A stored run loads back with its status, conclusion, jobs and steps. */
  lemma LoadStoredRun(t: Tables, owner: string, repo: string, run: RunState)
    requires JobsWellKeyed(run.knownJobs)
    requires RunStored(t, owner, repo, run)
    ensures run.runId in LoadRunsSpec(t, owner, repo, NoFaults)
    ensures RunCovers(LoadRunsSpec(t, owner, repo, NoFaults)[run.runId], run)
  {
    var loaded := LoadRunsSpec(t, owner, repo, NoFaults)[run.runId];
    forall jid | jid in run.knownJobs
      ensures jid in loaded.knownJobs && JobCovers(loaded.knownJobs[jid], run.knownJobs[jid])
    {
      LoadStoredJob(t, owner, repo, run.runId, run.knownJobs[jid]);
    }
  }

  /**
   * Save then load: the loaded timestamp is the saved one, and, unless it is
   * the sentinel, every run, job and step saved comes back with the same status
   * and conclusion (rows stored earlier may come back as well).
   */
  lemma SaveThenLoad(before: Tables, after: Tables, owner: string, repo: string, state: MonitorState, now: Instant)
    requires RunsWellKeyed(state.knownRuns)
    requires Saved(before, after, owner, repo, state)
    ensures LoadSpec(after, owner, repo, NoFaults, now).lastCheckTimestamp == state.lastCheckTimestamp
    ensures state.lastCheckTimestamp == MinInstant ==> LoadSpec(after, owner, repo, NoFaults, now) == Empty
    ensures state.lastCheckTimestamp != MinInstant ==>
      Covers(LoadSpec(after, owner, repo, NoFaults, now).knownRuns, state.knownRuns)
  {
    SavedStoresRuns(before, after, owner, repo, state);
    forall id | id in state.knownRuns
      ensures id in LoadRunsSpec(after, owner, repo, NoFaults)
      ensures RunCovers(LoadRunsSpec(after, owner, repo, NoFaults)[id], state.knownRuns[id])
    {
      LoadStoredRun(after, owner, repo, state.knownRuns[id]);
    }
  }

  /** No run, job or step row is stored under (owner, repo). */
  ghost predicate NothingStored(t: Tables, owner: string, repo: string)
  {
    && (forall k :: k in t.runState ==> k.owner != owner || k.repo != repo)
    && (forall k :: k in t.jobState ==> k.owner != owner || k.repo != repo)
    && (forall k :: k in t.stepState ==> k.owner != owner || k.repo != repo)
  }

  /** The step rows of one job in `t` are exactly those of `steps`. */
  ghost predicate StepsExactlyStored(t: Tables, owner: string, repo: string, runId: int, jobId: int,
                                     steps: map<string, StepState>)
  {
    forall n ::
      && (StepKey(owner, repo, runId, jobId, n) in t.stepState <==> n in steps)
      && (n in steps ==> t.stepState[StepKey(owner, repo, runId, jobId, n)] == StepRow(steps[n]))
  }

  /** The job rows of one run in `t` are exactly those of `jobs`, and so are their step rows. */
  ghost predicate JobsExactlyStored(t: Tables, owner: string, repo: string, runId: int, jobs: map<int, JobState>)
  {
    forall id ::
      && (JobKey(owner, repo, runId, id) in t.jobState <==> id in jobs)
      && (id in jobs ==> t.jobState[JobKey(owner, repo, runId, id)] == JobRow(jobs[id]))
      && (id in jobs ==> StepsExactlyStored(t, owner, repo, runId, id, jobs[id].stepStates))
  }

  /** The run rows of (owner, repo) in `t` are exactly those of `runs`, and so is everything below them. */
  ghost predicate RunsExactlyStored(t: Tables, owner: string, repo: string, runs: map<int, RunState>)
  {
    forall id ::
      && (RunKey(owner, repo, id) in t.runState <==> id in runs)
      && (id in runs ==> t.runState[RunKey(owner, repo, id)] == RunRow(runs[id]))
      && (id in runs ==> JobsExactlyStored(t, owner, repo, id, runs[id].knownJobs))
  }

  /** Saving into a database holding nothing for (owner, repo) stores exactly the saved tree there. */
  lemma SavedExactly(before: Tables, after: Tables, owner: string, repo: string, state: MonitorState)
    requires NothingStored(before, owner, repo)
    requires Saved(before, after, owner, repo, state)
    ensures RunsExactlyStored(after, owner, repo, state.knownRuns)
  {
    var runs := state.knownRuns;
    forall id | id in runs
      ensures JobsExactlyStored(after, owner, repo, id, runs[id].knownJobs)
    {
      var jobs := runs[id].knownJobs;
      forall jid | jid in jobs
        ensures StepsExactlyStored(after, owner, repo, id, jid, jobs[jid].stepStates)
      {
        forall n
          ensures StepKey(owner, repo, id, jid, n) in after.stepState <==> n in jobs[jid].stepStates
        {
          assert StepKey(owner, repo, id, jid, n) !in before.stepState;
        }
      }
      forall jid
        ensures JobKey(owner, repo, id, jid) in after.jobState <==> jid in jobs
      {
        assert JobKey(owner, repo, id, jid) !in before.jobState;
      }
    }
    forall id
      ensures RunKey(owner, repo, id) in after.runState <==> id in runs
    {
      assert RunKey(owner, repo, id) !in before.runState;
    }
  }

  lemma LoadStepsExactly(t: Tables, owner: string, repo: string, runId: int, jobId: int, steps: map<string, StepState>)
    requires StepsWellKeyed(steps)
    requires StepsExactlyStored(t, owner, repo, runId, jobId, steps)
    ensures LoadStepsSpec(t, owner, repo, runId, jobId, NoFaults) == steps
  {
    var loaded := LoadStepsSpec(t, owner, repo, runId, jobId, NoFaults);
    assert loaded.Keys == steps.Keys;
    forall n | n in steps
      ensures loaded[n] == steps[n]
    {
      assert StepRow(loaded[n]) == StepRow(steps[n]);
    }
  }

  lemma LoadJobsExactly(t: Tables, owner: string, repo: string, runId: int, jobs: map<int, JobState>)
    requires JobsWellKeyed(jobs)
    requires JobsExactlyStored(t, owner, repo, runId, jobs)
    ensures LoadJobsSpec(t, owner, repo, runId, NoFaults) == jobs
  {
    var loaded := LoadJobsSpec(t, owner, repo, runId, NoFaults);
    forall id
      ensures id in loaded <==> id in jobs
    {
      assert id in loaded <==> JobKey(owner, repo, runId, id) in t.jobState;
    }
    assert loaded.Keys == jobs.Keys;
    forall id | id in jobs
      ensures loaded[id] == jobs[id]
    {
      LoadStepsExactly(t, owner, repo, runId, id, jobs[id].stepStates);
      assert JobRow(loaded[id]) == JobRow(jobs[id]);
    }
  }

  lemma LoadRunsExactly(t: Tables, owner: string, repo: string, runs: map<int, RunState>)
    requires RunsWellKeyed(runs)
    requires RunsExactlyStored(t, owner, repo, runs)
    ensures LoadRunsSpec(t, owner, repo, NoFaults) == runs
  {
    var loaded := LoadRunsSpec(t, owner, repo, NoFaults);
    forall id
      ensures id in loaded <==> id in runs
    {
      assert id in loaded <==> RunKey(owner, repo, id) in t.runState;
    }
    assert loaded.Keys == runs.Keys;
    forall id | id in runs
      ensures loaded[id] == runs[id]
    {
      LoadJobsExactly(t, owner, repo, id, runs[id].knownJobs);
      assert RunRow(loaded[id]) == RunRow(runs[id]);
    }
  }

  /**
   * Into a database holding nothing for (owner, repo), save then load gives
   * back exactly the saved state, when its timestamp is not the sentinel.
   */
  lemma SaveThenLoadExact(before: Tables, after: Tables, owner: string, repo: string, state: MonitorState, now: Instant)
    requires RunsWellKeyed(state.knownRuns)
    requires NothingStored(before, owner, repo)
    requires Saved(before, after, owner, repo, state)
    requires state.lastCheckTimestamp != MinInstant
    ensures LoadSpec(after, owner, repo, NoFaults, now) == state
  {
    SavedExactly(before, after, owner, repo, state);
    LoadRunsExactly(after, owner, repo, state.knownRuns);
  }

  // ---------------------------------------------------------------------------
  // Partition by (owner, repo)

  /** `a` and `b` hold the same step rows for one job. */
  ghost predicate StepRowsAgree(a: Tables, b: Tables, owner: string, repo: string, runId: int, jobId: int)
  {
    forall n ::
      && (StepKey(owner, repo, runId, jobId, n) in a.stepState <==> StepKey(owner, repo, runId, jobId, n) in b.stepState)
      && (StepKey(owner, repo, runId, jobId, n) in a.stepState ==>
            a.stepState[StepKey(owner, repo, runId, jobId, n)] == b.stepState[StepKey(owner, repo, runId, jobId, n)])
  }

  /** `a` and `b` hold the same job and step rows for one run. */
  ghost predicate JobRowsAgree(a: Tables, b: Tables, owner: string, repo: string, runId: int)
  {
    forall id ::
      && (JobKey(owner, repo, runId, id) in a.jobState <==> JobKey(owner, repo, runId, id) in b.jobState)
      && (JobKey(owner, repo, runId, id) in a.jobState ==>
            a.jobState[JobKey(owner, repo, runId, id)] == b.jobState[JobKey(owner, repo, runId, id)])
      && StepRowsAgree(a, b, owner, repo, runId, id)
  }

  /** `a` and `b` hold the same rows for (owner, repo), at every level. */
  ghost predicate RepoRowsAgree(a: Tables, b: Tables, owner: string, repo: string)
  {
    && (RepoKey(owner, repo) in a.repoState <==> RepoKey(owner, repo) in b.repoState)
    && (RepoKey(owner, repo) in a.repoState ==> a.repoState[RepoKey(owner, repo)] == b.repoState[RepoKey(owner, repo)])
    && forall id ::
         && (RunKey(owner, repo, id) in a.runState <==> RunKey(owner, repo, id) in b.runState)
         && (RunKey(owner, repo, id) in a.runState ==> a.runState[RunKey(owner, repo, id)] == b.runState[RunKey(owner, repo, id)])
         && JobRowsAgree(a, b, owner, repo, id)
  }

  lemma LoadStepsAgree(a: Tables, b: Tables, owner: string, repo: string, runId: int, jobId: int, faults: LoadFaults)
    requires StepRowsAgree(a, b, owner, repo, runId, jobId)
    ensures LoadStepsSpec(a, owner, repo, runId, jobId, faults) == LoadStepsSpec(b, owner, repo, runId, jobId, faults)
  {
    var x, y := LoadStepsSpec(a, owner, repo, runId, jobId, faults), LoadStepsSpec(b, owner, repo, runId, jobId, faults);
    assert x.Keys == y.Keys;
    forall n | n in x
      ensures x[n] == y[n]
    {
      assert StepRow(x[n]) == StepRow(y[n]);
    }
  }

  lemma LoadJobsAgree(a: Tables, b: Tables, owner: string, repo: string, runId: int, faults: LoadFaults)
    requires JobRowsAgree(a, b, owner, repo, runId)
    ensures LoadJobsSpec(a, owner, repo, runId, faults) == LoadJobsSpec(b, owner, repo, runId, faults)
  {
    var x, y := LoadJobsSpec(a, owner, repo, runId, faults), LoadJobsSpec(b, owner, repo, runId, faults);
    assert x.Keys == y.Keys;
    forall id | id in x
      ensures x[id] == y[id]
    {
      LoadStepsAgree(a, b, owner, repo, runId, id, faults);
      assert JobRow(x[id]) == JobRow(y[id]);
    }
  }

  /** A load reads nothing but the rows of its own (owner, repo). */
  lemma LoadAgrees(a: Tables, b: Tables, owner: string, repo: string, faults: LoadFaults, now: Instant)
    requires RepoRowsAgree(a, b, owner, repo)
    ensures LoadSpec(a, owner, repo, faults, now) == LoadSpec(b, owner, repo, faults, now)
  {
    var x, y := LoadRunsSpec(a, owner, repo, faults), LoadRunsSpec(b, owner, repo, faults);
    assert x.Keys == y.Keys;
    forall id | id in x
      ensures x[id] == y[id]
    {
      LoadJobsAgree(a, b, owner, repo, id, faults);
      assert RunRow(x[id]) == RunRow(y[id]);
    }
  }

  /** A save under (owner, repo) leaves every other (owner, repo)'s rows as they were. */
  lemma SavedKeepsOtherRepos(before: Tables, after: Tables, owner: string, repo: string, state: MonitorState,
                             otherOwner: string, otherRepo: string)
    requires Saved(before, after, owner, repo, state)
    requires otherOwner != owner || otherRepo != repo
    ensures RepoRowsAgree(after, before, otherOwner, otherRepo)
  {
    var runs := state.knownRuns;
    forall id
      ensures RunKey(otherOwner, otherRepo, id) in after.runState <==> RunKey(otherOwner, otherRepo, id) in before.runState
      ensures RunKey(otherOwner, otherRepo, id) in after.runState ==>
        after.runState[RunKey(otherOwner, otherRepo, id)] == before.runState[RunKey(otherOwner, otherRepo, id)]
      ensures JobRowsAgree(after, before, otherOwner, otherRepo, id)
    {
      assert RunRowAt(RunKey(otherOwner, otherRepo, id), owner, repo, runs, runs.Keys).None?;
      forall jid
        ensures JobKey(otherOwner, otherRepo, id, jid) in after.jobState <==> JobKey(otherOwner, otherRepo, id, jid) in before.jobState
        ensures JobKey(otherOwner, otherRepo, id, jid) in after.jobState ==>
          after.jobState[JobKey(otherOwner, otherRepo, id, jid)] == before.jobState[JobKey(otherOwner, otherRepo, id, jid)]
        ensures StepRowsAgree(after, before, otherOwner, otherRepo, id, jid)
      {
        assert JobRowAt(JobKey(otherOwner, otherRepo, id, jid), owner, repo, runs, runs.Keys).None?;
        forall n
          ensures StepKey(otherOwner, otherRepo, id, jid, n) in after.stepState <==> StepKey(otherOwner, otherRepo, id, jid, n) in before.stepState
          ensures StepKey(otherOwner, otherRepo, id, jid, n) in after.stepState ==>
            after.stepState[StepKey(otherOwner, otherRepo, id, jid, n)] == before.stepState[StepKey(otherOwner, otherRepo, id, jid, n)]
        {
          assert StepRowAt(StepKey(otherOwner, otherRepo, id, jid, n), owner, repo, runs, runs.Keys).None?;
        }
      }
    }
  }

  /** Saving under one (owner, repo) does not change what any other loads. */
  lemma SavePartition(before: Tables, after: Tables, owner: string, repo: string, state: MonitorState,
                      otherOwner: string, otherRepo: string, faults: LoadFaults, now: Instant)
    requires Saved(before, after, owner, repo, state)
    requires otherOwner != owner || otherRepo != repo
    ensures LoadSpec(after, otherOwner, otherRepo, faults, now) == LoadSpec(before, otherOwner, otherRepo, faults, now)
  {
    SavedKeepsOtherRepos(before, after, owner, repo, state, otherOwner, otherRepo);
    LoadAgrees(after, before, otherOwner, otherRepo, faults, now);
  }

  /** A save under (owner, repo) stores nothing under any other (owner, repo). */
  lemma SavedKeepsNothingStored(before: Tables, after: Tables, owner: string, repo: string, state: MonitorState,
                                otherOwner: string, otherRepo: string)
    requires Saved(before, after, owner, repo, state)
    requires NothingStored(before, otherOwner, otherRepo)
    requires otherOwner != owner || otherRepo != repo
    ensures NothingStored(after, otherOwner, otherRepo)
  {
  }

  // ---------------------------------------------------------------------------
  // Saving never deletes

  /** Every run id, job id and step name of `small` is also in `big`. */
  ghost predicate Retains(big: map<int, RunState>, small: map<int, RunState>)
  {
    forall id :: id in small ==> id in big && JobsRetained(big[id].knownJobs, small[id].knownJobs)
  }

  ghost predicate JobsRetained(big: map<int, JobState>, small: map<int, JobState>)
  {
    forall id :: id in small ==> id in big && small[id].stepStates.Keys <= big[id].stepStates.Keys
  }

  /** A save only adds keys to the run, job and step tables. */
  lemma SavedGrows(before: Tables, after: Tables, owner: string, repo: string, state: MonitorState)
    requires Saved(before, after, owner, repo, state)
    ensures before.runState.Keys <= after.runState.Keys
    ensures before.jobState.Keys <= after.jobState.Keys
    ensures before.stepState.Keys <= after.stepState.Keys
  {
  }

  lemma LoadJobsMonotone(a: Tables, b: Tables, owner: string, repo: string, runId: int, faults: LoadFaults)
    requires b.jobState.Keys <= a.jobState.Keys
    requires b.stepState.Keys <= a.stepState.Keys
    ensures JobsRetained(LoadJobsSpec(a, owner, repo, runId, faults), LoadJobsSpec(b, owner, repo, runId, faults))
  {
    var x, y := LoadJobsSpec(a, owner, repo, runId, faults), LoadJobsSpec(b, owner, repo, runId, faults);
    forall id | id in y
      ensures id in x && y[id].stepStates.Keys <= x[id].stepStates.Keys
    {
      assert JobKey(owner, repo, runId, id) in b.jobState;
      var xs, ys := LoadStepsSpec(a, owner, repo, runId, id, faults), LoadStepsSpec(b, owner, repo, runId, id, faults);
      forall n | n in ys
        ensures n in xs
      {
        assert StepKey(owner, repo, runId, id, n) in b.stepState;
      }
    }
  }

  /** With more rows, a load (with the same faults) returns at least the same ids and names. */
  lemma LoadMonotone(a: Tables, b: Tables, owner: string, repo: string, faults: LoadFaults)
    requires b.runState.Keys <= a.runState.Keys
    requires b.jobState.Keys <= a.jobState.Keys
    requires b.stepState.Keys <= a.stepState.Keys
    ensures Retains(LoadRunsSpec(a, owner, repo, faults), LoadRunsSpec(b, owner, repo, faults))
  {
    var x, y := LoadRunsSpec(a, owner, repo, faults), LoadRunsSpec(b, owner, repo, faults);
    forall id | id in y
      ensures id in x && JobsRetained(x[id].knownJobs, y[id].knownJobs)
    {
      assert RunKey(owner, repo, id) in b.runState;
      LoadJobsMonotone(a, b, owner, repo, id, faults);
    }
  }

  /**
   * No deletion: after a save, any (owner, repo) loads at least the runs, jobs
   * and steps it loaded before, including those the saved state lacks.
   */
  lemma SaveNeverDeletes(before: Tables, after: Tables, owner: string, repo: string, state: MonitorState,
                         loadOwner: string, loadRepo: string, faults: LoadFaults)
    requires Saved(before, after, owner, repo, state)
    ensures Retains(LoadRunsSpec(after, loadOwner, loadRepo, faults), LoadRunsSpec(before, loadOwner, loadRepo, faults))
  {
    SavedGrows(before, after, owner, repo, state);
    LoadMonotone(after, before, loadOwner, loadRepo, faults);
  }

  /** A run the saved state lacks loads back exactly as before the save. */
  lemma SaveKeepsUnsavedRuns(before: Tables, after: Tables, owner: string, repo: string, state: MonitorState,
                             id: int, faults: LoadFaults)
    requires Saved(before, after, owner, repo, state)
    requires id !in state.knownRuns
    ensures id in LoadRunsSpec(after, owner, repo, faults) <==> id in LoadRunsSpec(before, owner, repo, faults)
    ensures id in LoadRunsSpec(before, owner, repo, faults) ==>
      LoadRunsSpec(after, owner, repo, faults)[id] == LoadRunsSpec(before, owner, repo, faults)[id]
  {
    var runs := state.knownRuns;
    assert RunRowAt(RunKey(owner, repo, id), owner, repo, runs, runs.Keys).None?;
    forall jid
      ensures JobKey(owner, repo, id, jid) in after.jobState <==> JobKey(owner, repo, id, jid) in before.jobState
      ensures JobKey(owner, repo, id, jid) in after.jobState ==>
        after.jobState[JobKey(owner, repo, id, jid)] == before.jobState[JobKey(owner, repo, id, jid)]
      ensures StepRowsAgree(after, before, owner, repo, id, jid)
    {
      assert JobRowAt(JobKey(owner, repo, id, jid), owner, repo, runs, runs.Keys).None?;
      forall n
        ensures StepKey(owner, repo, id, jid, n) in after.stepState <==> StepKey(owner, repo, id, jid, n) in before.stepState
        ensures StepKey(owner, repo, id, jid, n) in after.stepState ==>
          after.stepState[StepKey(owner, repo, id, jid, n)] == before.stepState[StepKey(owner, repo, id, jid, n)]
      {
        assert StepRowAt(StepKey(owner, repo, id, jid, n), owner, repo, runs, runs.Keys).None?;
      }
    }
    LoadJobsAgree(after, before, owner, repo, id, faults);
  }

  // ---------------------------------------------------------------------------
  // Scenarios of StateManagerTest

  const NoTables: Tables := Tables(map[], map[], map[], map[])

  /**
   * Two repositories saved one after the other into an empty database each
   * load back exactly their own state.
   */
  lemma MultipleRepositories(t1: Tables, t2: Tables, owner1: string, repo1: string, state1: MonitorState,
                             owner2: string, repo2: string, state2: MonitorState, now: Instant)
    requires owner1 != owner2 || repo1 != repo2
    requires RunsWellKeyed(state1.knownRuns) && RunsWellKeyed(state2.knownRuns)
    requires state1.lastCheckTimestamp != MinInstant && state2.lastCheckTimestamp != MinInstant
    requires Saved(NoTables, t1, owner1, repo1, state1)
    requires Saved(t1, t2, owner2, repo2, state2)
    ensures LoadSpec(t2, owner1, repo1, NoFaults, now) == state1
    ensures LoadSpec(t2, owner2, repo2, NoFaults, now) == state2
  {
    SaveThenLoadExact(NoTables, t1, owner1, repo1, state1, now);
    SavePartition(t1, t2, owner2, repo2, state2, owner1, repo1, NoFaults, now);
    SavedKeepsNothingStored(NoTables, t1, owner1, repo1, state1, owner2, repo2);
    SaveThenLoadExact(t1, t2, owner2, repo2, state2, now);
  }

  /** Re-saving run 123 replaces its status and conclusion, and the timestamp row. */
  lemma UpdateExistingState(t0: Tables, t1: Tables, t2: Tables, ts1: Instant, ts2: Instant, now: Instant)
    requires ts2 != MinInstant
    requires Saved(t0, t1, "owner", "repo", MonitorState(ts1, map[123 := RunState(123, "in_progress", None, map[])]))
    requires Saved(t1, t2, "owner", "repo", MonitorState(ts2, map[123 := RunState(123, "completed", Some("success"), map[])]))
    ensures LoadSpec(t2, "owner", "repo", NoFaults, now).lastCheckTimestamp == ts2
    ensures 123 in LoadSpec(t2, "owner", "repo", NoFaults, now).knownRuns
    ensures LoadSpec(t2, "owner", "repo", NoFaults, now).knownRuns[123].status == "completed"
    ensures LoadSpec(t2, "owner", "repo", NoFaults, now).knownRuns[123].conclusion == Some("success")
  {
    var s2 := MonitorState(ts2, map[123 := RunState(123, "completed", Some("success"), map[])]);
    SaveThenLoad(t1, t2, "owner", "repo", s2, now);
  }
}

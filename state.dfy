/**
 * What the monitor remembers between polls (MonitorState.java, RunState.java,
 * JobState.java and the StepState record they refer to): a tree of runs, jobs
 * and steps with the status and conclusion each had when last seen.
 */
module State {
  import opened Wrappers

  /**
   * A point on the time line. The source's `ZonedDateTime`s are all in the
   * system zone, so only the instant matters; it is opaque and ordered.
   */
  type Instant = int

  /**
   * The instant of `LocalDateTime.MIN` (-999999999-01-01T00:00) in the system
   * zone, taken here as UTC: the "never checked" sentinel.
   */
  const MinInstant: Instant := -31557014135596800

  /** A step as last seen; the constructor order is (status, conclusion, stepName). */
  datatype StepState = StepState(status: string, conclusion: Option<string>, stepName: string)

  /** A job as last seen, with its steps keyed by step name. */
  datatype JobState = JobState(
    jobId: int,
    status: string,
    conclusion: Option<string>,
    stepStates: map<string, StepState>)

  /** A run as last seen, with its jobs keyed by job id. */
  datatype RunState = RunState(
    runId: int,
    status: string,
    conclusion: Option<string>,
    knownJobs: map<int, JobState>)

  /** Everything observed as of the last check, runs keyed by run id. */
  datatype MonitorState = MonitorState(lastCheckTimestamp: Instant, knownRuns: map<int, RunState>)

  /** `MonitorState.empty()`: the sentinel timestamp and no runs. */
  const Empty: MonitorState := MonitorState(MinInstant, map[])

  /** Every step is filed under its own name. */
  ghost predicate StepsWellKeyed(steps: map<string, StepState>)
  {
    forall n :: n in steps ==> steps[n].stepName == n
  }

  /** Every job is filed under its own id, and so are its steps. */
  ghost predicate JobsWellKeyed(jobs: map<int, JobState>)
  {
    forall id :: id in jobs ==> jobs[id].jobId == id && StepsWellKeyed(jobs[id].stepStates)
  }

  /** Every run is filed under its own id, and so is everything below it. */
  ghost predicate RunsWellKeyed(runs: map<int, RunState>)
  {
    forall id :: id in runs ==> runs[id].runId == id && JobsWellKeyed(runs[id].knownJobs)
  }

  /**
   * `big` holds every run, job and step of `small` with the same id, status and
   * conclusion (it may hold more, at every level).
   */
  ghost predicate Covers(big: map<int, RunState>, small: map<int, RunState>)
  {
    forall id :: id in small ==> id in big && RunCovers(big[id], small[id])
  }

  ghost predicate RunCovers(big: RunState, small: RunState)
  {
    && big.runId == small.runId
    && big.status == small.status
    && big.conclusion == small.conclusion
    && forall jid :: jid in small.knownJobs ==>
         jid in big.knownJobs && JobCovers(big.knownJobs[jid], small.knownJobs[jid])
  }

  ghost predicate JobCovers(big: JobState, small: JobState)
  {
    && big.jobId == small.jobId
    && big.status == small.status
    && big.conclusion == small.conclusion
    && forall n :: n in small.stepStates ==>
         n in big.stepStates && big.stepStates[n] == small.stepStates[n]
  }
}

/**
 * The records the provider's API is deserialised into (WorkflowRunDTO.java,
 * WorkflowJobDTO.java, StepDto.java), reduced to the fields the core reads.
 * Ids are Java `Long`s; no arithmetic is done on them, so they are `int`s here.
 * A `status` is never null (the core calls `status().equals(...)` on it); a
 * `conclusion` and a run's `head_sha` may be null.
 */
module Dto {
  import opened Wrappers

  /** One step of a job. Its number and start/end times are never read by the core. */
  datatype StepDto = StepDto(name: string, status: string, conclusion: Option<string>)

  /** One job of a run, with its steps in the order the provider lists them. */
  datatype WorkflowJobDto = WorkflowJobDto(
    id: int,
    name: string,
    status: string,
    conclusion: Option<string>,
    steps: seq<StepDto>)

  /**
   * One workflow run. `createdAt` is the run's creation instant as the ISO-8601
   * text `Instant.toString` gives for it (what `getTimestampAsInstant` yields).
   */
  datatype WorkflowRunDto = WorkflowRunDto(
    id: int,
    name: string,
    headBranch: string,
    headSha: Option<string>,
    status: string,
    conclusion: Option<string>,
    createdAt: string)

  /** One entry of a poll's fetched map: a run and the jobs fetched for it. */
  datatype RunWithJobs = RunWithJobs(run: WorkflowRunDto, jobs: seq<WorkflowJobDto>)

  /**
   * What one poll fetched. The source keeps it in a `HashMap` whose iteration
   * order is unspecified; here that order is the order of the sequence.
   */
  type Snapshot = seq<RunWithJobs>

  /** The ids of the runs a snapshot holds. */
  function RunIds(s: Snapshot): (ids: set<int>)
    ensures forall i :: 0 <= i < |s| ==> s[i].run.id in ids
    ensures forall id :: id in ids ==> exists i :: 0 <= i < |s| && s[i].run.id == id
  {
    set i | 0 <= i < |s| :: s[i].run.id
  }
}

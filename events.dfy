/**
 * Lifecycle events (EventType.java, Event.java): the seven kinds, the record,
 * the seven factories that fill it from the run, job and step records, and the
 * one-line rendering the monitor prints.
 */
module Events {
  import opened Wrappers
  import opened Dto

  datatype EventType =
    | WorkflowStarted
    | WorkflowCompleted
    | JobStarted
    | JobCompleted
    | StepStarted
    | StepCompleted
    | StepFailed
  {
    /** The enum constant's name, which is what appending the type writes. */
    function Name(): string
    {
      match this
      case WorkflowStarted => "WORKFLOW_STARTED"
      case WorkflowCompleted => "WORKFLOW_COMPLETED"
      case JobStarted => "JOB_STARTED"
      case JobCompleted => "JOB_COMPLETED"
      case StepStarted => "STEP_STARTED"
      case StepCompleted => "STEP_COMPLETED"
      case StepFailed => "STEP_FAILED"
    }
  }

  /**
   * One event. `timestamp` is the run's creation instant as ISO-8601 text;
   * `jobName`, `stepName`, `conclusion` and `commitSha` may be null.
   */
  datatype Event = Event(
    eventType: EventType,
    timestamp: string,
    workflowName: string,
    jobName: Option<string>,
    stepName: Option<string>,
    status: string,
    conclusion: Option<string>,
    branch: string,
    commitSha: Option<string>)

  /** The fields every factory takes from the run. */
  ghost predicate FromRun(e: Event, run: WorkflowRunDto)
  {
    && e.timestamp == run.createdAt
    && e.workflowName == run.name
    && e.branch == run.headBranch
    && e.commitSha == run.headSha
  }

  function WorkflowStartedEvent(run: WorkflowRunDto): (e: Event)
    ensures e.eventType == WorkflowStarted && FromRun(e, run)
    ensures e.jobName == None && e.stepName == None
    ensures e.status == run.status && e.conclusion == run.conclusion
  {
    Event(WorkflowStarted, run.createdAt, run.name, None, None,
          run.status, run.conclusion, run.headBranch, run.headSha)
  }

  function WorkflowCompletedEvent(run: WorkflowRunDto): (e: Event)
    ensures e.eventType == WorkflowCompleted && FromRun(e, run)
    ensures e.jobName == None && e.stepName == None
    ensures e.status == run.status && e.conclusion == run.conclusion
  {
    Event(WorkflowCompleted, run.createdAt, run.name, None, None,
          run.status, run.conclusion, run.headBranch, run.headSha)
  }

  function JobStartedEvent(run: WorkflowRunDto, job: WorkflowJobDto): (e: Event)
    ensures e.eventType == JobStarted && FromRun(e, run)
    ensures e.jobName == Some(job.name) && e.stepName == None
    ensures e.status == job.status && e.conclusion == job.conclusion
  {
    Event(JobStarted, run.createdAt, run.name, Some(job.name), None,
          job.status, job.conclusion, run.headBranch, run.headSha)
  }

  function JobCompletedEvent(run: WorkflowRunDto, job: WorkflowJobDto): (e: Event)
    ensures e.eventType == JobCompleted && FromRun(e, run)
    ensures e.jobName == Some(job.name) && e.stepName == None
    ensures e.status == job.status && e.conclusion == job.conclusion
  {
    Event(JobCompleted, run.createdAt, run.name, Some(job.name), None,
          job.status, job.conclusion, run.headBranch, run.headSha)
  }

  function StepStartedEvent(run: WorkflowRunDto, job: WorkflowJobDto, step: StepDto): (e: Event)
    ensures e.eventType == StepStarted && FromRun(e, run)
    ensures e.jobName == Some(job.name) && e.stepName == Some(step.name)
    ensures e.status == step.status && e.conclusion == step.conclusion
  {
    Event(StepStarted, run.createdAt, run.name, Some(job.name), Some(step.name),
          step.status, step.conclusion, run.headBranch, run.headSha)
  }

  function StepCompletedEvent(run: WorkflowRunDto, job: WorkflowJobDto, step: StepDto): (e: Event)
    ensures e.eventType == StepCompleted && FromRun(e, run)
    ensures e.jobName == Some(job.name) && e.stepName == Some(step.name)
    ensures e.status == step.status && e.conclusion == step.conclusion
  {
    Event(StepCompleted, run.createdAt, run.name, Some(job.name), Some(step.name),
          step.status, step.conclusion, run.headBranch, run.headSha)
  }

  function StepFailedEvent(run: WorkflowRunDto, job: WorkflowJobDto, step: StepDto): (e: Event)
    ensures e.eventType == StepFailed && FromRun(e, run)
    ensures e.jobName == Some(job.name) && e.stepName == Some(step.name)
    ensures e.status == step.status && e.conclusion == step.conclusion
  {
    Event(StepFailed, run.createdAt, run.name, Some(job.name), Some(step.name),
          step.status, step.conclusion, run.headBranch, run.headSha)
  }

  /** `commitSha.substring(0, Math.min(7, commitSha.length()))`. */
  function ShortSha(sha: string): (r: string)
    ensures |r| <= 7 && r <= sha
    ensures |sha| <= 7 ==> r == sha
    ensures |sha| >= 7 ==> |r| == 7
  {
    if |sha| < 7 then sha else sha[..7]
  }

  /** `" / " + name` when the name is present, nothing when it is null. */
  function PathSegment(name: Option<string>): string
  {
    if name.Some? then " / " + name.value else ""
  }

  /** `" (" + conclusion + ")"` when the conclusion is present, nothing when it is null. */
  function ConclusionSegment(conclusion: Option<string>): string
  {
    if conclusion.Some? then " (" + conclusion.value + ")" else ""
  }

  /** What every line starts with: `[timestamp] TYPE - workflow`. */
  function Header(e: Event): string
  {
    "[" + e.timestamp + "] " + e.eventType.Name() + " - " + e.workflowName
  }

  /** ` - status`, then the conclusion segment. */
  function StatusSegment(e: Event): string
  {
    " - " + e.status + ConclusionSegment(e.conclusion)
  }

  /** What every line ends with: ` - branch@` and the shortened commit SHA. */
  function Tail(branch: string, sha: string): string
  {
    " - " + branch + "@" + ShortSha(sha)
  }

  /**
   * `toFormattedString`: the segments appended in order. Appending a null
   * `commitSha` throws a NullPointerException, which is `None` here.
   */
  function ToFormattedString(e: Event): (line: Option<string>)
    ensures line.Some? <==> e.commitSha.Some?
  {
    match e.commitSha
    case None => None
    case Some(sha) =>
      Some(Header(e) + PathSegment(e.jobName) + PathSegment(e.stepName)
           + StatusSegment(e) + Tail(e.branch, sha))
  }

  /** `sub` occurs somewhere in `s`. */
  ghost predicate Contains(s: string, sub: string)
  {
    exists i :: 0 <= i <= |s| && sub <= s[i..]
  }

  lemma ContainsSelf(s: string)
    ensures Contains(s, s)
  {
    assert s[0..] == s;
  }

  lemma ContainsLeft(a: string, b: string, sub: string)
    requires Contains(a, sub)
    ensures Contains(a + b, sub)
  {
    var i :| 0 <= i <= |a| && sub <= a[i..];
    assert (a + b)[i..] == a[i..] + b;
  }

  lemma ContainsRight(a: string, b: string, sub: string)
    requires Contains(b, sub)
    ensures Contains(a + b, sub)
  {
    var i :| 0 <= i <= |b| && sub <= b[i..];
    assert (a + b)[|a| + i..] == b[i..];
  }

  lemma PrefixOf(p: string, q: string)
    ensures p <= p + q
  {
    assert (p + q)[..|p|] == p;
  }

  lemma PrefixTrans(p: string, q: string, r: string)
    requires p <= q && q <= r
    ensures p <= r
  {
  }

  /**
   * The line starts with `[timestamp] TYPE - workflow`, goes on with
   * ` / job` when the job name is non-null, then ` / step` when the step name
   * is non-null (so the job comes first), then ` - status`, and ends with
   * ` - branch@` followed by the shortened commit SHA.
   */
  lemma {:induction false} FormattedLayout(e: Event)
    requires e.commitSha.Some?
    ensures var line := ToFormattedString(e).value;
      && Header(e) <= line
      && (e.jobName.Some? ==> Header(e) + " / " + e.jobName.value <= line)
      && (e.jobName.None? && e.stepName.Some? ==> Header(e) + " / " + e.stepName.value <= line)
      && (e.jobName.Some? && e.stepName.Some? ==>
            Header(e) + " / " + e.jobName.value + " / " + e.stepName.value <= line)
      && (e.jobName.None? && e.stepName.None? ==> Header(e) + " - " + e.status <= line)
      && |Tail(e.branch, e.commitSha.value)| <= |line|
      && line[|line| - |Tail(e.branch, e.commitSha.value)|..] == Tail(e.branch, e.commitSha.value)
  {
    var sha := e.commitSha.value;
    var line := ToFormattedString(e).value;
    var h := Header(e);
    var hj := h + PathSegment(e.jobName);
    var hjs := hj + PathSegment(e.stepName);
    var body := hjs + StatusSegment(e);
    assert line == body + Tail(e.branch, sha);
    assert line[|body|..] == Tail(e.branch, sha);
    PrefixOf(body, Tail(e.branch, sha));
    PrefixOf(hjs, StatusSegment(e));
    PrefixOf(hj, PathSegment(e.stepName));
    PrefixOf(h, PathSegment(e.jobName));
    if e.jobName.Some? {
      assert hj == h + " / " + e.jobName.value;
      if e.stepName.Some? {
        assert hjs == h + " / " + e.jobName.value + " / " + e.stepName.value;
      }
    } else if e.stepName.Some? {
      assert hjs == h + " / " + e.stepName.value;
    } else {
      assert hjs == h;
      assert StatusSegment(e) == " - " + e.status + ConclusionSegment(e.conclusion);
      PrefixOf(" - " + e.status, ConclusionSegment(e.conclusion));
      assert h + " - " + e.status <= body;
    }
  }

  /**
   * The line names the event's type, its workflow and its status, and its job,
   * step and conclusion whenever those are non-null.
   */
  lemma {:induction false} FormattedMentions(e: Event)
    requires e.commitSha.Some?
    ensures var line := ToFormattedString(e).value;
      && Contains(line, e.eventType.Name())
      && Contains(line, e.workflowName)
      && Contains(line, " - " + e.status)
      && (e.jobName.Some? ==> Contains(line, " / " + e.jobName.value))
      && (e.stepName.Some? ==> Contains(line, " / " + e.stepName.value))
      && (e.conclusion.Some? ==> Contains(line, " (" + e.conclusion.value + ")"))
  {
    var sha := e.commitSha.value;
    var line := ToFormattedString(e).value;
    var tail := Tail(e.branch, sha);
    var h := Header(e);
    var hj := h + PathSegment(e.jobName);
    var hjs := hj + PathSegment(e.stepName);
    var body := hjs + StatusSegment(e);
    assert line == body + tail;
    // the header
    var name := e.eventType.Name();
    var open := "[" + e.timestamp + "] ";
    assert h == open + name + " - " + e.workflowName;
    ContainsSelf(name);
    ContainsRight(open, name, name);
    ContainsLeft(open + name, " - ", name);
    ContainsLeft(open + name + " - ", e.workflowName, name);
    ContainsSelf(e.workflowName);
    ContainsRight(open + name + " - ", e.workflowName, e.workflowName);
    HeaderReaches(h, hj, hjs, body, line, tail, e, name);
    HeaderReaches(h, hj, hjs, body, line, tail, e, e.workflowName);
    // the status segment
    ContainsSelf(" - " + e.status);
    ContainsLeft(" - " + e.status, ConclusionSegment(e.conclusion), " - " + e.status);
    ContainsRight(hjs, StatusSegment(e), " - " + e.status);
    ContainsLeft(body, tail, " - " + e.status);
    if e.jobName.Some? {
      ContainsSelf(PathSegment(e.jobName));
      ContainsRight(h, PathSegment(e.jobName), PathSegment(e.jobName));
      ContainsLeft(hj, PathSegment(e.stepName), PathSegment(e.jobName));
      ContainsLeft(hjs, StatusSegment(e), PathSegment(e.jobName));
      ContainsLeft(body, tail, PathSegment(e.jobName));
    }
    if e.stepName.Some? {
      ContainsSelf(PathSegment(e.stepName));
      ContainsRight(hj, PathSegment(e.stepName), PathSegment(e.stepName));
      ContainsLeft(hjs, StatusSegment(e), PathSegment(e.stepName));
      ContainsLeft(body, tail, PathSegment(e.stepName));
    }
    if e.conclusion.Some? {
      var c := ConclusionSegment(e.conclusion);
      ContainsSelf(c);
      ContainsRight(" - " + e.status, c, c);
      ContainsRight(hjs, StatusSegment(e), c);
      ContainsLeft(body, tail, c);
    }
  }

  lemma HeaderReaches(h: string, hj: string, hjs: string, body: string, line: string,
                      tail: string, e: Event, sub: string)
    requires Contains(h, sub)
    requires hj == h + PathSegment(e.jobName) && hjs == hj + PathSegment(e.stepName)
    requires body == hjs + StatusSegment(e) && line == body + tail
    ensures Contains(line, sub)
  {
    ContainsLeft(h, PathSegment(e.jobName), sub);
    ContainsLeft(hj, PathSegment(e.stepName), sub);
    ContainsLeft(hjs, StatusSegment(e), sub);
    ContainsLeft(body, tail, sub);
  }

  /**
   * Each factory sets its own event type, and the line it formats to names
   * that type, the workflow, and the job and step it was made from.
   */
  lemma {:induction false} FactoryLines(run: WorkflowRunDto, job: WorkflowJobDto, step: StepDto)
    requires run.headSha.Some?
    ensures var w := WorkflowStartedEvent(run);
      w.eventType == WorkflowStarted && ToFormattedString(w).Some?
      && Contains(ToFormattedString(w).value, "WORKFLOW_STARTED")
      && Contains(ToFormattedString(w).value, run.name)
    ensures var w := WorkflowCompletedEvent(run);
      w.eventType == WorkflowCompleted && ToFormattedString(w).Some?
      && Contains(ToFormattedString(w).value, "WORKFLOW_COMPLETED")
      && Contains(ToFormattedString(w).value, run.name)
    ensures var j := JobStartedEvent(run, job);
      j.eventType == JobStarted && ToFormattedString(j).Some?
      && Contains(ToFormattedString(j).value, "JOB_STARTED")
      && Contains(ToFormattedString(j).value, " / " + job.name)
    ensures var j := JobCompletedEvent(run, job);
      j.eventType == JobCompleted && ToFormattedString(j).Some?
      && Contains(ToFormattedString(j).value, "JOB_COMPLETED")
      && Contains(ToFormattedString(j).value, " / " + job.name)
    ensures var s := StepStartedEvent(run, job, step);
      s.eventType == StepStarted && ToFormattedString(s).Some?
      && Contains(ToFormattedString(s).value, "STEP_STARTED")
      && Contains(ToFormattedString(s).value, " / " + step.name)
    ensures var s := StepCompletedEvent(run, job, step);
      s.eventType == StepCompleted && ToFormattedString(s).Some?
      && Contains(ToFormattedString(s).value, "STEP_COMPLETED")
      && Contains(ToFormattedString(s).value, " / " + step.name)
    ensures var s := StepFailedEvent(run, job, step);
      s.eventType == StepFailed && ToFormattedString(s).Some?
      && Contains(ToFormattedString(s).value, "STEP_FAILED")
      && Contains(ToFormattedString(s).value, " / " + step.name)
  {
    FormattedMentions(WorkflowStartedEvent(run));
    FormattedMentions(WorkflowCompletedEvent(run));
    FormattedMentions(JobStartedEvent(run, job));
    FormattedMentions(JobCompletedEvent(run, job));
    FormattedMentions(StepStartedEvent(run, job, step));
    FormattedMentions(StepCompletedEvent(run, job, step));
    FormattedMentions(StepFailedEvent(run, job, step));
  }
}

/**
 * The poll cycle (WorkflowMonitor.java): the merge of a fetched snapshot into
 * the known state (`buildMonitorState`), the display of detected events, and
 * the monitor itself, a small state machine over the watermark `lastDateTime`,
 * the flag `isRunning` and the state carried from one poll to the next.
 *
 * The provider is not modelled: what a fetch returns is an input, and the
 * `since` instant each fetch is made with is recorded in `requests`.
 * An exception that escapes the loop (a duplicate job id in one run, an event
 * without a commit SHA) is a `false` result that ends the monitor.
 */
module Monitor {
  import opened Wrappers
  import opened Dto
  import opened State
  import opened Events
  import opened Detector
  import opened Persistence
  import opened StoreProperties

  // ---------------------------------------------------------------------------
  // buildMonitorState

  function StepStateOf(step: StepDto): StepState
  {
    StepState(step.status, step.conclusion, step.name)
  }

  /**
   * The step map of a fetched job: one `put` per step in list order, so that
   * of two steps with the same name the later one is kept.
   */
  function StepsMap(steps: seq<StepDto>): (m: map<string, StepState>)
    ensures StepsWellKeyed(m)
    decreases |steps|
  {
    if steps == [] then map[]
    else
      var last := steps[|steps| - 1];
      StepsMap(steps[..|steps| - 1])[last.name := StepStateOf(last)]
  }

  /** The step map holds exactly the names of the steps. */
  lemma {:induction false} StepsMapKeys(steps: seq<StepDto>)
    ensures forall n :: n in StepsMap(steps) <==> exists i :: 0 <= i < |steps| && steps[i].name == n
    decreases |steps|
  {
    if steps != [] {
      var prefix := steps[..|steps| - 1];
      StepsMapKeys(prefix);
      forall n | n in StepsMap(steps)
        ensures exists i :: 0 <= i < |steps| && steps[i].name == n
      {
        if n != steps[|steps| - 1].name {
          assert n in StepsMap(prefix);
          var i :| 0 <= i < |prefix| && prefix[i].name == n;
          assert steps[i].name == n;
        }
      }
    }
  }

  /** A step whose name no later step repeats is the one the map keeps. */
  lemma {:induction false} StepsMapLast(steps: seq<StepDto>, i: int)
    requires 0 <= i < |steps|
    requires forall j :: i < j < |steps| ==> steps[j].name != steps[i].name
    ensures steps[i].name in StepsMap(steps)
    ensures StepsMap(steps)[steps[i].name] == StepStateOf(steps[i])
    decreases |steps|
  {
    if i < |steps| - 1 {
      var prefix := steps[..|steps| - 1];
      assert prefix[i] == steps[i];
      StepsMapLast(prefix, i);
    }
  }

  /** No two jobs of the list share an id. */
  predicate DistinctJobIds(jobs: seq<WorkflowJobDto>)
  {
    forall i, j :: 0 <= i < j < |jobs| ==> jobs[i].id != jobs[j].id
  }

  function JobStateOf(job: WorkflowJobDto): JobState
  {
    JobState(job.id, job.status, job.conclusion, StepsMap(job.steps))
  }

  /**
   * The job map of a fetched run (`Collectors.toMap` by job id). A repeated
   * id makes `toMap` throw, which is `None` here.
   */
  function JobsMap(jobs: seq<WorkflowJobDto>): (r: Option<map<int, JobState>>)
    ensures r.Some? ==> JobsWellKeyed(r.value)
    decreases |jobs|
  {
    if jobs == [] then Some(map[])
    else
      var last := jobs[|jobs| - 1];
      match JobsMap(jobs[..|jobs| - 1])
      case None => None
      case Some(m) => if last.id in m then None else Some(m[last.id := JobStateOf(last)])
  }

  /** `toMap` succeeds exactly when the ids are distinct. */
  lemma {:induction false} JobsMapSome(jobs: seq<WorkflowJobDto>)
    ensures JobsMap(jobs).Some? <==> DistinctJobIds(jobs)
    decreases |jobs|
  {
    if jobs != [] {
      var prefix := jobs[..|jobs| - 1];
      var last := jobs[|jobs| - 1];
      JobsMapSome(prefix);
      if JobsMap(prefix).Some? {
        var m := JobsMap(prefix).value;
        JobsMapContents(prefix);
        if last.id in m {
          var i :| 0 <= i < |prefix| && prefix[i].id == last.id;
          assert jobs[i].id == jobs[|jobs| - 1].id;
        } else {
          forall i, j | 0 <= i < j < |jobs|
            ensures jobs[i].id != jobs[j].id
          {
            if j < |jobs| - 1 {
              assert prefix[i] == jobs[i] && prefix[j] == jobs[j];
            } else {
              assert prefix[i].id in m;
            }
          }
        }
      } else {
        var i, j :| 0 <= i < j < |prefix| && prefix[i].id == prefix[j].id;
        assert jobs[i].id == jobs[j].id;
      }
    }
  }

  /** When `toMap` succeeds, it maps exactly the jobs' ids, each to that job's state. */
  lemma {:induction false} JobsMapContents(jobs: seq<WorkflowJobDto>)
    requires JobsMap(jobs).Some?
    ensures forall id :: id in JobsMap(jobs).value <==> exists i :: 0 <= i < |jobs| && jobs[i].id == id
    ensures forall i :: 0 <= i < |jobs| ==> JobsMap(jobs).value[jobs[i].id] == JobStateOf(jobs[i])
    decreases |jobs|
  {
    if jobs != [] {
      var prefix := jobs[..|jobs| - 1];
      var last := jobs[|jobs| - 1];
      JobsMapContents(prefix);
      var r := JobsMap(jobs).value;
      forall id | id in r
        ensures exists i :: 0 <= i < |jobs| && jobs[i].id == id
      {
        if id != last.id {
          var i :| 0 <= i < |prefix| && prefix[i].id == id;
          assert jobs[i].id == id;
        }
      }
      forall i | 0 <= i < |jobs|
        ensures r[jobs[i].id] == JobStateOf(jobs[i])
      {
        if i < |jobs| - 1 {
          assert prefix[i] == jobs[i];
        }
      }
    }
  }

  /** Every run of the snapshot has distinct job ids. */
  predicate JobIdsDistinct(s: Snapshot)
  {
    forall i :: 0 <= i < |s| ==> DistinctJobIds(s[i].jobs)
  }

  /** No later entry of the snapshot has the run id of entry `i`. */
  predicate LastOfItsId(s: Snapshot, i: int)
    requires 0 <= i < |s|
  {
    forall j :: i < j < |s| ==> s[j].run.id != s[i].run.id
  }

  /** The state a fetched run is recorded with, given its job map. */
  function RunStateOf(run: WorkflowRunDto, jobs: map<int, JobState>): RunState
  {
    RunState(run.id, run.status, run.conclusion, jobs)
  }

  /**
   * The run map after the loop of `buildMonitorState`: the known runs, then one
   * `put` per snapshot entry in order, each with the entry's job map rebuilt
   * from the fetched jobs alone.
   */
  function MergeRuns(s: Snapshot, known: map<int, RunState>): (r: Option<map<int, RunState>>)
    ensures r.Some? && RunsWellKeyed(known) ==> RunsWellKeyed(r.value)
    decreases |s|
  {
    if s == [] then Some(known)
    else
      var last := s[|s| - 1];
      match MergeRuns(s[..|s| - 1], known)
      case None => None
      case Some(m) =>
        match JobsMap(last.jobs)
        case None => None
        case Some(jobs) => Some(m[last.run.id := RunStateOf(last.run, jobs)])
  }

  /** The merge fails exactly when some fetched run repeats a job id. */
  lemma {:induction false} MergeRunsSome(s: Snapshot, known: map<int, RunState>)
    ensures MergeRuns(s, known).Some? <==> JobIdsDistinct(s)
    decreases |s|
  {
    if s != [] {
      var prefix := s[..|s| - 1];
      MergeRunsSome(prefix, known);
      JobsMapSome(s[|s| - 1].jobs);
      if JobIdsDistinct(s) {
        assert JobIdsDistinct(prefix) by {
          forall i | 0 <= i < |prefix|
            ensures DistinctJobIds(prefix[i].jobs)
          {
            assert prefix[i] == s[i];
          }
        }
      } else if JobIdsDistinct(prefix) {
        assert !DistinctJobIds(s[|s| - 1].jobs) by {
          var i :| 0 <= i < |s| && !DistinctJobIds(s[i].jobs);
          if i < |s| - 1 {
            assert prefix[i] == s[i];
          }
        }
      }
    }
  }

  /** The run ids of a snapshot are those of all but its last entry, and the last entry's. */
  lemma RunIdsSnoc(s: Snapshot)
    requires s != []
    ensures RunIds(s) == RunIds(s[..|s| - 1]) + {s[|s| - 1].run.id}
  {
    var prefix := s[..|s| - 1];
    forall id | id in RunIds(s)
      ensures id in RunIds(prefix) + {s[|s| - 1].run.id}
    {
      var i :| 0 <= i < |s| && s[i].run.id == id;
      if i < |s| - 1 {
        assert prefix[i].run.id == id;
      }
    }
    forall id | id in RunIds(prefix)
      ensures id in RunIds(s)
    {
      var i :| 0 <= i < |prefix| && prefix[i].run.id == id;
      assert s[i].run.id == id;
    }
  }

  /**
   * A merged run map holds the known runs and the fetched ones; a known run
   * that was not fetched is kept as it was.
   */
  lemma {:induction false} MergeRunsKeys(s: Snapshot, known: map<int, RunState>)
    requires MergeRuns(s, known).Some?
    ensures forall id :: id in MergeRuns(s, known).value <==> id in known || id in RunIds(s)
    ensures forall id :: id in known && id !in RunIds(s) ==> MergeRuns(s, known).value[id] == known[id]
    decreases |s|
  {
    if s != [] {
      var prefix := s[..|s| - 1];
      MergeRunsKeys(prefix, known);
      RunIdsSnoc(s);
    }
  }

  /** A fetched run that no later entry repeats is recorded from that entry. */
  lemma {:induction false} MergeRunsAt(s: Snapshot, known: map<int, RunState>, i: int)
    requires MergeRuns(s, known).Some?
    requires 0 <= i < |s| && LastOfItsId(s, i)
    ensures s[i].run.id in MergeRuns(s, known).value
    ensures JobsMap(s[i].jobs).Some?
    ensures MergeRuns(s, known).value[s[i].run.id] == RunStateOf(s[i].run, JobsMap(s[i].jobs).value)
    decreases |s|
  {
    var prefix := s[..|s| - 1];
    if i < |s| - 1 {
      assert prefix[i] == s[i];
      MergeRunsAt(prefix, known, i);
    }
  }

  /** `buildMonitorState(runsWithJobs, datetime, knownRuns)`; `None` when it throws. */
  function Merge(s: Snapshot, datetime: Instant, known: map<int, RunState>): (r: Option<MonitorState>)
    ensures r.Some? ==> r.value.lastCheckTimestamp == datetime
    ensures r.Some? && RunsWellKeyed(known) ==> RunsWellKeyed(r.value.knownRuns)
  {
    match MergeRuns(s, known)
    case None => None
    case Some(runs) => Some(MonitorState(datetime, runs))
  }

  // ---------------------------------------------------------------------------
  // buildMonitorState as the source runs it

  /** The `put` loop that builds a fetched job's step map. */
  method CollectSteps(steps: seq<StepDto>) returns (m: map<string, StepState>)
    ensures m == StepsMap(steps)
  {
    m := map[];
    var i := 0;
    while i < |steps|
      invariant 0 <= i <= |steps|
      invariant m == StepsMap(steps[..i])
    {
      assert steps[..i + 1][..i] == steps[..i];
      m := m[steps[i].name := StepStateOf(steps[i])];
      i := i + 1;
    }
    assert steps[..i] == steps;
  }

  /** The job map of a fetched run, collected job by job; `None` at the first repeated id. */
  method CollectJobs(jobs: seq<WorkflowJobDto>) returns (r: Option<map<int, JobState>>)
    ensures r == JobsMap(jobs)
  {
    var m := map[];
    var i := 0;
    while i < |jobs|
      invariant 0 <= i <= |jobs|
      invariant JobsMap(jobs[..i]) == Some(m)
    {
      var job := jobs[i];
      if job.id in m {
        JobsMapContents(jobs[..i]);
        var k :| 0 <= k < i && jobs[..i][k].id == job.id;
        assert jobs[k].id == jobs[i].id;
        JobsMapSome(jobs);
        return None;
      }
      var steps := CollectSteps(job.steps);
      assert jobs[..i + 1][..i] == jobs[..i];
      m := m[job.id := JobState(job.id, job.status, job.conclusion, steps)];
      i := i + 1;
    }
    assert jobs[..i] == jobs;
    r := Some(m);
  }

  /** `buildMonitorState`: a copy of the known runs, then one `put` per fetched run. */
  method BuildMonitorState(s: Snapshot, datetime: Instant, knownRuns: map<int, RunState>)
    returns (r: Option<MonitorState>)
    ensures r == Merge(s, datetime, knownRuns)
  {
    var runs := knownRuns;
    var i := 0;
    while i < |s|
      invariant 0 <= i <= |s|
      invariant MergeRuns(s[..i], knownRuns) == Some(runs)
    {
      var run := s[i].run;
      var jobs := CollectJobs(s[i].jobs);
      if jobs.None? {
        JobsMapSome(s[i].jobs);
        MergeRunsSome(s, knownRuns);
        return None;
      }
      assert s[..i + 1][..i] == s[..i];
      runs := runs[run.id := RunStateOf(run, jobs.value)];
      i := i + 1;
    }
    assert s[..i] == s;
    r := Some(MonitorState(datetime, runs));
  }

  // ---------------------------------------------------------------------------
  // Detection against the merged state

  /** No two entries of the snapshot have the same run id. */
  predicate DistinctRunIds(s: Snapshot)
  {
    forall i, j :: 0 <= i < j < |s| ==> s[i].run.id != s[j].run.id
  }

  /** No two steps of the list have the same name. */
  predicate DistinctStepNames(steps: seq<StepDto>)
  {
    forall i, j :: 0 <= i < j < |steps| ==> steps[i].name != steps[j].name
  }

  /** Within every fetched job, step names are distinct. */
  predicate StepNamesDistinct(s: Snapshot)
  {
    forall i, k :: 0 <= i < |s| && 0 <= k < |s[i].jobs| ==> DistinctStepNames(s[i].jobs[k].steps)
  }

  /** A fold of empty lists is empty. */
  lemma {:induction false} ConcatOfEmpty<T>(list: seq<T>, f: T -> seq<Event>)
    requires forall i :: 0 <= i < |list| ==> f(list[i]) == []
    ensures Concat(list, f) == []
    decreases |list|
  {
    if list != [] {
      var prefix := list[..|list| - 1];
      assert forall i :: 0 <= i < |prefix| ==> prefix[i] == list[i];
      ConcatOfEmpty(prefix, f);
    }
  }

  /** The steps of a job, detected against the step map built from them, give nothing. */
  lemma StepsQuietAfterMerge(run: WorkflowRunDto, job: WorkflowJobDto)
    requires DistinctStepNames(job.steps)
    ensures StepsEvents(run, job, job.steps, StepsMap(job.steps)) == []
  {
    var prior := StepsMap(job.steps);
    forall k | 0 <= k < |job.steps|
      ensures StepEvents(run, job, job.steps[k], prior) == []
    {
      StepsMapLast(job.steps, k);
    }
    ConcatOfEmpty(job.steps, step => StepEvents(run, job, step, prior));
  }

  /** The jobs of a run, detected against the job map built from them, give nothing. */
  lemma JobsQuietAfterMerge(run: WorkflowRunDto, jobs: seq<WorkflowJobDto>)
    requires JobsMap(jobs).Some?
    requires forall k :: 0 <= k < |jobs| ==> DistinctStepNames(jobs[k].steps)
    ensures JobsEvents(run, jobs, JobsMap(jobs).value) == []
  {
    var prior := JobsMap(jobs).value;
    JobsMapContents(jobs);
    forall k | 0 <= k < |jobs|
      ensures JobBlock(run, jobs[k], prior) == []
    {
      StepsQuietAfterMerge(run, jobs[k]);
    }
    ConcatOfEmpty(jobs, job => JobBlock(run, job, prior));
  }

  /**
   * Detecting a snapshot against the state merged from that same snapshot
   * gives no event: every run, job and step is found with its current status.
   */
  lemma DetectAfterMerge(s: Snapshot, datetime: Instant, known: map<int, RunState>)
    requires DistinctRunIds(s) && JobIdsDistinct(s) && StepNamesDistinct(s)
    ensures Merge(s, datetime, known).Some?
    ensures Detect(s, Merge(s, datetime, known).value) == []
  {
    MergeRunsSome(s, known);
    var merged := Merge(s, datetime, known).value;
    forall i | 0 <= i < |s|
      ensures RunBlock(s[i], merged.knownRuns) == []
    {
      MergeRunsAt(s, known, i);
      JobsMapSome(s[i].jobs);
      JobsQuietAfterMerge(s[i].run, s[i].jobs);
    }
    ConcatOfEmpty(s, entry => RunBlock(entry, merged.knownRuns));
  }

  // ---------------------------------------------------------------------------
  // processAndDisplayEvents

  /** The line printed when a poll detects nothing (in gray, which is not modelled). */
  const NoEventsLine: string := "No new events detected."

  /**
   * The lines `println(event.toFormattedString())` prints for `events`, in
   * order, up to the first event whose formatting throws.
   */
  function Lines(events: seq<Event>): (lines: seq<string>)
    ensures |lines| <= |events|
    decreases |events|
  {
    if events == [] then []
    else
      match ToFormattedString(events[0])
      case None => []
      case Some(line) => [line] + Lines(events[1..])
  }

  /** Every event carries a commit SHA, so every one of them can be formatted. */
  predicate Printable(events: seq<Event>)
  {
    forall i :: 0 <= i < |events| ==> events[i].commitSha.Some?
  }

  /**
   * The printed lines are the formatted events in order; they stop short
   * exactly at the first event that cannot be formatted.
   */
  lemma {:induction false} LinesSpec(events: seq<Event>)
    ensures forall i :: 0 <= i < |Lines(events)| ==> ToFormattedString(events[i]) == Some(Lines(events)[i])
    ensures |Lines(events)| < |events| ==> ToFormattedString(events[|Lines(events)|]).None?
    ensures |Lines(events)| == |events| <==> Printable(events)
    decreases |events|
  {
    if events != [] && ToFormattedString(events[0]).Some? {
      var rest := events[1..];
      LinesSpec(rest);
      assert forall i :: 0 <= i < |rest| ==> rest[i] == events[i + 1];
      if Printable(events) {
        assert Printable(rest);
      }
    }
  }

  /** What a poll prints: the one "nothing" line, or the lines of the events. */
  function Displayed(events: seq<Event>): (lines: seq<string>)
    ensures events == [] ==> lines == [NoEventsLine]
    ensures events != [] ==> |lines| <= |events|
  {
    if events == [] then [NoEventsLine] else Lines(events)
  }

  /** With every event printable, one line per event, each that event's formatted line. */
  lemma DisplayedAll(events: seq<Event>)
    requires events != [] && Printable(events)
    ensures |Displayed(events)| == |events|
    ensures forall i :: 0 <= i < |events| ==> ToFormattedString(events[i]) == Some(Displayed(events)[i])
  {
    LinesSpec(events);
  }

  // ---------------------------------------------------------------------------
  // The monitor

  /**
   * The `since` instants of the fetches of successive polls made from the
   * watermark `start`: each poll fetches since the previous poll's clock.
   */
  function Requests(start: Instant, polls: seq<Poll>): (r: seq<Instant>)
    ensures |r| == |polls|
    decreases |polls|
  {
    if polls == [] then [] else [start] + Requests(polls[0].now, polls[1..])
  }

  /** The watermark after the polls made from `start`. */
  function Watermark(start: Instant, polls: seq<Poll>): Instant
  {
    if polls == [] then start else polls[|polls| - 1].now
  }

  /** The first fetch is since `start`, each later one since the clock of the poll before it. */
  lemma {:induction false} RequestsAt(start: Instant, polls: seq<Poll>)
    ensures polls != [] ==> Requests(start, polls)[0] == start
    ensures forall k :: 0 < k < |polls| ==> Requests(start, polls)[k] == polls[k - 1].now
    decreases |polls|
  {
    if polls != [] {
      var rest := polls[1..];
      RequestsAt(polls[0].now, rest);
      forall k | 1 < k < |polls|
        ensures Requests(start, polls)[k] == polls[k - 1].now
      {
        assert rest[k - 2] == polls[k - 1];
      }
    }
  }

  /** One more poll adds one fetch, since the watermark the earlier polls left. */
  lemma {:induction false} RequestsSnoc(start: Instant, polls: seq<Poll>, p: Poll)
    ensures Requests(start, polls + [p]) == Requests(start, polls) + [Watermark(start, polls)]
    decreases |polls|
  {
    if polls != [] {
      assert (polls + [p])[1..] == polls[1..] + [p];
      RequestsSnoc(polls[0].now, polls[1..], p);
      if |polls| > 1 {
        assert polls[1..][|polls| - 2] == polls[|polls| - 1];
      }
    }
  }

  /** The inputs of one loop iteration: what the fetch returns, the clock, whether the sleep is interrupted. */
  datatype Poll = Poll(fetched: Snapshot, now: Instant, interrupted: bool)

  /**
   * The state one poll carries on with from `s`: the fetched runs merged at
   * the poll's clock, or `None` when an exception escapes the poll (an event
   * that cannot be formatted, or a job id seen twice).
   */
  function PollResult(s: MonitorState, p: Poll): Option<MonitorState>
  {
    if Printable(Detect(p.fetched, s)) then Merge(p.fetched, p.now, s.knownRuns) else None
  }

  /** A poll succeeds exactly when every event is printable and no job id repeats, and then carries on with the merge. */
  lemma PollSucceeds(s: MonitorState, p: Poll)
    ensures PollResult(s, p).Some? <==> Printable(Detect(p.fetched, s)) && JobIdsDistinct(p.fetched)
    ensures PollResult(s, p).Some? ==> PollResult(s, p) == Merge(p.fetched, p.now, s.knownRuns)
  {
    MergeRunsSome(p.fetched, s.knownRuns);
  }

  /**
   * The state carried through the polls made from `s`, each detecting against
   * the state the one before it left; `None` once a poll fails.
   */
  function Carried(s: MonitorState, polls: seq<Poll>): (r: Option<MonitorState>)
    ensures r.Some? ==> r.value.lastCheckTimestamp == Watermark(s.lastCheckTimestamp, polls)
    ensures r.Some? && RunsWellKeyed(s.knownRuns) ==> RunsWellKeyed(r.value.knownRuns)
    decreases |polls|
  {
    if polls == [] then Some(s)
    else
      match Carried(s, polls[..|polls| - 1])
      case None => None
      case Some(m) => PollResult(m, polls[|polls| - 1])
  }

  /** The lines one poll prints when it detects against `s`. */
  function PollLines(s: MonitorState, p: Poll): seq<string>
  {
    Displayed(Detect(p.fetched, s))
  }

  /**
   * The lines the polls made from `s` print: each poll's lines, detected
   * against the state carried to it, up to and including the first poll that fails.
   */
  function Printed(s: MonitorState, polls: seq<Poll>): seq<string>
    decreases |polls|
  {
    if polls == [] then []
    else
      Printed(s, polls[..|polls| - 1]) +
        match Carried(s, polls[..|polls| - 1])
        case None => []
        case Some(m) => PollLines(m, polls[|polls| - 1])
  }

  /** The pieces one after the other. */
  function Flatten(parts: seq<seq<string>>): (r: seq<string>)
    decreases |parts|
  {
    if parts == [] then [] else Flatten(parts[..|parts| - 1]) + parts[|parts| - 1]
  }

  /** Poll `k` of `polls`, made from `states[k]`, succeeded and carried on with `states[k + 1]`. */
  ghost predicate Advanced(states: seq<MonitorState>, polls: seq<Poll>, k: nat)
    requires k + 1 < |states| && k < |polls|
  {
    PollResult(states[k], polls[k]) == Some(states[k + 1])
  }

  /** `printed[k]` holds the lines of poll `k` of `polls`, made from `states[k]`. */
  ghost predicate Shown(printed: seq<seq<string>>, states: seq<MonitorState>, polls: seq<Poll>, k: nat)
    requires k < |printed| && k < |states| && k < |polls|
  {
    printed[k] == PollLines(states[k], polls[k])
  }

  /**
   * A history of successful polls is the fold: `states[k]` is the state
   * carried after the first `k` polls, and the lines are those of `Printed`.
   */
  lemma {:induction false} HistoryCarried(s: MonitorState, polls: seq<Poll>, n: nat,
                                          states: seq<MonitorState>, printed: seq<seq<string>>)
    requires n <= |polls| && |states| == n + 1 && |printed| == n && states[0] == s
    requires forall k :: 0 <= k < n ==> Advanced(states, polls, k)
    requires forall k :: 0 <= k < n ==> Shown(printed, states, polls, k)
    ensures Carried(s, polls[..n]) == Some(states[n])
    ensures Printed(s, polls[..n]) == Flatten(printed)
    decreases n
  {
    if n > 0 {
      var earlier, shown := states[..n], printed[..n - 1];
      assert Advanced(states, polls, n - 1);
      assert Shown(printed, states, polls, n - 1);
      forall k | 0 <= k < n - 1
        ensures Advanced(earlier, polls, k) && Shown(shown, earlier, polls, k)
      {
        assert Advanced(states, polls, k) && Shown(printed, states, polls, k);
      }
      HistoryCarried(s, polls, n - 1, earlier, shown);
      assert polls[..n][..n - 1] == polls[..n - 1];
      assert shown == printed[..|printed| - 1];
    }
  }

  /** Flattening one more piece appends it, after whatever came before. */
  lemma FlattenSnoc(before: seq<string>, parts: seq<seq<string>>, part: seq<string>)
    ensures before + Flatten(parts + [part]) == before + Flatten(parts) + part
  {
    assert (parts + [part])[..|parts|] == parts;
  }

  /** Recording the lines of poll `n`, made from `states[n]`, keeps every record in the history. */
  lemma ShownSnoc(printed: seq<seq<string>>, states: seq<MonitorState>, polls: seq<Poll>, n: nat)
    requires n < |polls| && n < |states| && |printed| == n
    requires forall k :: 0 <= k < n ==> Shown(printed, states, polls, k)
    ensures forall k :: 0 <= k < n + 1 ==> Shown(printed + [PollLines(states[n], polls[n])], states, polls, k)
  {
    var more := printed + [PollLines(states[n], polls[n])];
    forall k | 0 <= k < n + 1
      ensures Shown(more, states, polls, k)
    {
      if k < n {
        assert Shown(printed, states, polls, k);
      }
    }
  }

  /** A successful poll `n` from the last state extends the history by its result, keeping every step and record. */
  lemma AdvancedSnoc(printed: seq<seq<string>>, states: seq<MonitorState>, polls: seq<Poll>, n: nat, next: MonitorState)
    requires n < |polls| && |states| == n + 1 && |printed| == n + 1
    requires forall k :: 0 <= k < n ==> Advanced(states, polls, k)
    requires forall k :: 0 <= k < n + 1 ==> Shown(printed, states, polls, k)
    requires PollResult(states[n], polls[n]) == Some(next)
    ensures forall k :: 0 <= k < n + 1 ==> Advanced(states + [next], polls, k)
    ensures forall k :: 0 <= k < n + 1 ==> Shown(printed, states + [next], polls, k)
  {
    var more := states + [next];
    forall k | 0 <= k < n + 1
      ensures Advanced(more, polls, k) && Shown(printed, more, polls, k)
    {
      assert Shown(printed, states, polls, k);
      if k < n {
        assert Advanced(states, polls, k);
      }
    }
  }

  /** A history whose last poll failed: the fold fails there, after printing that poll's lines. */
  lemma HistoryFailed(s: MonitorState, polls: seq<Poll>, n: nat,
                      states: seq<MonitorState>, printed: seq<seq<string>>)
    requires 0 < n <= |polls| && |states| == n && |printed| == n && states[0] == s
    requires forall k :: 0 <= k < n - 1 ==> Advanced(states, polls, k)
    requires forall k :: 0 <= k < n ==> Shown(printed, states, polls, k)
    requires PollResult(states[n - 1], polls[n - 1]).None?
    ensures Carried(s, polls[..n - 1]) == Some(states[n - 1])
    ensures Carried(s, polls[..n]).None?
    ensures Printed(s, polls[..n]) == Flatten(printed)
  {
    var shown := printed[..n - 1];
    assert Shown(printed, states, polls, n - 1);
    forall k | 0 <= k < n - 1
      ensures Shown(shown, states, polls, k)
    {
      assert Shown(printed, states, polls, k);
    }
    HistoryCarried(s, polls, n - 1, states, shown);
    var upto := polls[..n];
    assert upto[..n - 1] == polls[..n - 1] && upto[n - 1] == polls[n - 1];
    assert Carried(s, upto) == PollResult(states[n - 1], polls[n - 1]);
    assert shown == printed[..|printed| - 1];
    assert Printed(s, upto) == Flatten(shown) + PollLines(states[n - 1], polls[n - 1]);
  }

  /**
   * The record the monitoring loop keeps after `n` polls made from `s`, with
   * `ok` false when the last of them failed: the carried states, the lines
   * of each poll, the current state and everything printed after `base`.
   */
  ghost predicate History(s: MonitorState, base: seq<string>, polls: seq<Poll>, n: nat, ok: bool,
                          states: seq<MonitorState>, printed: seq<seq<string>>,
                          current: MonitorState, out: seq<string>)
  {
    && n <= |polls| && (!ok ==> n > 0)
    && |states| == (if ok then n + 1 else n) && |printed| == n
    && states[0] == s && current == states[|states| - 1]
    && (forall k :: 0 <= k < |states| - 1 ==> Advanced(states, polls, k))
    && (forall k :: 0 <= k < n ==> Shown(printed, states, polls, k))
    && (!ok ==> PollResult(current, polls[n - 1]).None?)
    && out == base + Flatten(printed)
  }

  /** The record of the monitoring loop is the fold: the state `Carried` and the lines `Printed`. */
  lemma HistoryFolds(s: MonitorState, base: seq<string>, polls: seq<Poll>, n: nat, ok: bool,
                     states: seq<MonitorState>, printed: seq<seq<string>>,
                     current: MonitorState, out: seq<string>)
    requires History(s, base, polls, n, ok, states, printed, current, out)
    ensures ok ==> Carried(s, polls[..n]) == Some(current)
    ensures !ok ==> Carried(s, polls[..n]).None? && Carried(s, polls[..n - 1]) == Some(current)
    ensures out == base + Printed(s, polls[..n])
  {
    if ok {
      assert |states| == n + 1 && forall k :: 0 <= k < n ==> Advanced(states, polls, k);
      HistoryCarried(s, polls, n, states, printed);
    } else {
      assert |states| == n && forall k :: 0 <= k < n - 1 ==> Advanced(states, polls, k);
      HistoryFailed(s, polls, n, states, printed);
    }
  }

  /** Once a poll fails, the carried state is gone for good: every prefix of a successful run of polls succeeds. */
  lemma {:induction false} CarriedPrefix(s: MonitorState, polls: seq<Poll>, i: nat)
    requires i <= |polls|
    ensures Carried(s, polls).Some? ==> Carried(s, polls[..i]).Some?
    decreases |polls|
  {
    if i < |polls| {
      var init := polls[..|polls| - 1];
      CarriedPrefix(s, init, i);
      assert init[..i] == polls[..i];
    } else {
      assert polls[..i] == polls;
    }
  }

  /** Every successful poll prints at least one line: the "nothing" line or one line per event. */
  lemma {:induction false} PrintedAtLeast(s: MonitorState, polls: seq<Poll>)
    ensures Carried(s, polls).Some? ==> |Printed(s, polls)| >= |polls|
    decreases |polls|
  {
    if polls != [] && Carried(s, polls).Some? {
      var init := polls[..|polls| - 1];
      PrintedAtLeast(s, init);
      var m := Carried(s, init).value;
      var events := Detect(polls[|polls| - 1].fetched, m);
      if events != [] {
        DisplayedAll(events);
      }
    }
  }


  class WorkflowMonitor {
    const owner: string
    const repo: string
    const store: StateManager
    /** The watermark: the next fetch asks for runs since this instant. */
    var lastDateTime: Instant
    var isRunning: bool
    /** The state the loop carries from one poll to the next. */
    var state: MonitorState
    /** The `since` argument of every fetch made so far, in order. */
    var requests: seq<Instant>
    /** The event lines printed so far. */
    var output: seq<string>

    /** The carried state can be saved: every entry sits under its own id. */
    ghost predicate Valid()
      reads this
    {
      RunsWellKeyed(state.knownRuns)
    }

    constructor (owner: string, repo: string, store: StateManager)
      ensures this.owner == owner && this.repo == repo && this.store == store
      ensures isRunning && state == Empty && requests == [] && output == []
      ensures Valid()
    {
      this.owner := owner;
      this.repo := repo;
      this.store := store;
      lastDateTime := MinInstant;
      isRunning := true;
      state := Empty;
      requests := [];
      output := [];
    }

    /**
     * `handleFirstRun`: the watermark becomes `now` before anything is
     * fetched, everything is fetched (since the sentinel), and the state built
     * from it alone is saved; nothing is detected or printed.
     */
    method HandleFirstRun(now: Instant, fetched: Snapshot) returns (ok: bool)
      requires Valid()
      modifies this, store
      ensures Valid()
      ensures lastDateTime == now
      ensures requests == old(requests) + [MinInstant]
      ensures ok <==> JobIdsDistinct(fetched)
      ensures ok ==> Merge(fetched, now, map[]) == Some(state)
      ensures ok ==> Saved(old(store.Contents()), store.Contents(), owner, repo, state)
      ensures !ok ==> state == old(state) && store.Contents() == old(store.Contents())
      ensures output == old(output) && isRunning == old(isRunning)
    {
      lastDateTime := now;
      requests := requests + [MinInstant];
      var built := BuildMonitorState(fetched, lastDateTime, map[]);
      MergeRunsSome(fetched, map[]);
      if built.None? {
        return false;
      }
      store.SaveState(owner, repo, built.value);
      state := built.value;
      ok := true;
    }

    /**
     * `initializeState`: the stored state is loaded; the sentinel timestamp
     * takes the first-run path, any other resumes from the stored state with
     * the watermark at its timestamp. `now` is the clock, read by the first
     * run and by a load whose timestamp query fails.
     */
    method InitializeState(faults: LoadFaults, now: Instant, firstFetch: Snapshot) returns (ok: bool)
      requires Valid()
      modifies this, store
      ensures Valid()
      ensures LoadSpec(old(store.Contents()), owner, repo, faults, now).lastCheckTimestamp == MinInstant ==>
        && lastDateTime == now
        && requests == old(requests) + [MinInstant]
        && (ok <==> JobIdsDistinct(firstFetch))
        && (ok ==> Merge(firstFetch, now, map[]) == Some(state))
        && (ok ==> Saved(old(store.Contents()), store.Contents(), owner, repo, state))
        && (!ok ==> state == old(state) && store.Contents() == old(store.Contents()))
      ensures LoadSpec(old(store.Contents()), owner, repo, faults, now).lastCheckTimestamp != MinInstant ==>
        && ok
        && state == LoadSpec(old(store.Contents()), owner, repo, faults, now)
        && lastDateTime == state.lastCheckTimestamp
        && requests == old(requests)
        && store.Contents() == old(store.Contents())
      ensures output == old(output) && isRunning == old(isRunning)
    {
      var loaded := store.LoadState(owner, repo, faults, now);
      if loaded.lastCheckTimestamp == MinInstant {
        ok := HandleFirstRun(now, firstFetch);
      } else {
        lastDateTime := loaded.lastCheckTimestamp;
        state := loaded;
        ok := true;
      }
    }

    /** The printing half of `processAndDisplayEvents`; `false` when formatting an event throws. */
    method DisplayEvents(events: seq<Event>) returns (ok: bool)
      modifies this
      ensures output == old(output) + Displayed(events)
      ensures ok <==> Printable(events)
      ensures lastDateTime == old(lastDateTime) && isRunning == old(isRunning)
      ensures state == old(state) && requests == old(requests)
    {
      if events == [] {
        output := output + [NoEventsLine];
        return true;
      }
      var lines := Lines(events);
      LinesSpec(events);
      var i := 0;
      while i < |events|
        invariant i <= |lines|
        invariant output == old(output) + lines[..i]
        invariant lastDateTime == old(lastDateTime) && isRunning == old(isRunning)
        invariant state == old(state) && requests == old(requests)
      {
        var line := ToFormattedString(events[i]);
        if line.None? {
          assert lines[..i] == lines;
          return false;
        }
        assert lines[..i + 1] == lines[..i] + [line.value];
        output := output + [line.value];
        i := i + 1;
      }
      assert lines[..i] == lines;
      ok := true;
    }

    /**
     * `processAndDisplayEvents`: detect against `current`, then print the
     * "nothing" line or one line per event.
     */
    method ProcessAndDisplayEvents(fetched: Snapshot, current: MonitorState) returns (ok: bool)
      modifies this
      ensures output == old(output) + Displayed(Detect(fetched, current))
      ensures ok <==> Printable(Detect(fetched, current))
      ensures lastDateTime == old(lastDateTime) && isRunning == old(isRunning)
      ensures state == old(state) && requests == old(requests)
    {
      var events := DetectEvents(fetched, current);
      ok := DisplayEvents(events);
    }

    /** `updateAndSaveState`: merge the fetched runs at the current watermark, save, carry on with the result. */
    method UpdateAndSaveState(fetched: Snapshot) returns (ok: bool)
      requires Valid()
      modifies this, store
      ensures Valid()
      ensures ok <==> JobIdsDistinct(fetched)
      ensures ok ==> Merge(fetched, lastDateTime, old(state).knownRuns) == Some(state)
      ensures ok ==> Saved(old(store.Contents()), store.Contents(), owner, repo, state)
      ensures !ok ==> state == old(state) && store.Contents() == old(store.Contents())
      ensures lastDateTime == old(lastDateTime) && isRunning == old(isRunning)
      ensures output == old(output) && requests == old(requests)
    {
      var built := BuildMonitorState(fetched, lastDateTime, state.knownRuns);
      MergeRunsSome(fetched, state.knownRuns);
      if built.None? {
        return false;
      }
      store.SaveState(owner, repo, built.value);
      state := built.value;
      ok := true;
    }

    /**
     * One iteration of `runMonitoringLoop` before the sleep: fetch since the
     * old watermark, move the watermark to `now`, detect and print against
     * the carried state, then merge and save. `false` when an exception
     * escapes; nothing is saved then.
     */
    method PollOnce(fetched: Snapshot, now: Instant) returns (ok: bool)
      requires Valid()
      modifies this, store
      ensures Valid()
      ensures requests == old(requests) + [old(lastDateTime)]
      ensures lastDateTime == now
      ensures output == old(output) + Displayed(Detect(fetched, old(state)))
      ensures ok <==> Printable(Detect(fetched, old(state))) && JobIdsDistinct(fetched)
      ensures ok ==> Merge(fetched, now, old(state).knownRuns) == Some(state)
      ensures ok ==> state.lastCheckTimestamp == now
      ensures ok ==> Saved(old(store.Contents()), store.Contents(), owner, repo, state)
      ensures !ok ==> state == old(state) && store.Contents() == old(store.Contents())
      ensures isRunning == old(isRunning)
    {
      requests := requests + [lastDateTime];
      lastDateTime := now;
      ok := ProcessAndDisplayEvents(fetched, state);
      if !ok {
        return;
      }
      ok := UpdateAndSaveState(fetched);
    }

    /**
     * `PollOnce` with `detectEvents` as the source writes it. A run or
     * step the carried state has not seen makes detection throw before
     * anything is printed or saved; the watermark has already moved.
     */
    method PollOnceAsWritten(fetched: Snapshot, now: Instant) returns (ok: bool)
      requires Valid()
      modifies this, store
      ensures Valid()
      ensures requests == old(requests) + [old(lastDateTime)]
      ensures lastDateTime == now
      ensures ok ==> AllKnown(fetched, old(state))
      ensures !AllKnown(fetched, old(state)) ==> output == old(output)
      ensures !AllKnown(fetched, old(state)) ==> state == old(state) && store.Contents() == old(store.Contents())
      ensures AllKnown(fetched, old(state)) ==>
        output == old(output) + Displayed(DetectAsWritten(fetched, old(state)).value)
      ensures AllKnown(fetched, old(state)) ==>
        (ok <==> Printable(DetectAsWritten(fetched, old(state)).value) && JobIdsDistinct(fetched))
      ensures ok ==> Merge(fetched, now, old(state).knownRuns) == Some(state)
      ensures ok ==> Saved(old(store.Contents()), store.Contents(), owner, repo, state)
      ensures !ok ==> state == old(state) && store.Contents() == old(store.Contents())
      ensures isRunning == old(isRunning)
    {
      requests := requests + [lastDateTime];
      lastDateTime := now;
      var detected := DetectAsWritten(fetched, state);
      if detected.None? {
        return false;
      }
      ok := DisplayEvents(detected.value);
      if !ok {
        return;
      }
      ok := UpdateAndSaveState(fetched);
    }

    /** `sleepBetweenPolls`: an interrupted sleep clears `isRunning`; the 30 s wait itself is not modelled. */
    method SleepBetweenPolls(interrupted: bool)
      modifies this
      ensures isRunning == (old(isRunning) && !interrupted)
      ensures lastDateTime == old(lastDateTime) && state == old(state)
      ensures requests == old(requests) && output == old(output)
    {
      if interrupted {
        isRunning := false;
      }
    }

    /**
     * One pass of the body of `runMonitoringLoop`: the poll, then the sleep
     * unless an exception escaped the poll.
     */
    method Iteration(poll: Poll) returns (ok: bool)
      requires Valid()
      modifies this, store
      ensures Valid()
      ensures requests == old(requests) + [old(lastDateTime)]
      ensures lastDateTime == poll.now
      ensures output == old(output) + PollLines(old(state), poll)
      ensures ok ==> PollResult(old(state), poll) == Some(state)
      ensures ok ==> Saved(old(store.Contents()), store.Contents(), owner, repo, state)
      ensures !ok ==> PollResult(old(state), poll).None?
      ensures !ok ==> state == old(state) && store.Contents() == old(store.Contents())
      ensures isRunning == (old(isRunning) && !(ok && poll.interrupted))
    {
      PollSucceeds(old(state), poll);
      ok := PollOnce(poll.fetched, poll.now);
      if ok {
        SleepBetweenPolls(poll.interrupted);
      }
    }

    /**
     * One pass of the loop body, poll `n` of `polls`, recorded in the history
     * of the loop: the carried states `states` and the lines of each poll
     * `printed`, printed after `base`.
     */
    method Advance(polls: seq<Poll>, n: nat, ghost start: MonitorState, ghost base: seq<string>,
                   ghost states: seq<MonitorState>, ghost printed: seq<seq<string>>)
      returns (ok: bool, ghost states': seq<MonitorState>, ghost printed': seq<seq<string>>)
      requires Valid()
      requires n < |polls| && History(start, base, polls, n, true, states, printed, state, output)
      modifies this, store
      ensures Valid()
      ensures requests == old(requests) + [old(lastDateTime)] && lastDateTime == polls[n].now
      ensures isRunning == (old(isRunning) && !(ok && polls[n].interrupted))
      ensures History(start, base, polls, n + 1, ok, states', printed', state, output)
      ensures ok ==> StateStored(store.Contents(), owner, repo, state)
      ensures !ok ==> state == old(state) && store.Contents() == old(store.Contents())
    {
      ghost var before := store.Contents();
      ShownSnoc(printed, states, polls, n);
      FlattenSnoc(base, printed, PollLines(states[n], polls[n]));
      ok := Iteration(polls[n]);
      printed' := printed + [PollLines(states[n], polls[n])];
      states' := states;
      if ok {
        SavedStoresState(before, store.Contents(), owner, repo, state);
        AdvancedSnoc(printed', states, polls, n, state);
        states' := states + [state];
      }
    }

    /**
     * `runMonitoringLoop` over the inputs `polls`: poll after poll while
     * `isRunning`, stopping early when a sleep is interrupted or an exception
     * escapes, or when the inputs run out. `n` is the number of polls made.
     * The states carried and the lines printed form the `History` of those
     * polls (by `HistoryFolds`, the folds `Carried` and `Printed`), and the
     * last state carried after a successful poll is the one stored.
     */
    method RunMonitoringLoop(polls: seq<Poll>)
      returns (ok: bool, n: nat, ghost states: seq<MonitorState>, ghost printed: seq<seq<string>>)
      requires Valid()
      modifies this, store
      ensures Valid()
      ensures n <= |polls|
      ensures !old(isRunning) ==> n == 0
      ensures requests == old(requests) + Requests(old(lastDateTime), polls[..n])
      ensures lastDateTime == Watermark(old(lastDateTime), polls[..n])
      ensures forall k :: 0 <= k < n - 1 ==> !polls[k].interrupted
      ensures ok && isRunning ==> n == |polls|
      ensures ok && !isRunning && n > 0 ==> polls[n - 1].interrupted
      ensures History(old(state), old(output), polls, n, ok, states, printed, state, output)
      ensures StateStored(old(store.Contents()), owner, repo, old(state)) || (ok && n > 0) || n > 1 ==>
        StateStored(store.Contents(), owner, repo, state)
    {
      n := 0;
      ok := true;
      states, printed := [state], [];
      while ok && isRunning && n < |polls|
        invariant Valid()
        invariant n <= |polls|
        invariant n == 0 ==> isRunning == old(isRunning)
        invariant n > 0 ==> old(isRunning)
        invariant requests == old(requests) + Requests(old(lastDateTime), polls[..n])
        invariant lastDateTime == Watermark(old(lastDateTime), polls[..n])
        invariant forall k :: 0 <= k < n - 1 ==> !polls[k].interrupted
        invariant ok && n > 0 ==> (isRunning <==> !polls[n - 1].interrupted)
        invariant History(old(state), old(output), polls, n, ok, states, printed, state, output)
        invariant StateStored(old(store.Contents()), owner, repo, old(state)) || (ok && n > 0) || n > 1 ==>
          StateStored(store.Contents(), owner, repo, state)
        decreases |polls| - n
      {
        var poll := polls[n];
        assert forall k :: 0 <= k < n ==> !polls[k].interrupted;
        assert polls[..n + 1] == polls[..n] + [poll];
        RequestsSnoc(old(lastDateTime), polls[..n], poll);
        ok, states, printed := Advance(polls, n, old(state), old(output), states, printed);
        n := n + 1;
      }
    }
  }
}

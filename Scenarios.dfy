/**
 * Client-side consequences of the WorkflowStatus contracts: what a sequence
 * of calls on a tracker leads to, from construction through success, and
 * what a status read back from its own encoding holds.
 */
module WorkflowScenarios {
  import opened DataIO
  import opened StatusCodec
  import opened Workflow

  /** A new tracker is in PREP, has no submission time (-1), failure info "NA", and counts as finished. */
  method FreshTracker() returns (state: RunState, time: Int64, info: string, finished: bool)
    ensures state == PREP && time == -1 && info == "NA"
    ensures finished
  {
    var status := new WorkflowStatus();
    state := status.GetRunState();
    time := status.GetSubmissionTime();
    info := status.GetFailureInfo();
    finished := status.IsFinished();
  }

  /**
   * One job through every stage: the tracker goes PREP, SUBMITTED, RUNNING,
   * SUCCEEDED, and at the end the job is in the finished set only.
   */
  method SingleJobLifecycle(name: string)
    returns (states: seq<RunState>, prep: set<string>, submitted: set<string>, running: set<string>,
             finished: set<string>)
    ensures states == [PREP, PREP, SUBMITTED, RUNNING, SUCCEEDED]
    ensures prep == {} && submitted == {} && running == {} && finished == {name}
  {
    var status := new WorkflowStatus();
    var state := status.GetRunState();
    states := [state];
    status.AddPrepJob(name);
    state := status.GetRunState();
    states := states + [state];
    status.AddSubmittedJob(name);
    state := status.GetRunState();
    states := states + [state];
    status.AddRunningJob(name);
    state := status.GetRunState();
    states := states + [state];
    status.AddFinishedJob(name);
    state := status.GetRunState();
    states := states + [state];
    prep := status.GetPrepJobs();
    submitted := status.GetSubmittedJobs();
    running := status.GetRunningJobs();
    finished := status.GetFinishedJobs();
  }

  /**
   * The job sets are not kept disjoint: a name reported running while it is
   * still waiting stays in prep, so it is in both sets at once.
   */
  method JobInTwoSets(name: string) returns (prep: set<string>, running: set<string>)
    ensures name in prep && name in running
  {
    var status := new WorkflowStatus();
    status.AddPrepJob(name);
    status.AddRunningJob(name);
    prep := status.GetPrepJobs();
    running := status.GetRunningJobs();
  }

  /**
   * A job submitted before the submission time is set moves the workflow to
   * SUBMITTED, so the later setSubmissionTime is ignored and the time stays
   * -1, the value that otherwise means "not submitted".
   */
  method SubmissionTimeAfterSubmittedJob(name: string, at: Int64) returns (state: RunState, time: Int64)
    ensures state == SUBMITTED && time == -1
  {
    var status := new WorkflowStatus();
    status.AddPrepJob(name);
    status.AddSubmittedJob(name);
    status.SetSubmissionTime(at);
    state := status.GetRunState();
    time := status.GetSubmissionTime();
  }

  /** Finished jobs do not count against completion: a tracker holding only finished jobs is finished. */
  method OnlyFinishedJobsIsFinished(name: string) returns (finished: bool, done: set<string>)
    ensures finished && done == {name}
  {
    var status := new WorkflowStatus();
    status.AddFinishedJob(name);
    finished := status.IsFinished();
    done := status.GetFinishedJobs();
  }

  /** A job still waiting keeps the workflow from succeeding when another job finishes. */
  method WaitingJobBlocksSuccess(first: string, second: string) returns (state: RunState)
    requires first != second
    ensures state == RUNNING
  {
    var status := new WorkflowStatus();
    status.AddPrepJob(first);
    status.AddPrepJob(second);
    status.AddSubmittedJob(first);
    status.AddRunningJob(first);
    status.AddFinishedJob(first);
    state := status.GetRunState();
  }

  /** Running a job that was never submitted does not move a PREP workflow on. */
  method RunningBeforeSubmissionStaysPrep(name: string) returns (state: RunState, running: set<string>)
    ensures state == PREP && running == {name}
  {
    var status := new WorkflowStatus();
    status.AddRunningJob(name);
    state := status.GetRunState();
    running := status.GetRunningJobs();
  }

  /** The submission time is set once: a second call after submission is ignored. */
  method SubmissionTimeSetOnce(first: Int64, second: Int64) returns (time: Int64, state: RunState)
    ensures time == first && state == SUBMITTED
  {
    var status := new WorkflowStatus();
    status.SetSubmissionTime(first);
    status.SetSubmissionTime(second);
    time := status.GetSubmissionTime();
    state := status.GetRunState();
  }

  /** A set obtained from an accessor is a snapshot: later changes to the tracker do not reach it. */
  method AccessorSnapshot(name: string) returns (before: set<string>, after: set<string>)
    ensures before == {} && after == {name}
  {
    var status := new WorkflowStatus();
    before := status.GetPrepJobs();
    status.AddPrepJob(name);
    after := status.GetPrepJobs();
  }

  /**
   * What a status with an identifier writes decodes, whatever order its sets
   * were iterated in, to exactly its own fields with nothing left over.
   */
  method Encode(source: WorkflowStatus) returns (encoding: seq<Token>)
    requires source.workflowId.Some?
    requires |source.prepJobs| <= INT_MAX && |source.submittedJobs| <= INT_MAX
    requires |source.runningJobs| <= INT_MAX && |source.finishedJobs| <= INT_MAX
    ensures FieldsAhead(encoding)
            == Some((Fields(source.workflowId.value, source.failureInfo, source.submissionTime,
                            source.prepJobs, source.submittedJobs, source.runningJobs, source.finishedJobs), []))
  {
    var out, prepOrder, submittedOrder, runningOrder, finishedOrder := source.Write();
    EnumerationSize(prepOrder, source.prepJobs);
    EnumerationSize(submittedOrder, source.submittedJobs);
    EnumerationSize(runningOrder, source.runningJobs);
    EnumerationSize(finishedOrder, source.finishedJobs);
    StatusRoundTrip(source.workflowId.value, source.failureInfo, source.submissionTime,
                    prepOrder, submittedOrder, runningOrder, finishedOrder, []);
    assert out.value + [] == out.value;
    encoding := out.value;
  }

  /**
   * Round trip through a fresh reader: what `source` writes, read by a newly
   * constructed tracker, gives back the identifier, the failure info and the
   * submission time and consumes the whole encoding; the reader stays in
   * PREP because the run state is not encoded.
   */
  method RoundTripHeader(source: WorkflowStatus, blank: WorkflowId)
    returns (ok: bool, rest: seq<Token>, id: Option<WorkflowId>, state: RunState, info: string, time: Int64)
    requires source.workflowId.Some?
    requires |source.prepJobs| <= INT_MAX && |source.submittedJobs| <= INT_MAX
    requires |source.runningJobs| <= INT_MAX && |source.finishedJobs| <= INT_MAX
    ensures ok && rest == [] && id == source.workflowId && state == PREP
    ensures info == source.failureInfo && time == source.submissionTime
  {
    var encoding := Encode(source);
    ghost var decoded := FieldsAhead(encoding).value.0;
    var reader := new WorkflowStatus();
    ok, rest := reader.ReadFields(encoding, blank);
    assert reader.workflowId == Some(decoded.id) && reader.failureInfo == decoded.failureInfo;
    assert reader.submissionTime == decoded.submissionTime;
    id, state := reader.workflowId, reader.runState;
    info, time := reader.failureInfo, reader.submissionTime;
  }

  /** The same round trip gives back all four job sets. */
  method RoundTripJobs(source: WorkflowStatus, blank: WorkflowId)
    returns (prep: set<string>, submitted: set<string>, running: set<string>, finished: set<string>)
    requires source.workflowId.Some?
    requires |source.prepJobs| <= INT_MAX && |source.submittedJobs| <= INT_MAX
    requires |source.runningJobs| <= INT_MAX && |source.finishedJobs| <= INT_MAX
    ensures prep == source.prepJobs && submitted == source.submittedJobs
    ensures running == source.runningJobs && finished == source.finishedJobs
  {
    var encoding := Encode(source);
    ghost var decoded := FieldsAhead(encoding).value.0;
    var reader := new WorkflowStatus();
    var ok, rest := reader.ReadFields(encoding, blank);
    assert reader.prepJobs == decoded.prep && reader.submittedJobs == decoded.submitted;
    assert reader.runningJobs == decoded.running && reader.finishedJobs == decoded.finished;
    prep, submitted := reader.prepJobs, reader.submittedJobs;
    running, finished := reader.runningJobs, reader.finishedJobs;
  }

  /**
   * Reading into a tracker that already holds jobs adds the decoded names to
   * the ones it has: a job the reader knew before is still there afterwards.
   */
  method ReadAddsToExistingJobs(source: WorkflowStatus, blank: WorkflowId, known: string)
    returns (ok: bool, prep: set<string>)
    requires source.workflowId.Some?
    requires |source.prepJobs| <= INT_MAX && |source.submittedJobs| <= INT_MAX
    requires |source.runningJobs| <= INT_MAX && |source.finishedJobs| <= INT_MAX
    ensures ok && prep == source.prepJobs + {known}
  {
    var encoding := Encode(source);
    ghost var decoded := FieldsAhead(encoding).value.0;
    var reader := new WorkflowStatus();
    reader.AddPrepJob(known);
    var rest;
    ok, rest := reader.ReadFields(encoding, blank);
    assert reader.prepJobs == {known} + decoded.prep;
    prep := reader.GetPrepJobs();
  }

  /** A truncated encoding is a decode error: nothing can be read from an empty input. */
  method EmptyInputFails(blank: WorkflowId) returns (ok: bool, id: Option<WorkflowId>)
    ensures !ok && id == Some(blank)
  {
    var reader := new WorkflowStatus();
    var rest;
    ok, rest := reader.ReadFields([], blank);
    id := reader.GetWorkflowId();
  }
}

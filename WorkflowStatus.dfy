/**
 * The status of one workflow: which of its jobs are in each stage, the
 * coarse run state derived from them, the submission time and the failure
 * information, and the Writable encoding that ships all of it between the
 * workflow driver and status queries.
 */
module Workflow {
  import opened DataIO
  import opened StatusCodec

  datatype RunState = PREP | SUBMITTED | RUNNING | SUCCEEDED | FAILED | KILLED

  /**
   * How far along PREP, SUBMITTED, RUNNING, SUCCEEDED a state is. FAILED and
   * KILLED are declared but no operation leads to them.
   */
  function Progress(s: RunState): nat
  {
    match s
    case PREP => 0
    case SUBMITTED => 1
    case RUNNING => 2
    case SUCCEEDED => 3
    case FAILED => 3
    case KILLED => 3
  }

  class WorkflowStatus {
    var workflowId: Option<WorkflowId>    // None until set: the no-argument constructor leaves it null
    var runState: RunState
    var failureInfo: string
    var submissionTime: Int64
    var prepJobs: set<string>
    var submittedJobs: set<string>
    var runningJobs: set<string>
    var finishedJobs: set<string>         // the jobs that finished successfully

    /** No operation of the class ever sets FAILED or KILLED. */
    ghost predicate Valid()
      reads this
    {
      runState != FAILED && runState != KILLED
    }

    /** The constructor that readFields relies on: no identifier yet. */
    constructor ()
      ensures Valid()
      ensures workflowId == None
      ensures runState == PREP && failureInfo == "NA" && submissionTime == -1
      ensures prepJobs == {} && submittedJobs == {} && runningJobs == {} && finishedJobs == {}
    {
      workflowId := None;
      runState := PREP;
      failureInfo := "NA";
      submissionTime := -1;
      prepJobs, submittedJobs, runningJobs, finishedJobs := {}, {}, {}, {};
    }

    constructor WithId(id: WorkflowId)
      ensures Valid()
      ensures workflowId == Some(id)
      ensures runState == PREP && failureInfo == "NA" && submissionTime == -1
      ensures prepJobs == {} && submittedJobs == {} && runningJobs == {} && finishedJobs == {}
    {
      workflowId := Some(id);
      runState := PREP;
      failureInfo := "NA";
      submissionTime := -1;
      prepJobs, submittedJobs, runningJobs, finishedJobs := {}, {}, {}, {};
    }

    /** True when no job is waiting, submitted or running; finished jobs do not matter. */
    predicate IsFinished()
      reads this
      ensures IsFinished() <==> forall job :: job !in prepJobs && job !in submittedJobs && job !in runningJobs
    {
      prepJobs == {} && submittedJobs == {} && runningJobs == {}
    }

    /** Records a job that has not been submitted yet. Other sets are not consulted. */
    method AddPrepJob(jobName: string)
      requires Valid()
      modifies this
      ensures Valid()
      ensures prepJobs == old(prepJobs) + {jobName}
      ensures submittedJobs == old(submittedJobs) && runningJobs == old(runningJobs)
      ensures finishedJobs == old(finishedJobs)
      ensures runState == old(runState) && submissionTime == old(submissionTime)
      ensures failureInfo == old(failureInfo) && workflowId == old(workflowId)
    {
      prepJobs := prepJobs + {jobName};
    }

    /** Moves a job from prep to submitted; the first submission leaves PREP. */
    method AddSubmittedJob(jobName: string)
      requires Valid()
      modifies this
      ensures Valid()
      ensures prepJobs == old(prepJobs) - {jobName}
      ensures submittedJobs == old(submittedJobs) + {jobName}
      ensures runningJobs == old(runningJobs) && finishedJobs == old(finishedJobs)
      ensures runState == if old(runState) == PREP then SUBMITTED else old(runState)
      ensures Progress(runState) >= Progress(old(runState)) && Progress(runState) >= 1
      ensures submissionTime == old(submissionTime)
      ensures failureInfo == old(failureInfo) && workflowId == old(workflowId)
    {
      prepJobs := prepJobs - {jobName};
      submittedJobs := submittedJobs + {jobName};
      if runState == PREP {
        runState := SUBMITTED;
      }
    }

    /** Moves a job from submitted to running; SUBMITTED becomes RUNNING, PREP stays PREP. */
    method AddRunningJob(jobName: string)
      requires Valid()
      modifies this
      ensures Valid()
      ensures submittedJobs == old(submittedJobs) - {jobName}
      ensures runningJobs == old(runningJobs) + {jobName}
      ensures prepJobs == old(prepJobs) && finishedJobs == old(finishedJobs)
      ensures runState == if old(runState) == SUBMITTED then RUNNING else old(runState)
      ensures Progress(runState) >= Progress(old(runState))
      ensures submissionTime == old(submissionTime)
      ensures failureInfo == old(failureInfo) && workflowId == old(workflowId)
    {
      submittedJobs := submittedJobs - {jobName};
      runningJobs := runningJobs + {jobName};
      if runState == SUBMITTED {
        runState := RUNNING;
      }
    }

    /** Moves a job from running to finished; the workflow succeeds once nothing is left unfinished. */
    method AddFinishedJob(jobName: string)
      requires Valid()
      modifies this
      ensures Valid()
      ensures runningJobs == old(runningJobs) - {jobName}
      ensures finishedJobs == old(finishedJobs) + {jobName}
      ensures prepJobs == old(prepJobs) && submittedJobs == old(submittedJobs)
      ensures runState == if IsFinished() then SUCCEEDED else old(runState)
      ensures Progress(runState) >= Progress(old(runState))
      ensures submissionTime == old(submissionTime)
      ensures failureInfo == old(failureInfo) && workflowId == old(workflowId)
    {
      runningJobs := runningJobs - {jobName};
      finishedJobs := finishedJobs + {jobName};
      if IsFinished() {
        runState := SUCCEEDED;
      }
    }

    // The four accessors hand out the set as a value: a copy the caller can
    // change without touching the status, and that later changes of the
    // status do not reach.

    method GetPrepJobs() returns (jobs: set<string>)
      ensures jobs == prepJobs
    {
      jobs := prepJobs;
    }

    method GetSubmittedJobs() returns (jobs: set<string>)
      ensures jobs == submittedJobs
    {
      jobs := submittedJobs;
    }

    method GetRunningJobs() returns (jobs: set<string>)
      ensures jobs == runningJobs
    {
      jobs := runningJobs;
    }

    method GetFinishedJobs() returns (jobs: set<string>)
      ensures jobs == finishedJobs
    {
      jobs := finishedJobs;
    }

    method GetRunState() returns (state: RunState)
      ensures state == runState
    {
      state := runState;
    }

    method GetSubmissionTime() returns (time: Int64)
      ensures time == submissionTime
    {
      time := submissionTime;
    }

    /** Takes effect only in PREP, where it also moves the state to SUBMITTED; ignored afterwards. */
    method SetSubmissionTime(time: Int64)
      requires Valid()
      modifies this
      ensures Valid()
      ensures old(runState) == PREP ==> submissionTime == time && runState == SUBMITTED
      ensures old(runState) != PREP ==> submissionTime == old(submissionTime) && runState == old(runState)
      ensures prepJobs == old(prepJobs) && submittedJobs == old(submittedJobs)
      ensures runningJobs == old(runningJobs) && finishedJobs == old(finishedJobs)
      ensures failureInfo == old(failureInfo) && workflowId == old(workflowId)
    {
      if runState == PREP {
        submissionTime := time;
        runState := SUBMITTED;
      }
    }

    method GetFailureInfo() returns (info: string)
      ensures info == failureInfo
    {
      info := failureInfo;
    }

    /** Overwrites the failure information unconditionally. */
    method SetFailureInfo(info: string)
      requires Valid()
      modifies this
      ensures Valid()
      ensures failureInfo == info
      ensures runState == old(runState) && submissionTime == old(submissionTime)
      ensures prepJobs == old(prepJobs) && submittedJobs == old(submittedJobs)
      ensures runningJobs == old(runningJobs) && finishedJobs == old(finishedJobs)
      ensures workflowId == old(workflowId)
    {
      failureInfo := info;
    }

    method GetWorkflowId() returns (id: Option<WorkflowId>)
      ensures id == workflowId
    {
      id := workflowId;
    }

    /**
     * writeJobSet: the size, then every name once, in whatever order the set
     * is iterated. `order` is that order.
     */
    static method WriteJobSet(jobs: set<string>) returns (out: seq<Token>, ghost order: seq<string>)
      ensures IsEnumeration(order, jobs)
      ensures out == JobSetLayout(order)
    {
      out := WriteInt(SizeAsInt(|jobs|));
      order := [];
      var left := jobs;
      while left != {}
        invariant left <= jobs
        invariant IsEnumeration(order, jobs - left)
        invariant out == WriteInt(SizeAsInt(|jobs|)) + Texts(order)
        decreases left
      {
        var job :| job in left;
        assert Elements(order + [job]) == Elements(order) + {job};
        out := out + WriteString(job);
        order := order + [job];
        left := left - {job};
      }
      EnumerationSize(order, jobs);
    }

    /**
     * write: the identifier, the failure info, the submission time, then the
     * prep, submitted, running and finished sets. Without an identifier the
     * first call fails (None) before anything is written.
     */
    method Write() returns (out: Option<seq<Token>>,
                            ghost prepOrder: seq<string>, ghost submittedOrder: seq<string>,
                            ghost runningOrder: seq<string>, ghost finishedOrder: seq<string>)
      ensures out.Some? <==> workflowId.Some?
      ensures out.Some? ==>
        && IsEnumeration(prepOrder, prepJobs) && IsEnumeration(submittedOrder, submittedJobs)
        && IsEnumeration(runningOrder, runningJobs) && IsEnumeration(finishedOrder, finishedJobs)
        && out.value == StatusLayout(workflowId.value, failureInfo, submissionTime,
                                     prepOrder, submittedOrder, runningOrder, finishedOrder)
    {
      prepOrder, submittedOrder, runningOrder, finishedOrder := [], [], [], [];
      if workflowId.None? {
        return None, prepOrder, submittedOrder, runningOrder, finishedOrder;
      }
      var buffer := WriteId(workflowId.value) + WriteString(failureInfo) + WriteLong(submissionTime);
      var encoded;
      encoded, prepOrder := WriteJobSet(prepJobs);
      buffer := buffer + encoded;
      encoded, submittedOrder := WriteJobSet(submittedJobs);
      buffer := buffer + encoded;
      encoded, runningOrder := WriteJobSet(runningJobs);
      buffer := buffer + encoded;
      encoded, finishedOrder := WriteJobSet(finishedJobs);
      buffer := buffer + encoded;
      out := Some(buffer);
    }

    /**
     * readJobSet: reads a count, then that many names (none when the count is
     * not positive), adding each into `jobs` as it is read. A failing read
     * stops it; the names read before the failure stay added.
     */
    static method ReadJobSet(input: seq<Token>, jobs: set<string>)
      returns (ok: bool, jobs': set<string>, rest: seq<Token>)
      ensures ok <==> JobSetAhead(input).Some?
      ensures ok ==> jobs' == jobs + JobSetAhead(input).value.0 && rest == JobSetAhead(input).value.1
      ensures !ok ==> jobs' == jobs + NamesBeforeError(input)
      ensures jobs <= jobs'
    {
      var header := ReadInt(input);
      if header.None? {
        return false, jobs, input;
      }
      JobSetAheadOfTextsAhead(input);
      var numJobs: int := header.value.0;
      ghost var count := numJobs;
      ghost var after := header.value.1;
      ghost var whole := TextsAhead(after, LoopCount(count));
      ghost var read: seq<string> := [];
      rest := header.value.1;
      jobs' := jobs;
      while numJobs > 0
        invariant LoopCount(numJobs) + |read| == LoopCount(count)
        invariant |read| <= |after| && rest == after[|read|..]
        invariant read + TextsAhead(rest, LoopCount(numJobs)) == whole
        invariant jobs' == jobs + Elements(read)
      {
        var name := ReadString(rest);
        if name.None? {
          assert read == whole;
          return false, jobs', rest;
        }
        TextsAheadStep(whole, read, rest, LoopCount(numJobs));
        ElementsAppend(read, name.value.0);
        assert after[|read| + 1..] == rest[1..];
        jobs' := jobs' + {name.value.0};
        read := read + [name.value.0];
        rest := name.value.1;
        numJobs := numJobs - 1;
      }
      ok := true;
    }

    /**
     * readFields: installs a new identifier (`blank`, what the identifier's
     * own no-argument constructor makes) and reads into it, reads the failure
     * info and the submission time into the fields, then adds the names of the
     * four sets into the existing sets. The run state is not on the wire and
     * stays as it was.
     */
    method ReadFields(input: seq<Token>, blank: WorkflowId) returns (ok: bool, rest: seq<Token>)
      requires Valid()
      modifies this
      ensures Valid() && runState == old(runState)
      ensures ok <==> FieldsAhead(input).Some?
      ensures ok ==>
        var fields := FieldsAhead(input).value.0;
        && workflowId == Some(fields.id)
        && failureInfo == fields.failureInfo
        && submissionTime == fields.submissionTime
        && prepJobs == old(prepJobs) + fields.prep
        && submittedJobs == old(submittedJobs) + fields.submitted
        && runningJobs == old(runningJobs) + fields.running
        && finishedJobs == old(finishedJobs) + fields.finished
        && rest == FieldsAhead(input).value.1
      ensures ReadId(input).Some? ==> workflowId == Some(ReadId(input).value.0)
      ensures ReadId(input).None? ==>
        && workflowId == Some(blank)
        && failureInfo == old(failureInfo) && submissionTime == old(submissionTime)
      ensures HeaderAhead(input).None? ==>
        && prepJobs == old(prepJobs) && submittedJobs == old(submittedJobs)
        && runningJobs == old(runningJobs) && finishedJobs == old(finishedJobs)
      ensures !ok && ReadId(input).Some? ==>
        var info := ReadString(ReadId(input).value.1);
        && failureInfo == (if info.Some? then info.value.0 else old(failureInfo))
        && submissionTime == (if info.Some? && ReadLong(info.value.1).Some? then ReadLong(info.value.1).value.0
                              else old(submissionTime))
      ensures !ok && HeaderAhead(input).Some? ==>
        var added := JobSetsAdded(HeaderAhead(input).value.1);
        && prepJobs == old(prepJobs) + added.0 && submittedJobs == old(submittedJobs) + added.1
        && runningJobs == old(runningJobs) + added.2 && finishedJobs == old(finishedJobs) + added.3
      ensures old(prepJobs) <= prepJobs && old(submittedJobs) <= submittedJobs
      ensures old(runningJobs) <= runningJobs && old(finishedJobs) <= finishedJobs
    {
      ok, rest := false, input;
      workflowId := Some(blank);
      var id := ReadId(rest);
      if id.Some? {
        workflowId := Some(id.value.0);
        rest := id.value.1;
        var info := ReadString(rest);
        if info.Some? {
          failureInfo := info.value.0;
          rest := info.value.1;
          var time := ReadLong(rest);
          if time.Some? {
            submissionTime := time.value.0;
            rest := time.value.1;
            assert HeaderAhead(input) == Some(((id.value.0, info.value.0, time.value.0), rest));
            ok, rest := ReadJobSets(rest);
          }
        }
      }
    }

    /**
     * The four readJobSet calls that end readFields, in the order prep,
     * submitted, running, finished; a decode error stops the rest.
     */
    method ReadJobSets(input: seq<Token>) returns (ok: bool, rest: seq<Token>)
      requires Valid()
      modifies this
      ensures Valid() && runState == old(runState)
      ensures workflowId == old(workflowId) && failureInfo == old(failureInfo) && submissionTime == old(submissionTime)
      ensures ok <==> JobSetsAhead(input).Some?
      ensures ok ==>
        var sets := JobSetsAhead(input).value.0;
        && prepJobs == old(prepJobs) + sets.0
        && submittedJobs == old(submittedJobs) + sets.1
        && runningJobs == old(runningJobs) + sets.2
        && finishedJobs == old(finishedJobs) + sets.3
        && rest == JobSetsAhead(input).value.1
      ensures var added := JobSetsAdded(input);
              && prepJobs == old(prepJobs) + added.0 && submittedJobs == old(submittedJobs) + added.1
              && runningJobs == old(runningJobs) + added.2 && finishedJobs == old(finishedJobs) + added.3
    {
      ok, prepJobs, rest := ReadJobSet(input, prepJobs);
      ghost var afterPrep := rest;
      if ok {
        ok, submittedJobs, rest := ReadJobSet(rest, submittedJobs);
        ghost var afterSubmitted := rest;
        if ok {
          ok, runningJobs, rest := ReadJobSet(rest, runningJobs);
          ghost var afterRunning := rest;
          if ok {
            ok, finishedJobs, rest := ReadJobSet(rest, finishedJobs);
            if ok {
              ghost var sets := (JobSetAhead(input).value.0, JobSetAhead(afterPrep).value.0,
                                 JobSetAhead(afterSubmitted).value.0, JobSetAhead(afterRunning).value.0);
              assert JobSetsAhead(input) == Some((sets, rest));
            }
          }
        }
      }
    }
  }
}

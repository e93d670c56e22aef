# WorkflowStatus in Dafny

A model of Hadoop's workflow status tracker, `WorkflowStatus`, and proofs
about it. A `WorkflowStatus` records, for one workflow made of many MapReduce
jobs, which job names are waiting (prep), submitted, running and finished.
It derives a coarse run state (PREP, SUBMITTED, RUNNING, SUCCEEDED) from the
job moves. It keeps a submission time that can be set once and a free-text
failure info. Its `Writable` encoding carries all of this between the
workflow driver and status queries.

The project has four modules, one file each:

- `DataIO.dfy` (module `DataIO`) — the stream layer. A stream is a sequence
  of tokens. `writeInt`/`readInt` and `writeLong`/`readLong` are spelled out
  byte by byte, big-endian two's complement, as `java.io.DataOutput`
  prescribes. `Text.writeString`/`readString` and `WorkflowID.write`/
  `readFields` belong to other classes, so each is one opaque token. A reader
  takes the remaining input and returns the value with what is left. Running
  out of input or meeting a token of another kind is a decode error (`None`).
- `StatusCodec.dfy` (module `StatusCodec`) — the wire layout as functions.
  It gives what `write` emits for a given iteration order of each set, and
  what `readJobSet` and `readFields` accept. It proves the round-trip lemmas
  about these functions.
- `WorkflowStatus.dfy` (module `Workflow`) — the class itself, with its
  mutable fields, the job moves, the setters and accessors, and `write`/
  `readFields` as methods with loops. `Write`, `WriteJobSet`, `ReadJobSet`,
  `ReadJobSets` and `ReadFields` are proved against the functions of
  `StatusCodec`. The job moves, setters and accessors state the new state
  or the value returned in terms of the old state.
- `Scenarios.dfy` (module `WorkflowScenarios`) — call sequences on the class
  and what they lead to: the lifecycle of a job, the set-once submission
  time, snapshot accessors, and a write followed by a read into a fresh or a
  non-empty tracker.

`HashSet` iteration order is unspecified. `writeJobSet` is therefore proved
for the order it actually uses, returned as a ghost `order`: every element of
the set exactly once. The round trip holds whatever that order is.

## Model

All source paths are under `src/mapred/org/apache/hadoop/mapred/workflow/`;
the table gives them in full.

| member | source | states |
|---|---|---|
| DataIO.ReadIntOfWriteInt | src/mapred/org/apache/hadoop/mapred/workflow/WorkflowStatus.java:236 | readInt applied to what writeInt wrote gives back the int and leaves the rest of the stream |
| DataIO.WriteIntOfReadInt | src/mapred/org/apache/hadoop/mapred/workflow/WorkflowStatus.java:257 | whatever four bytes readInt accepts are exactly the bytes writeInt emits for the int it returns, so the 4-byte count has one encoding per value |
| DataIO.ReadLongOfWriteLong | src/mapred/org/apache/hadoop/mapred/workflow/WorkflowStatus.java:226 | readLong applied to what writeLong wrote gives back the long (negative values and -1 included) and leaves the rest |
| DataIO.WriteLongOfReadLong | src/mapred/org/apache/hadoop/mapred/workflow/WorkflowStatus.java:247 | whatever eight bytes readLong accepts are exactly the bytes writeLong emits for the long it returns, so the submission time has one encoding per value |
| DataIO.ReadStringOfWriteString | src/mapred/org/apache/hadoop/mapred/workflow/WorkflowStatus.java:225 | Text.readString applied to what Text.writeString wrote gives back the string and leaves the rest of the stream |
| DataIO.ReadIdOfWriteId | src/mapred/org/apache/hadoop/mapred/workflow/WorkflowStatus.java:224 | WorkflowID.readFields applied to what WorkflowID.write wrote gives back the identifier and leaves the rest of the stream |
| DataIO.Value4OfOctets4 | src/mapred/org/apache/hadoop/mapred/workflow/WorkflowStatus.java:236 | the four big-endian bytes of a 32-bit pattern weigh back to the pattern |
| DataIO.Octets4OfValue4 | src/mapred/org/apache/hadoop/mapred/workflow/WorkflowStatus.java:257 | four bytes weighed into a pattern split back into the same four bytes |
| StatusCodec.SizeAsInt | src/mapred/org/apache/hadoop/mapred/workflow/WorkflowStatus.java:236 | the count written is the set's size when that fits in an int, and Integer.MAX_VALUE below the size otherwise |
| StatusCodec.EnumerationSize | src/mapred/org/apache/hadoop/mapred/workflow/WorkflowStatus.java:236-239 | an iteration that visits every element once has as many entries as the set, so the count written matches the names that follow |
| StatusCodec.TextsAhead | src/mapred/org/apache/hadoop/mapred/workflow/WorkflowStatus.java:257-259 | the names readJobSet's loop reads number at most the count and at most the tokens left |
| StatusCodec.TextsAheadIsLongestRun | src/mapred/org/apache/hadoop/mapred/workflow/WorkflowStatus.java:257-259 | each name the loop reads is the string token at its position, and a loop that stops short stops at the end of input or at a token that is not a string |
| StatusCodec.NamesAheadOfTextsAhead | src/mapred/org/apache/hadoop/mapred/workflow/WorkflowStatus.java:257-259 | reading n names succeeds exactly when the loop's run of strings reaches n, and then yields that run and what follows it |
| StatusCodec.JobSetAheadOfTextsAhead | src/mapred/org/apache/hadoop/mapred/workflow/WorkflowStatus.java:255-260 | readJobSet succeeds exactly when its loop reads the full count, with the names of that run; on failure the names it added are those of the run before the failing read |
| StatusCodec.NamesAheadOfTexts | src/mapred/org/apache/hadoop/mapred/workflow/WorkflowStatus.java:237-239 | reading back a run of written strings gives the same strings, in order, and the input after them |
| StatusCodec.JobSetRoundTrip | src/mapred/org/apache/hadoop/mapred/workflow/WorkflowStatus.java:234-240 | readJobSet applied to what writeJobSet wrote recovers exactly the set, for any iteration order, when the set has at most Integer.MAX_VALUE names |
| StatusCodec.NonPositiveCountReadsNothing | src/mapred/org/apache/hadoop/mapred/workflow/WorkflowStatus.java:257 | a count of zero or less reads no names, succeeds, and consumes only the count |
| StatusCodec.RepeatedNameCollapses | src/mapred/org/apache/hadoop/mapred/workflow/WorkflowStatus.java:258 | a name that appears twice on the wire is held once in the set read |
| StatusCodec.JobSetsRoundTrip | src/mapred/org/apache/hadoop/mapred/workflow/WorkflowStatus.java:228-231 | the four sets written prep, submitted, running, finished are read back in that order, each equal to the one written |
| StatusCodec.HeaderRoundTrip | src/mapred/org/apache/hadoop/mapred/workflow/WorkflowStatus.java:224-226 | the identifier, the failure info and the submission time are read back as written |
| StatusCodec.StatusRoundTrip | src/mapred/org/apache/hadoop/mapred/workflow/WorkflowStatus.java:223-253 | readFields applied to what write emits recovers the identifier, failure info, submission time and all four sets, and leaves the input after them |
| Workflow.WorkflowStatus.constructor | src/mapred/org/apache/hadoop/mapred/workflow/WorkflowStatus.java:38-54 | a new tracker has no identifier, run state PREP, failure info "NA", submission time -1 and four empty sets |
| Workflow.WorkflowStatus.WithId | src/mapred/org/apache/hadoop/mapred/workflow/WorkflowStatus.java:56-59 | the same start state, with the given identifier |
| Workflow.WorkflowStatus.AddPrepJob | src/mapred/org/apache/hadoop/mapred/workflow/WorkflowStatus.java:73-75 | prep gains the name; the other sets, the run state, the submission time, the failure info and the identifier are unchanged |
| Workflow.WorkflowStatus.AddSubmittedJob | src/mapred/org/apache/hadoop/mapred/workflow/WorkflowStatus.java:83-90 | the name leaves prep and joins submitted; PREP becomes SUBMITTED, any other state stays; the state never moves back |
| Workflow.WorkflowStatus.AddRunningJob | src/mapred/org/apache/hadoop/mapred/workflow/WorkflowStatus.java:96-103 | the name leaves submitted and joins running; only SUBMITTED becomes RUNNING, so PREP stays PREP |
| Workflow.WorkflowStatus.IsFinished | src/mapred/org/apache/hadoop/mapred/workflow/WorkflowStatus.java:160-163 | true exactly when no job name is in prep, submitted or running, whatever the finished set holds |
| Workflow.WorkflowStatus.AddFinishedJob | src/mapred/org/apache/hadoop/mapred/workflow/WorkflowStatus.java:110-117 | the name leaves running and joins finished; the state becomes SUCCEEDED exactly when prep, submitted and running are all empty afterwards, and is unchanged otherwise |
| Workflow.WorkflowStatus.GetPrepJobs | src/mapred/org/apache/hadoop/mapred/workflow/WorkflowStatus.java:124-126 | returns the prep set as a value, a copy that later changes to the tracker do not reach |
| Workflow.WorkflowStatus.GetSubmittedJobs | src/mapred/org/apache/hadoop/mapred/workflow/WorkflowStatus.java:133-135 | returns the submitted set as a copy |
| Workflow.WorkflowStatus.GetRunningJobs | src/mapred/org/apache/hadoop/mapred/workflow/WorkflowStatus.java:142-144 | returns the running set as a copy |
| Workflow.WorkflowStatus.GetFinishedJobs | src/mapred/org/apache/hadoop/mapred/workflow/WorkflowStatus.java:151-153 | returns the finished set as a copy |
| Workflow.WorkflowStatus.GetRunState | src/mapred/org/apache/hadoop/mapred/workflow/WorkflowStatus.java:170-172 | returns the current run state and changes nothing |
| Workflow.WorkflowStatus.GetSubmissionTime | src/mapred/org/apache/hadoop/mapred/workflow/WorkflowStatus.java:179-181 | returns the current submission time and changes nothing |
| Workflow.WorkflowStatus.SetSubmissionTime | src/mapred/org/apache/hadoop/mapred/workflow/WorkflowStatus.java:188-193 | in PREP it sets the time and moves to SUBMITTED; in any other state nothing changes |
| Workflow.WorkflowStatus.GetFailureInfo | src/mapred/org/apache/hadoop/mapred/workflow/WorkflowStatus.java:200-203 | returns the current failure info and changes nothing |
| Workflow.WorkflowStatus.SetFailureInfo | src/mapred/org/apache/hadoop/mapred/workflow/WorkflowStatus.java:211-213 | replaces the failure info in any state and changes nothing else |
| Workflow.WorkflowStatus.GetWorkflowId | src/mapred/org/apache/hadoop/mapred/workflow/WorkflowStatus.java:218-220 | returns the identifier, absent when the tracker was built without one |
| Workflow.WorkflowStatus.WriteJobSet | src/mapred/org/apache/hadoop/mapred/workflow/WorkflowStatus.java:234-240 | emits the set's size and then each name once, in an order that visits every element of the set exactly once |
| Workflow.WorkflowStatus.Write | src/mapred/org/apache/hadoop/mapred/workflow/WorkflowStatus.java:223-232 | without an identifier it fails before writing; otherwise it emits identifier, failure info, submission time and the four sets in the order prep, submitted, running, finished |
| Workflow.WorkflowStatus.ReadJobSet | src/mapred/org/apache/hadoop/mapred/workflow/WorkflowStatus.java:255-260 | succeeds exactly when the count and that many names can be read, and then adds the names decoded; on failure the names read before the error stay added; names are only ever added |
| Workflow.WorkflowStatus.ReadFields | src/mapred/org/apache/hadoop/mapred/workflow/WorkflowStatus.java:243-253 | succeeds exactly when the whole status decodes; then the identifier, failure info and submission time are the decoded ones and each set is its old contents plus the decoded names; the run state never changes; on a decode error each header field read before the error holds its decoded value and the others keep their old values (the identifier is the fresh blank one if it could not be read), and each set holds what its readJobSet call added before the error |
| Workflow.WorkflowStatus.ReadJobSets | src/mapred/org/apache/hadoop/mapred/workflow/WorkflowStatus.java:249-252 | the four readJobSet calls of readFields succeed together exactly when the four sets decode in order; whatever the outcome, a set before the failing read gains all its decoded names, the failing set gains the names read before the error, and the later sets are untouched; identifier, failure info, submission time and run state are untouched |
| WorkflowScenarios.FreshTracker | src/mapred/org/apache/hadoop/mapred/workflow/WorkflowStatus.java:39-54 | a new tracker reports PREP, -1 and "NA", and counts as finished although it has no jobs |
| WorkflowScenarios.OnlyFinishedJobsIsFinished | src/mapred/org/apache/hadoop/mapred/workflow/WorkflowStatus.java:160-163 | a tracker whose only job has finished counts as finished: finished jobs do not hold completion back |
| WorkflowScenarios.SingleJobLifecycle | src/mapred/org/apache/hadoop/mapred/workflow/WorkflowStatus.java:73-117 | one job through every stage gives the run states PREP, PREP, SUBMITTED, RUNNING, SUCCEEDED, and at the end prep, submitted and running are empty and finished holds just that job |
| WorkflowScenarios.JobInTwoSets | src/mapred/org/apache/hadoop/mapred/workflow/WorkflowStatus.java:73-103 | a job added to prep and then reported running is in both sets: the job moves do not keep the four sets disjoint |
| WorkflowScenarios.SubmissionTimeAfterSubmittedJob | src/mapred/org/apache/hadoop/mapred/workflow/WorkflowStatus.java:188-193 | after addSubmittedJob has moved the state to SUBMITTED, setSubmissionTime is ignored, so the workflow is SUBMITTED with the submission time still -1 |
| WorkflowScenarios.WaitingJobBlocksSuccess | src/mapred/org/apache/hadoop/mapred/workflow/WorkflowStatus.java:160-163 | a job still in prep keeps the workflow RUNNING when another job finishes |
| WorkflowScenarios.RunningBeforeSubmissionStaysPrep | src/mapred/org/apache/hadoop/mapred/workflow/WorkflowStatus.java:96-103 | a job reported running before any submission joins running while the state stays PREP |
| WorkflowScenarios.SubmissionTimeSetOnce | src/mapred/org/apache/hadoop/mapred/workflow/WorkflowStatus.java:188-193 | of two submission times set in a row, the first stays and the state is SUBMITTED |
| WorkflowScenarios.AccessorSnapshot | src/mapred/org/apache/hadoop/mapred/workflow/WorkflowStatus.java:124-126 | a set taken before a job is added does not see the job; one taken after does |
| WorkflowScenarios.Encode | src/mapred/org/apache/hadoop/mapred/workflow/WorkflowStatus.java:223-240 | what a tracker with an identifier writes decodes to exactly its own fields, with nothing left over |
| WorkflowScenarios.RoundTripHeader | src/mapred/org/apache/hadoop/mapred/workflow/WorkflowStatus.java:223-253 | a fresh tracker reading what another wrote succeeds, consumes it all, and holds the writer's identifier, failure info and submission time, while its run state stays PREP |
| WorkflowScenarios.RoundTripJobs | src/mapred/org/apache/hadoop/mapred/workflow/WorkflowStatus.java:223-260 | the same read gives the fresh tracker the writer's four sets |
| WorkflowScenarios.ReadAddsToExistingJobs | src/mapred/org/apache/hadoop/mapred/workflow/WorkflowStatus.java:255-260 | reading into a tracker that already has a prep job keeps that job beside the decoded ones |
| WorkflowScenarios.EmptyInputFails | src/mapred/org/apache/hadoop/mapred/workflow/WorkflowStatus.java:243-245 | reading from an empty stream fails and leaves the new blank identifier installed |

## Left out

- Locking: the `synchronized` accessors and setters are plain methods. Concurrent callers and the atomicity of each operation are not modelled.
- `WorkflowID` and `Text` encodings: `WorkflowID.write`/`readFields` and Hadoop's `Text.writeString`/`readString` (a VInt length and UTF-8 bytes) are other classes, not part of this model. Each is one opaque token whose reader returns it unchanged.
- `new WorkflowID()` in `readFields` is a call into code outside this model. It is the parameter `blank` of `Workflow.WorkflowStatus.ReadFields`.
- I/O: `IOException`s and stream plumbing become a decode result of `None` (the `ok` flag in the methods). The readers work on the remaining tokens instead of on a stream cursor. A token of the wrong kind counts as a decode error, though the real byte-level codecs might misread it instead.
- `write` on a tracker without an identifier throws a `NullPointerException` at WorkflowStatus.java:224, where `write` is called on the null `workflowId`. `Workflow.WorkflowStatus.Write` returns `None` for this case. `new WorkflowStatus(null)` (WorkflowStatus.java:56-59) builds such a tracker, but `Workflow.WorkflowStatus.WithId` takes a non-null identifier, so that route is not modelled; the no-argument constructor gives the same state.
- Strings: a Dafny `string` is never null and holds no lone surrogate, while a Java `String` can be either. `setFailureInfo(null)` or `addPrepJob(null)` (and the other job moves) would make `write` throw in `Text.writeString` (WorkflowStatus.java:225, :238); the model cannot express a null name or failure info. Hadoop's `Text` encodes an unpaired surrogate with a replacement character, so such a string would not survive a round trip; `StatusRoundTrip` and the other round-trip lemmas hold for the strings the model has.
- FAILED and KILLED are declared but no operation sets them. The invariant `Valid()` records that the run state is never one of them.
- Workflow.WorkflowStatus.ReadFields: on a decode error the contract does not say what is left of the input (`rest`); `readFields` throws there and the stream is not read further. The same holds for `ReadJobSet` and `ReadJobSets`.
- Workflow.WorkflowStatus.ReadJobSets: not a method of the source. It is the last four lines of `readFields`, split off so each proof stays small; `ReadFields` calls it at that point.
- The model follows the code, which differs from what a `Writable` decoder is often expected to do:
  - a negative count is read as "no names" and is not a decode error;
  - a failed `readFields` keeps everything it had decoded before the error, so decoding is not all-or-nothing;
  - `readFields` adds names to the sets the tracker already holds instead of replacing them;
  - the run state is not on the wire, so a reader keeps its own state (PREP when fresh) and does not reconstruct the writer's.
- The job moves follow the code, which keeps neither of two properties one might expect of a status tracker:
  - the four sets are not kept disjoint: `addRunningJob` removes the name from submitted only, so a name still in prep is in prep and running at once (`JobInTwoSets`);
  - a job submitted before `setSubmissionTime` is called moves the state to SUBMITTED, and `setSubmissionTime` then does nothing, so a submitted workflow can report -1, the "not submitted" time (`SubmissionTimeAfterSubmittedJob`).
- `Collection.size()` saturates at `Integer.MAX_VALUE` (`SizeAsInt`). The round-trip lemmas therefore require each set to have at most that many names. A larger set would be written with a count smaller than the number of names that follow.

/** The stored job and the updates that `transition` callers apply to it.
    Mirrors src/jobs/job.types.ts and the update functions written inline in
    job-runner.service.ts and jobs.service.ts. Job ids and timestamps are numbers;
    a timestamp is the instant its ISO string denotes. */
module JobModel {
  import opened Wrappers

  type JobId = nat

  datatype Status = Queued | Running | Succeeded | Failed | Cancelled

  predicate Terminal(status: Status) {
    status == Succeeded || status == Failed || status == Cancelled
  }

  predicate Active(status: Status) {
    status == Queued || status == Running
  }

  type FinalStatus = s: Status | Terminal(s) witness Failed

  datatype Mode = ExecMode | TmuxMode

  datatype SessionStatus = Starting | Live | Exited | Killed | Broken

  datatype Session = Session(status: SessionStatus, lastExitCode: Option<int>)

  datatype ErrorType = SpawnError | Timeout | NonZeroExit | CancelledError | ExecutionError | InvalidCwd

  /** A property of an execution record: missing, an explicit null, which no reader of the file accepts, or a value. */
  datatype Property<+T> = Unset | Nulled | Set(value: T)

  datatype Execution = Execution(
    command: string, timeoutMs: nat, maxOutputChars: nat,
    durationMs: Property<int>, timedOut: Property<bool>, outputTruncated: Property<bool>,
    errorType: Property<ErrorType>, recoveredFromRestart: bool)

  /** `isExecutionMetadata`. */
  predicate IntactExecution(e: Execution) {
    !e.durationMs.Nulled? && !e.timedOut.Nulled? && !e.outputTruncated.Nulled? && !e.errorType.Nulled?
  }

  // What the server itself puts together.
  type ServerExecution = e: Execution | IntactExecution(e)
    witness Execution("", 0, 0, Unset, Unset, Unset, Unset, false)

  /** The optional members of a create request that are stored as they come, an explicit null included. */
  datatype Member = RequestId | SourceMember | SourceName | OriginRoutingKey | NotifyUrl | Metadata

  datatype Source = Dispatch | Channel | OpenClaw | NullSource

  /** `(source, requestId)`; a job without a request id has no key. */
  datatype RequestKey = RequestKey(source: Option<Source>, requestId: string)

  datatype Notice = Notice(data: nat, attemptIndex: nat)

  datatype Job = Job(
    id: JobId, mode: Mode, key: Option<RequestKey>, queueOrder: nat, createdAt: nat,
    status: Status, startedAt: Option<nat>, finishedAt: Option<nat>,
    exitCode: Option<int>, stdout: string, stderr: string, execution: Execution,
    session: Option<Session>, notifyOutcome: Option<Notice>, notifyHistory: seq<Notice>, nulls: set<Member>)

  /** `isBridgeJob`: no reader accepts a file in which an optional member is an explicit null. */
  predicate Readable(job: Job) {
    job.nulls == {} && (job.key.Some? ==> job.key.value.source != Some(NullSource)) && IntactExecution(job.execution)
  }

  /** Everything a terminal transition decides. */
  datatype Report = Report(
    status: Status, stdout: string, stderr: string, exitCode: Option<int>,
    execution: Execution, finishedAt: Option<nat>, session: Option<Session>)

  function ReportOf(job: Job): Report {
    Report(job.status, job.stdout, job.stderr, job.exitCode, job.execution, job.finishedAt, job.session)
  }

  /** What an exec run or a tmux collection reports. */
  datatype RunResult = RunResult(
    status: FinalStatus, stdout: string, stderr: string, exitCode: Option<int>, execution: ServerExecution)

  /** What a job holds while it has not ended: no output, no exit code and no finish time, and a start time exactly while it
      runs. Once it has ended it has a finish time. */
  predicate Fitting(job: Job) {
    match job.status
    case Queued => job.startedAt.None? && Fruitless(job)
    case Running => job.startedAt.Some? && Fruitless(job)
    case _ => job.finishedAt.Some?
  }

  predicate Fruitless(job: Job) {
    job.finishedAt.None? && job.exitCode.None? && job.stdout == "" && job.stderr == ""
  }

  /** A property of a request body: not an own property, an own property holding
      undefined, an explicit null, or a value. */
  datatype Field<T> = Absent | Undefined | Null | Given(value: T)

  datatype ExecutionPatch = ExecutionPatch(
    durationMs: Field<int>, timedOut: Field<bool>, outputTruncated: Field<bool>, errorType: Field<ErrorType>)

  datatype CallbackInput = CallbackInput(
    status: FinalStatus, stdout: Field<string>, stderr: Field<string>, exitCode: Field<int>,
    execution: Option<ExecutionPatch>)

  // Only a property that is not undefined is copied; an explicit null is.
  function Patched<T>(current: Property<T>, patch: Field<T>): Property<T> {
    match patch
    case Given(value) => Set(value)
    case Null => Nulled
    case _ => current
  }

  function PatchExecution(current: Execution, patch: Option<ExecutionPatch>): Execution {
    if patch.None? then current else
      current.(durationMs := Patched(current.durationMs, patch.value.durationMs),
               timedOut := Patched(current.timedOut, patch.value.timedOut),
               outputTruncated := Patched(current.outputTruncated, patch.value.outputTruncated),
               errorType := Patched(current.errorType, patch.value.errorType))
  }

  const RESTART_INTERRUPTED_MESSAGE := "Process was interrupted by service restart before completion."

  /** One `update` argument of `JobQueueRepository.transition`, with the values it closes over. */
  datatype Op =
    | Claim(now: nat)
    | Requeue
    | SetSession(session: Session)
    | Finish(result: RunResult, now: nat)
    | Collect(result: RunResult, session: Session, now: nat)
    | FailRun(message: string, now: nat)
    | Recover(now: nat)
    | Callback(input: CallbackInput, now: nat)
    | CancelByApi(seenSession: Option<Session>, now: nat)

  function Expected(op: Op): set<Status> {
    match op
    case Claim(_) => {Queued}
    case Callback(_, _) => {Queued, Running}
    case CancelByApi(_, _) => {Queued, Running}
    case _ => {Running}
  }

  function Update(op: Op, job: Job): Job {
    match op
    case Claim(now) =>
      job.(status := Running, startedAt := Some(now), finishedAt := None, stdout := "", stderr := "")
    case Requeue =>
      job.(status := Queued, startedAt := None, finishedAt := None)
    case SetSession(session) =>
      job.(session := Some(session))
    case Finish(r, now) =>
      job.(status := r.status, finishedAt := Some(now), stdout := r.stdout, stderr := r.stderr,
           exitCode := r.exitCode, execution := r.execution)
    case Collect(r, session, now) =>
      job.(status := r.status, finishedAt := Some(now), stdout := r.stdout, stderr := r.stderr,
           exitCode := r.exitCode, execution := r.execution, session := Some(session))
    case FailRun(message, now) =>
      job.(status := Failed, finishedAt := Some(now),
           stderr := if job.stderr != "" then job.stderr else "Unexpected OMX execution error: " + message,
           execution := job.execution.(errorType := Set(ExecutionError)))
    case Recover(now) =>
      job.(status := Failed, finishedAt := Some(now), exitCode := None, stdout := "",
           stderr := if job.stderr != "" then job.stderr + "\n" + RESTART_INTERRUPTED_MESSAGE
                     else RESTART_INTERRUPTED_MESSAGE,
           execution := job.execution.(errorType := Set(ExecutionError), recoveredFromRestart := true))
    case Callback(input, now) =>
      job.(status := input.status, finishedAt := Some(now),
           exitCode := match input.exitCode
                       case Absent => job.exitCode
                       case Given(code) => Some(code)
                       case _ => None,
           stdout := if input.stdout.Given? then input.stdout.value else job.stdout,
           stderr := if input.stderr.Given? then input.stderr.value else job.stderr,
           execution := PatchExecution(job.execution, input.execution))
    case CancelByApi(seen, now) =>
      job.(session := if seen.Some? then seen else job.session,
           status := Cancelled, finishedAt := Some(now),
           stderr := if job.stderr != "" then job.stderr else "Cancelled by API request",
           execution := job.execution.(errorType := Set(CancelledError)))
  }

  /** No property of the execution part is an explicit null. */
  predicate NullFree(input: CallbackInput) {
    input.execution.Some? ==>
      var patch := input.execution.value;
      !patch.durationMs.Null? && !patch.timedOut.Null? && !patch.outputTruncated.Null? && !patch.errorType.Null?
  }

  /** The update leaves a file that no reader accepts. */
  predicate Spoils(op: Op) {
    op.Callback? && !NullFree(op.input)
  }

  // The execution properties that no request decides once the job exists.
  predicate SameServerFields(a: Execution, b: Execution) {
    && a.command == b.command && a.timeoutMs == b.timeoutMs && a.maxOutputChars == b.maxOutputChars
    && a.recoveredFromRestart == b.recoveredFromRestart
  }

  /** Only a claim makes a job running, only a requeue makes it queued, a session update leaves the
      status alone, and every other update ends the job; none touches identity or notification state.
      Only a finished run, a collection and recovery change execution properties the server owns. What was
      read is readable again afterwards, unless a callback put an explicit null into its execution record. */
  lemma UpdateShape(op: Op, job: Job)
    requires job.status in Expected(op)
    ensures var next := Update(op, job);
            && next.id == job.id && next.key == job.key && next.mode == job.mode
            && next.queueOrder == job.queueOrder && next.createdAt == job.createdAt
            && next.notifyHistory == job.notifyHistory && next.notifyOutcome == job.notifyOutcome
            && (next.status == Running <==> op.Claim? || op.SetSession?)
            && (next.status == Queued <==> op.Requeue?)
            && Active(job.status)
            && (Terminal(next.status) ==> next.finishedAt.Some?)
            && (Fitting(job) ==> Fitting(next))
            && (Readable(job) ==> (Readable(next) <==> !Spoils(op)))
            && (!op.Finish? && !op.Collect? && !op.Recover? ==> SameServerFields(job.execution, next.execution))
  {
  }

  /** `isEquivalentCallbackReplay`: strict equality for every own property of the input. */
  predicate MatchesString(field: Field<string>, stored: string) {
    field.Absent? || field == Given(stored)
  }

  // A stored exit code is null or a number, never undefined.
  predicate MatchesExitCode(field: Field<int>, stored: Option<int>) {
    match field
    case Absent => true
    case Undefined => false
    case Null => stored.None?
    case Given(code) => stored == Some(code)
  }

  // An execution property that is missing from the stored record reads as undefined.
  predicate MatchesExecution<T(==)>(field: Field<T>, stored: Property<T>) {
    match field
    case Absent => true
    case Undefined => stored.Unset?
    case Null => stored.Nulled?
    case Given(value) => stored == Set(value)
  }

  predicate EquivalentReplay(report: Report, input: CallbackInput) {
    && report.status == input.status
    && MatchesString(input.stdout, report.stdout)
    && MatchesString(input.stderr, report.stderr)
    && MatchesExitCode(input.exitCode, report.exitCode)
    && (input.execution.Some? ==>
          var patch := input.execution.value;
          && MatchesExecution(patch.durationMs, report.execution.durationMs)
          && MatchesExecution(patch.timedOut, report.execution.timedOut)
          && MatchesExecution(patch.outputTruncated, report.execution.outputTruncated)
          && MatchesExecution(patch.errorType, report.execution.errorType))
  }

  /** What a read of the job's file finds. */
  function Reread(job: Job): Option<Job> {
    if Readable(job) then Some(job) else None
  }

  /** A second delivery of `input` is answered as a replay: the job is found, and the bodies are equivalent. */
  predicate Recognised(found: Option<Job>, input: CallbackInput) {
    found.Some? && Terminal(found.value.status) && EquivalentReplay(ReportOf(found.value), input)
  }

  // An own but undefined property is not copied, yet the replay compares it with the stored value.
  predicate PatchRepeats<T>(current: Property<T>, field: Field<T>) {
    !field.Null? && (field.Undefined? ==> current.Unset?)
  }

  /** When sending the same callback twice is safe: the body carries no own property that
      the first delivery ignores but the replay comparison still looks at, and nothing that
      makes the stored job unreadable. */
  predicate Replayable(job: Job, input: CallbackInput) {
    && (input.stdout.Absent? || input.stdout.Given?)
    && (input.stderr.Absent? || input.stderr.Given?)
    && !input.exitCode.Undefined?
    && (input.execution.Some? ==>
          var patch := input.execution.value;
          && PatchRepeats(job.execution.durationMs, patch.durationMs)
          && PatchRepeats(job.execution.timedOut, patch.timedOut)
          && PatchRepeats(job.execution.outputTruncated, patch.outputTruncated)
          && PatchRepeats(job.execution.errorType, patch.errorType))
  }

  /** A callback that was accepted is recognised as its own replay exactly when it is replayable. */
  lemma AcceptedCallbackReplays(job: Job, input: CallbackInput, now: nat)
    requires Active(job.status) && Readable(job)
    ensures Recognised(Reread(Update(Callback(input, now), job)), input) <==> Replayable(job, input)
    ensures Reread(Update(Callback(input, now), job)).Some? <==> NullFree(input)
  {
  }

  /** A callback to a job that has ended is recognised as a replay exactly when nothing in its body is lost on the service
      and writing it would change nothing but the finish time; every other callback conflicts. */
  lemma ReplayChangesNothing(job: Job, input: CallbackInput, now: nat)
    requires Terminal(job.status) && Readable(job)
    ensures Recognised(Some(job), input) <==>
              Replayable(job, input) && Update(Callback(input, now), job) == job.(finishedAt := Some(now))
  {
  }

  // The body of a sender that reports a status and leaves out every optional property.
  function BareReport(status: FinalStatus): CallbackInput {
    CallbackInput(status, Undefined, Undefined, Undefined, None)
  }

  /** Validation gives a body of class `JobCallbackDto` every optional property as an own property, undefined
      where the sender left it out. Such a body is accepted, its second delivery is not recognised,
      and the same body without those properties is. */
  lemma BareReportIsNotReplayed(job: Job, status: FinalStatus, now: nat)
    requires Active(job.status) && Readable(job)
    ensures var next := Update(Callback(BareReport(status), now), job);
            && job.status in Expected(Callback(BareReport(status), now)) && next.status == status && Readable(next)
            && !Replayable(job, BareReport(status)) && !Recognised(Reread(next), BareReport(status))
            && Recognised(Reread(next), CallbackInput(status, Absent, Absent, Absent, None))
  {
  }

  // The body `{"status":"succeeded","stdout":"","stderr":"","exitCode":0,"execution":{"durationMs":null,
  // "timedOut":false,"outputTruncated":false,"errorType":"timeout"}}`.
  function NullDuration(): CallbackInput {
    CallbackInput(Succeeded, Given(""), Given(""), Given(0),
                  Some(ExecutionPatch(Null, Given(false), Given(false), Given(Timeout))))
  }

  /** A body with an explicit null in its execution part is accepted too; it has no undefined property and is
      equivalent to what it wrote, but what it wrote cannot be read, so that the second delivery finds no job. */
  lemma NullDurationIsNotReplayed(job: Job, now: nat)
    requires Active(job.status) && Readable(job)
    ensures var next := Update(Callback(NullDuration(), now), job);
            && job.status in Expected(Callback(NullDuration(), now)) && next.status == Succeeded
            && EquivalentReplay(ReportOf(next), NullDuration())
            && Reread(next).None? && !Recognised(Reread(next), NullDuration()) && !Replayable(job, NullDuration())
  {
  }
}

/** What a job ends with is what its winner delivered: every stored terminal job has the result of one run, collection,
    callback, cancellation, failure or recovery, as the event that brought it said. */
module JobOutcomes {
  import opened Wrappers
  import opened JobModel
  import opened JobProtocol
  import opened JobInvariants
  import opened JobStarts
  import opened JobTheorems
  import opened JobRuns

  // ----- what each contender delivers -----

  // A given field, or what was there.
  predicate Takes<T(==)>(field: Field<T>, before: T, after: T) {
    after == if field.Given? then field.value else before
  }

  // The same for an execution property, which may also become null.
  predicate TakesProperty<T(==)>(field: Field<T>, before: Property<T>, after: Property<T>) {
    match field
    case Given(value) => after == Set(value)
    case Null => after == Nulled
    case _ => after == before
  }

  predicate SameLimits(before: Execution, after: Execution) {
    after.command == before.command && after.timeoutMs == before.timeoutMs && after.maxOutputChars == before.maxOutputChars
  }

  // A run, or a collected session, replaces everything.
  predicate DeliversResult(r: RunResult, now: nat, after: Job) {
    && after.status == r.status && after.stdout == r.stdout && after.stderr == r.stderr && after.exitCode == r.exitCode
    && after.execution == r.execution && after.finishedAt == Some(now)
  }

  predicate DeliversCallback(input: CallbackInput, now: nat, before: Job, after: Job) {
    && after.status == input.status && after.finishedAt == Some(now)
    && Takes(input.stdout, before.stdout, after.stdout) && Takes(input.stderr, before.stderr, after.stderr)
    && (match input.exitCode
        case Given(code) => after.exitCode == Some(code)
        case Absent => after.exitCode == before.exitCode
        case _ => after.exitCode == None)
    && SameLimits(before.execution, after.execution)
    && after.execution.recoveredFromRestart == before.execution.recoveredFromRestart
    && (match input.execution
        case None => after.execution == before.execution
        case Some(patch) =>
          && TakesProperty(patch.durationMs, before.execution.durationMs, after.execution.durationMs)
          && TakesProperty(patch.timedOut, before.execution.timedOut, after.execution.timedOut)
          && TakesProperty(patch.outputTruncated, before.execution.outputTruncated, after.execution.outputTruncated)
          && TakesProperty(patch.errorType, before.execution.errorType, after.execution.errorType))
  }

  // An end that the service itself decides: the message stands in for an empty stderr.
  predicate DeliversError(status: Status, message: string, error: ErrorType, now: nat, before: Job, after: Job) {
    && after.status == status && after.finishedAt == Some(now) && after.stdout == before.stdout
    && after.stderr == (if before.stderr == "" then message else before.stderr) && after.exitCode == before.exitCode
    && SameLimits(before.execution, after.execution) && after.execution.errorType == Set(error)
    && after.execution.durationMs == before.execution.durationMs && after.execution.timedOut == before.execution.timedOut
    && after.execution.outputTruncated == before.execution.outputTruncated
    && after.execution.recoveredFromRestart == before.execution.recoveredFromRestart
  }

  // Recovery clears what the lost process had produced.
  predicate DeliversRecovery(now: nat, before: Job, after: Job) {
    && after.status == Failed && after.finishedAt == Some(now) && after.stdout == "" && after.exitCode == None
    && after.stderr == (if before.stderr == "" then RESTART_INTERRUPTED_MESSAGE
                        else before.stderr + "\n" + RESTART_INTERRUPTED_MESSAGE)
    && SameLimits(before.execution, after.execution) && after.execution.errorType == Set(ExecutionError)
    && after.execution.recoveredFromRestart
    && after.execution.durationMs == before.execution.durationMs && after.execution.timedOut == before.execution.timedOut
    && after.execution.outputTruncated == before.execution.outputTruncated
  }

  /** The job `after` has ended as the contender says, who found the job `before`. */
  predicate Delivers(op: Op, before: Job, after: Job) {
    match op
    case Finish(r, now) => DeliversResult(r, now, after)
    case Collect(r, session, now) => DeliversResult(r, now, after) && after.session == Some(session)
    case Callback(input, now) => DeliversCallback(input, now, before, after)
    case CancelByApi(seen, now) =>
      && DeliversError(Cancelled, "Cancelled by API request", CancelledError, now, before, after)
      && after.session == (if seen.Some? then seen else before.session)
    case FailRun(message, now) =>
      DeliversError(Failed, "Unexpected OMX execution error: " + message, ExecutionError, now, before, after)
    case Recover(now) => DeliversRecovery(now, before, after)
    case _ => false
  }

  lemma UpdateDelivers(op: Op, job: Job)
    requires Terminal(Update(op, job).status) && job.status in Expected(op)
    ensures Delivers(op, job, Update(op, job))
  {
  }

  /** An update that does not end the job touches one thing: the claim its start, the requeue takes the start back, and a
      session update stores the session. */
  lemma UpdateGoesOn(op: Op, job: Job)
    requires Fitting(job) && job.status in Expected(op) && !Terminal(Update(op, job).status)
    ensures Update(op, job) == match op
                               case Claim(now) => job.(status := Running, startedAt := Some(now))
                               case Requeue => job.(status := Queued, startedAt := None)
                               case SetSession(session) => job.(session := Some(session))
                               case _ => job
  {
  }

  // ----- where a contender comes from -----

  /** The event that brings a contender for job `id` into the service: the outcome of a run, one that cannot be started, a
      request or a collected session, or recovery. */
  predicate Offers(s: State, e: Event, t: TaskId, id: JobId, op: Op) {
    || (e == RunOutcome(t, op) && t in s.tasks && s.tasks[t].Executing? && s.tasks[t].id == id)
    || (e.RunDecide? && e.t == t && t in s.tasks && s.tasks[t].RunDeciding? && s.tasks[t].id == id
        && op == FailRun("executionMode=tmux requires tmux session runner support.", e.now))
    || e == OutsideOp(t, id, op) || e == RecoverJob(t, id, op)
  }

  predicate Contends(s: State, t: TaskId, id: JobId, op: Op) {
    t in s.tasks && s.tasks[t].Cas? && s.tasks[t].id == id && s.tasks[t].op == op && !op.Claim? && !op.Requeue?
  }

  // No task has become a contender or begun to execute.
  ghost predicate NoContender(s: State, s': State) {
    && (forall u :: u in s'.tasks && s'.tasks[u].Cas? && !s'.tasks[u].op.Claim? && !s'.tasks[u].op.Requeue? ==>
          u in s.tasks && s.tasks[u].Cas? && s.tasks[u].id == s'.tasks[u].id && s.tasks[u].op == s'.tasks[u].op)
    && (forall u :: u in s'.tasks && s'.tasks[u].Executing? ==> u in s.tasks && s.tasks[u] == s'.tasks[u])
  }

  lemma CreateContends(s: State, e: Event)
    requires Enabled(s, e)
    requires e.CreateArrive? || e.CreateEnter? || e.FindEnd? || e.CountEnd? || e.ListBegin? || e.ListRead?
    ensures NoContender(s, Apply(s, e))
  {
    hide ActiveIds;
  }

  lemma SaveContends(s: State, e: Event)
    requires Enabled(s, e) && (e.SaveLock? || e.SaveWrite?)
    ensures NoContender(s, Apply(s, e))
  {
    hide Written, Saved;
  }

  lemma CasContends(s: State, e: Event)
    requires Enabled(s, e) && (e.CasLock? || e.CasRead? || e.CasWrite?)
    ensures NoContender(s, Apply(s, e))
  {
    hide Replaced, Update, Expected;
  }

  lemma ClaimReturnContends(s: State, t: TaskId, t': TaskId)
    requires CanCasReturn(s, t, t') && (s.tasks[t].role.Claiming? || s.tasks[t].role.ClaimRequeue?)
    ensures NoContender(s, DoCasReturn(s, t, t'))
  {
  }

  lemma RunReturnContends(s: State, t: TaskId, t': TaskId)
    requires CanCasReturn(s, t, t') && (s.tasks[t].role.RunRequeue? || s.tasks[t].role.RunFinish?)
    ensures NoContender(s, DoCasReturn(s, t, t'))
  {
    hide Announced;
  }

  lemma OutsideReturnContends(s: State, t: TaskId, t': TaskId)
    requires CanCasReturn(s, t, t') && s.tasks[t].role.Outside?
    ensures NoContender(s, DoCasReturn(s, t, t'))
  {
    hide Announced;
  }

  lemma ReturnContends(s: State, t: TaskId, t': TaskId)
    requires CanCasReturn(s, t, t')
    ensures NoContender(s, DoCasReturn(s, t, t'))
  {
    hide NoContender, DoCasReturn;
    if s.tasks[t].role.Claiming? || s.tasks[t].role.ClaimRequeue? {
      ClaimReturnContends(s, t, t');
    } else if s.tasks[t].role.Outside? {
      OutsideReturnContends(s, t, t');
    } else {
      RunReturnContends(s, t, t');
    }
  }

  lemma ClaimContends(s: State, e: Event)
    requires Enabled(s, e) && (e.Tick? || e.ClaimEnter? || e.ClaimPick? || e.RunRead? || e.RunEnd?)
    ensures NoContender(s, Apply(s, e))
  {
    hide SortedListing, RunningIds, FirstClaimable;
  }

  lemma NotifyContends(s: State, e: Event)
    requires e.NotifyStart? || e.PersistEnter? || e.PersistRead? || e.CleanupStart? || e.CleanupPick? || e.DeleteOne?
    requires Enabled(s, e)
    ensures NoContender(s, Apply(s, e))
  {
    hide WithNotice;
  }

  lemma LifecycleContends(s: State, e: Event)
    requires Enabled(s, e) && (e.Shutdown? || e.Crash? || e.ServeStart?)
    ensures NoContender(s, Apply(s, e))
  {
  }

  // The four events that bring one.
  predicate Brings(e: Event) {
    e.RunDecide? || e.RunOutcome? || e.OutsideOp? || e.RecoverJob?
  }

  lemma QuietContends(s: State, e: Event)
    requires Enabled(s, e) && !Brings(e)
    ensures NoContender(s, Apply(s, e))
  {
    if e.CasReturn? {
      ReturnContends(s, e.t, e.t');
    } else {
      hide NoContender, Enabled, Apply;
      if e.CreateArrive? || e.CreateEnter? || e.FindEnd? || e.CountEnd? || e.ListBegin? || e.ListRead? {
        CreateContends(s, e);
      } else if e.SaveLock? || e.SaveWrite? {
        SaveContends(s, e);
      } else if e.CasLock? || e.CasRead? || e.CasWrite? {
        CasContends(s, e);
      } else if e.Tick? || e.ClaimEnter? || e.ClaimPick? || e.RunRead? || e.RunEnd? {
        ClaimContends(s, e);
      } else if e.Shutdown? || e.Crash? || e.ServeStart? {
        LifecycleContends(s, e);
      } else {
        NotifyContends(s, e);
      }
    }
  }

  lemma OfferStep(s: State, e: Event, t: TaskId, id: JobId, op: Op)
    requires Enabled(s, e) && Contends(Apply(s, e), t, id, op)
    ensures Contends(s, t, id, op) || Offers(s, e, t, id, op)
  {
    if Brings(e) {
      BroughtStep(s, e, t, id, op);
    } else {
      hide Enabled, Apply;
      QuietContends(s, e);
    }
  }

  lemma BroughtStep(s: State, e: Event, t: TaskId, id: JobId, op: Op)
    requires Brings(e) && Enabled(s, e) && Contends(Apply(s, e), t, id, op)
    ensures Contends(s, t, id, op) || Offers(s, e, t, id, op)
  {
    hide Survives;
  }

  // ----- every run -----

  ghost predicate OfferedAt(config: Config, run: seq<Event>, j: nat, t: TaskId, id: JobId, op: Op) {
    j < |run| && Valid(Init(config), run[..j]) && Offers(Exec(Init(config), run[..j]), run[j], t, id, op)
  }

  lemma OfferedEarlier(config: Config, run: seq<Event>, e: Event, j: nat, t: TaskId, id: JobId, op: Op)
    requires OfferedAt(config, run, j, t, id, op)
    ensures OfferedAt(config, run + [e], j, t, id, op)
  {
    assert (run + [e])[..j] == run[..j];
  }

  lemma {:induction false} OfferedRun(config: Config, run: seq<Event>, t: TaskId, id: JobId, op: Op) returns (j: nat)
    requires Valid(Init(config), run) && Contends(Exec(Init(config), run), t, id, op)
    ensures OfferedAt(config, run, j, t, id, op)
    decreases |run|
  {
    j := |run| - 1;
    Prefix(Init(config), run, j);
    assert run[..j] + [run[j]] == run && run[..j + 1] == run;
    hide Enabled, Apply, Offers;
    OfferStep(Exec(Init(config), run[..j]), run[j], t, id, op);
    if Contends(Exec(Init(config), run[..j]), t, id, op) {
      var last := j;
      j := OfferedRun(config, run[..last], t, id, op);
      OfferedEarlier(config, run[..last], run[last], j, t, id, op);
    }
  }

  /** Step `k` writes `after` over the active job that is stored, for the contender that step `j` brought. */
  ghost predicate DecidedAt(config: Config, run: seq<Event>, j: nat, k: nat, id: JobId, op: Op, after: Job) {
    && j < k < |run| && run[k].CasWrite? && Valid(Init(config), run[..k])
    && var s := Exec(Init(config), run[..k]);
       && Contends(s, run[k].t, id, op) && OfferedAt(config, run, j, run[k].t, id, op)
       && id in s.disk.store && (s.disk.store[id].status == Queued || s.disk.store[id].status == Running)
       && Delivers(op, s.disk.store[id], after)
  }

  lemma DecidedEarlier(config: Config, run: seq<Event>, e: Event, j: nat, k: nat, id: JobId, op: Op, after: Job)
    requires DecidedAt(config, run, j, k, id, op, after)
    ensures DecidedAt(config, run + [e], j, k, id, op, after)
  {
    assert (run + [e])[..k] == run[..k];
    OfferedEarlier(config, run, e, j, run[k].t, id, op);
  }

  // A report appears only by the write of a contender.
  lemma ReportAppears(s: State, e: Event, id: JobId)
    requires Core(s) && Enabled(s, e) && id !in s.disk.reports && id in Apply(s, e).disk.reports
    ensures e.CasWrite? && s.tasks[e.t].id == id && Contends(s, e.t, id, s.tasks[e.t].op)
    ensures id in s.disk.store && s.disk.store[id].status in Expected(s.tasks[e.t].op) && Active(s.disk.store[id].status)
    ensures var next := Update(s.tasks[e.t].op, s.disk.store[id]);
            Terminal(next.status) && Apply(s, e).disk.reports[id] == ReportOf(next)
  {
    if e.CasWrite? {
      WriteReports(s, e.t, id);
    } else if !Writes(e) {
      OnlyWritesTouchFiles(s, e);
    }
  }

  lemma WriteReports(s: State, t: TaskId, id: JobId)
    requires Core(s) && CanCasWrite(s, t) && id !in s.disk.reports && id in DoCasWrite(s, t).disk.reports
    ensures s.tasks[t].id == id && Contends(s, t, id, s.tasks[t].op)
    ensures id in s.disk.store && s.disk.store[id].status in Expected(s.tasks[t].op) && Active(s.disk.store[id].status)
    ensures var next := Update(s.tasks[t].op, s.disk.store[id]);
            Terminal(next.status) && DoCasWrite(s, t).disk.reports[id] == ReportOf(next)
  {
    hide DiskOk, JobOk, QuietOk, Update, Readable, ReportOf;
    WriterReads(s, t);
    assert TaskOk(s.disk, s.locks, t, s.tasks[t]);
    UpdateShape(s.tasks[t].op, s.tasks[t].phase.seen);
  }

  lemma {:induction false} ReportDecided(config: Config, run: seq<Event>, id: JobId)
    returns (j: nat, k: nat, op: Op, after: Job)
    requires Valid(Init(config), run) && id in Exec(Init(config), run).disk.reports
    ensures DecidedAt(config, run, j, k, id, op, after) && Exec(Init(config), run).disk.reports[id] == ReportOf(after)
    decreases |run|
  {
    var last := |run| - 1;
    Prefix(Init(config), run, last);
    var s := Exec(Init(config), run[..last]);
    assert run[..last] + [run[last]] == run && run[..last + 1] == run;
    hide Enabled, Apply, Update, Delivers, ReportOf, Expected, Contends;
    if id in s.disk.reports {
      ReportsStep(s, run[last]);
      j, k, op, after := ReportDecided(config, run[..last], id);
      DecidedEarlier(config, run[..last], run[last], j, k, id, op, after);
    } else {
      InvInit(config);
      InvRun(Init(config), run[..last]);
      ReportAppears(s, run[last], id);
      k, op := last, s.tasks[run[last].t].op;
      after := Update(op, s.disk.store[id]);
      UpdateDelivers(op, s.disk.store[id]);
      j := OfferedRun(config, run[..last], run[last].t, id, op);
      OfferedEarlier(config, run[..last], run[last], j, run[last].t, id, op);
    }
  }

  lemma SameDelivery(op: Op, before: Job, a: Job, b: Job)
    requires Delivers(op, before, a) && ReportOf(a) == ReportOf(b)
    ensures Delivers(op, before, b)
  {
  }

  lemma StoredDecision(config: Config, run: seq<Event>, j: nat, k: nat, id: JobId, op: Op, a: Job, b: Job)
    requires DecidedAt(config, run, j, k, id, op, a) && ReportOf(a) == ReportOf(b)
    ensures DecidedAt(config, run, j, k, id, op, b)
  {
    hide Delivers, ReportOf, Enabled, Apply;
    SameDelivery(op, Exec(Init(config), run[..k]).disk.store[id], a, b);
  }

  /** In every reachable state a stored job that has ended holds what a contender delivered: one that an earlier event
      brought into the service, and that found the job queued or running when it wrote. */
  lemma EndedJobsAreDelivered(config: Config, run: seq<Event>, id: JobId)
    requires Valid(Init(config), run) && id in Exec(Init(config), run).disk.store
    requires var status := Exec(Init(config), run).disk.store[id].status; status != Queued && status != Running
    ensures exists j: nat, k: nat, op: Op ::
              DecidedAt(config, run, j, k, id, op, Exec(Init(config), run).disk.store[id])
  {
    var s := Exec(Init(config), run);
    InvInit(config);
    InvRun(Init(config), run);
    assert JobOk(s.disk, id, s.disk.store[id]);
    hide Inv, DecidedAt, Exec, Valid, Readable;
    var j, k, op, after := ReportDecided(config, run, id);
    StoredDecision(config, run, j, k, id, op, after, s.disk.store[id]);
  }
}

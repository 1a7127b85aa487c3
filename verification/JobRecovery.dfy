/** Restarts: no interrupted job stays running. In a serving process every running exec job is carried on by a pending task;
    before a process serves, each job that was running is collected, passed over as a live session, or ended as
    interrupted. */
module JobRecovery {
  import opened Wrappers
  import opened JobModel
  import opened JobProtocol
  import opened JobInvariants
  import opened JobStarts
  import opened JobLoad
  import opened JobOrder
  import opened JobTheorems
  import opened JobOutcomes

  // ----- who carries a running job on -----

  /** The task will end job `id`, or give it back to the queue. */
  predicate Carries(task: Task, id: JobId) {
    match task
    case Cas(i, op, role, phase) =>
      && i == id
      && (match role
          case Claiming => phase.Returned? && phase.done.Some?
          case ClaimRequeue => !phase.Returned?
          case RunRequeue => !phase.Returned?
          case RunFinish => !phase.Returned? && (op.Finish? || op.FailRun?)
          case Outside => false)
    case RunReading(i) => i == id
    case RunDeciding(i, read) => i == id && read.Some? && read.value.status == Running && read.value.mode == ExecMode
    case Executing(i, mode) => i == id && mode == ExecMode
    case _ => false
  }

  predicate RunningExec(s: State, id: JobId) {
    id in s.disk.store && s.disk.store[id].status == Running && s.disk.store[id].mode == ExecMode
  }

  ghost predicate Carried(s: State, id: JobId) {
    exists t :: t in s.tasks && Carries(s.tasks[t], id)
  }

  ghost predicate AllCarried(s: State) {
    s.serving ==> forall id :: RunningExec(s, id) ==> Carried(s, id)
  }

  // Task `t` goes on carrying job `id`, unless the job no longer runs.
  ghost predicate CarriesOn(s: State, s': State, t: TaskId) {
    forall id :: t in s.tasks && Carries(s.tasks[t], id) && RunningExec(s', id) ==> t in s'.tasks && Carries(s'.tasks[t], id)
  }

  // The tasks besides `t` are as they were.
  ghost predicate OthersKept(s: State, s': State, t: TaskId) {
    forall u :: u in s.tasks && u != t ==> u in s'.tasks && s'.tasks[u] == s.tasks[u]
  }

  lemma CreateCarries(s: State, e: Event)
    requires Enabled(s, e)
    requires e.CreateArrive? || e.CreateEnter? || e.FindEnd? || e.CountEnd? || e.ListBegin? || e.ListRead?
    ensures CarriesOn(s, Apply(s, e), e.t) && OthersKept(s, Apply(s, e), e.t)
  {
    hide ActiveIds;
  }

  lemma SaveCarries(s: State, e: Event)
    requires Enabled(s, e) && (e.SaveLock? || e.SaveWrite? || e.CasLock?)
    ensures CarriesOn(s, Apply(s, e), e.t) && OthersKept(s, Apply(s, e), e.t)
  {
    hide Written, Saved;
  }

  lemma CasReadCarries(s: State, t: TaskId)
    requires Core(s) && CanCasRead(s, t)
    ensures CarriesOn(s, DoCasRead(s, t), t) && OthersKept(s, DoCasRead(s, t), t)
  {
    hide DiskOk, QuietOk;
    assert TaskOk(s.disk, s.locks, t, s.tasks[t]);
  }

  lemma CasWriteCarries(s: State, t: TaskId)
    requires Core(s) && CanCasWrite(s, t)
    ensures CarriesOn(s, DoCasWrite(s, t), t) && OthersKept(s, DoCasWrite(s, t), t)
  {
    hide DiskOk, QuietOk, Update, Readable, ReportOf;
    assert TaskOk(s.disk, s.locks, t, s.tasks[t]);
    UpdateShape(s.tasks[t].op, s.tasks[t].phase.seen);
  }

  lemma ReturnCarries(s: State, t: TaskId, t': TaskId)
    requires CanCasReturn(s, t, t')
    ensures CarriesOn(s, DoCasReturn(s, t, t'), t) && OthersKept(s, DoCasReturn(s, t, t'), t)
  {
    hide Announced;
  }

  lemma ClaimCarries(s: State, e: Event)
    requires Enabled(s, e) && (e.Tick? || e.ClaimEnter? || e.ClaimPick?)
    ensures CarriesOn(s, Apply(s, e), e.t) && OthersKept(s, Apply(s, e), e.t)
  {
    hide SortedListing, RunningIds, FirstClaimable;
  }

  lemma RunCarries(s: State, e: Event)
    requires e.RunRead? || e.RunDecide? || e.RunOutcome? || e.RunEnd? || e.OutsideOp? || e.RecoverJob?
    requires Enabled(s, e)
    ensures CarriesOn(s, Apply(s, e), e.t) && OthersKept(s, Apply(s, e), e.t)
  {
    hide Survives;
  }

  lemma NotifyCarries(s: State, e: Event)
    requires e.NotifyStart? || e.PersistEnter? || e.PersistRead? || e.CleanupStart? || e.CleanupPick? || e.DeleteOne?
    requires Enabled(s, e)
    ensures CarriesOn(s, Apply(s, e), e.t) && OthersKept(s, Apply(s, e), e.t)
  {
    hide WithNotice;
  }

  lemma EventCarries(s: State, e: Event)
    requires Core(s) && Enabled(s, e) && !e.Crash? && !e.ServeStart? && !e.Shutdown?
    ensures CarriesOn(s, Apply(s, e), e.t) && OthersKept(s, Apply(s, e), e.t)
  {
    if e.CasReturn? {
      ReturnCarries(s, e.t, e.t');
    } else if e.CasRead? {
      CasReadCarries(s, e.t);
    } else if e.CasWrite? {
      CasWriteCarries(s, e.t);
    } else {
      hide Core, CarriesOn, OthersKept, Enabled, Apply;
      if e.CreateArrive? || e.CreateEnter? || e.FindEnd? || e.CountEnd? || e.ListBegin? || e.ListRead? {
        CreateCarries(s, e);
      } else if e.SaveLock? || e.SaveWrite? || e.CasLock? {
        SaveCarries(s, e);
      } else if e.Tick? || e.ClaimEnter? || e.ClaimPick? {
        ClaimCarries(s, e);
      } else if e.RunRead? || e.RunDecide? || e.RunOutcome? || e.RunEnd? || e.OutsideOp? || e.RecoverJob? {
        RunCarries(s, e);
      } else {
        NotifyCarries(s, e);
      }
    }
  }

  // A job begins to run only by a claim, whose task carries it.
  lemma BeginsCarried(s: State, e: Event, id: JobId)
    requires Inv(s) && Enabled(s, e) && RunningExec(Apply(s, e), id) && !RunningExec(s, id)
    ensures e.CasWrite? && Carried(Apply(s, e), id)
  {
    if e.CasWrite? && s.tasks[e.t].id == id {
      ClaimCarried(s, e.t);
    } else {
      hide Tokens, LoadOk, ViewsFresh, Update, Readable;
      MoveLegal(s, e, id);
    }
  }

  lemma ClaimCarried(s: State, t: TaskId)
    requires Core(s) && CanCasWrite(s, t) && RunningExec(DoCasWrite(s, t), s.tasks[t].id) && !RunningExec(s, s.tasks[t].id)
    ensures Carries(DoCasWrite(s, t).tasks[t], s.tasks[t].id)
  {
    hide DiskOk, QuietOk, Update, Readable, ReportOf;
    assert TaskOk(s.disk, s.locks, t, s.tasks[t]);
    UpdateShape(s.tasks[t].op, s.tasks[t].phase.seen);
  }

  lemma AllCarriedKept(s: State, e: Event)
    requires Inv(s) && AllCarried(s) && Enabled(s, e)
    ensures AllCarried(Apply(s, e))
  {
    if e.Crash? || e.ServeStart? || e.Shutdown? {
      LifecycleCarried(s, e);
    } else {
      var s' := Apply(s, e);
      EventCarries(s, e);
      assert s'.serving == s.serving by { ConfigStep(s, e); }
      hide Inv, Enabled, Apply;
      forall id | s'.serving && RunningExec(s', id) ensures Carried(s', id) {
        if RunningExec(s, id) {
          var t :| t in s.tasks && Carries(s.tasks[t], id);
          assert t in s'.tasks && Carries(s'.tasks[t], id);
        } else {
          BeginsCarried(s, e, id);
        }
      }
    }
  }

  lemma LifecycleCarried(s: State, e: Event)
    requires AllCarried(s) && Enabled(s, e) && (e.Crash? || e.ServeStart? || e.Shutdown?)
    ensures AllCarried(Apply(s, e))
  {
    if e.Shutdown? {
      var s' := Apply(s, e);
      forall id | s'.serving && RunningExec(s', id) ensures Carried(s', id) {
        assert RunningExec(s, id);
        var t :| t in s.tasks && Carries(s.tasks[t], id);
        assert t in s'.tasks;
      }
    }
  }

  lemma {:induction false} CarriedRun(s: State, run: seq<Event>)
    requires Inv(s) && AllCarried(s) && Valid(s, run)
    ensures AllCarried(Exec(s, run))
    decreases |run|
  {
    hide Inv, AllCarried, Enabled, Apply;
    if run != [] {
      AllCarriedKept(s, run[0]);
      InvKept(s, run[0]);
      CarriedRun(Apply(s, run[0]), run[1..]);
    }
  }

  /** In every reachable state of a serving process, an exec job that is stored as running is carried on by a pending task
      of this process: it is being claimed, given back, run, or ended. */
  lemma NoRunningJobIsLost(config: Config, run: seq<Event>, id: JobId)
    requires Valid(Init(config), run) && Exec(Init(config), run).serving
    requires id in Exec(Init(config), run).disk.store && Exec(Init(config), run).disk.store[id].status == Running
    requires Exec(Init(config), run).disk.store[id].mode == ExecMode
    ensures exists t :: t in Exec(Init(config), run).tasks && Carries(Exec(Init(config), run).tasks[t], id)
  {
    InvInit(config);
    CarriedRun(Init(config), run);
    hide Inv, Exec, Valid, Carries;
    assert RunningExec(Exec(Init(config), run), id);
  }

  // ----- restart -----

  /** Recovery ends exactly the running jobs that are not tmux jobs with a live session, and before the process serves none
      but these is left running. */
  lemma RestartIsThorough(config: Config, run: seq<Event>, t: TaskId, id: JobId, now: nat)
    requires Valid(Init(config), run) && t !in Exec(Init(config), run).tasks && !Exec(Init(config), run).serving
    requires id in Exec(Init(config), run).disk.store && Exec(Init(config), run).disk.store[id].status == Running
    ensures var s := Exec(Init(config), run); var job := s.disk.store[id];
            var live := job.mode == TmuxMode && job.session.Some? && job.session.value.status == Live;
            && (Enabled(s, RecoverJob(t, id, Recover(now))) <==> !live)
            && (Enabled(s, ServeStart) ==> live)
  {
    hide Exec, Valid;
  }

  // Who may write a job that was found running when the process started.
  predicate MayEnd(op: Op, job: Job) {
    || (op.Recover? && !(job.mode == TmuxMode && job.session.Some? && job.session.value.status == Live))
    || (op.Collect? && job.mode == TmuxMode)
  }

  /** Since the process started, a job that was running then has been left alone, or has ended by recovery or collection. */
  ghost predicate Recovering(s: State, id: JobId, job: Job) {
    && !s.serving
    && (forall t :: t in s.tasks && s.tasks[t].Cas? && s.tasks[t].id == id ==> MayEnd(s.tasks[t].op, job))
    && (Untouched(s, id, job) || EndedSince(s, id, job))
  }

  predicate Untouched(s: State, id: JobId, job: Job) {
    id in s.disk.store && s.disk.store[id] == job && id !in s.disk.reports
  }

  ghost predicate EndedSince(s: State, id: JobId, job: Job) {
    id in s.disk.reports && exists op, after :: MayEnd(op, job) && Delivers(op, job, after) && s.disk.reports[id] == ReportOf(after)
  }

  lemma RecoveryTasks(s: State, e: Event, id: JobId, job: Job)
    requires Core(s) && Recovering(s, id, job) && Enabled(s, e) && !e.Crash? && !e.ServeStart?
    ensures forall t :: t in Apply(s, e).tasks && Apply(s, e).tasks[t].Cas? && Apply(s, e).tasks[t].id == id ==>
              MayEnd(Apply(s, e).tasks[t].op, job)
  {
    var s' := Apply(s, e);
    CoreKept(s, e);
    assert !s'.serving by { ConfigStep(s, e); }
    forall t | t in s'.tasks && s'.tasks[t].Cas? && s'.tasks[t].id == id ensures MayEnd(s'.tasks[t].op, job) {
      RecoveryTask(s, e, t, id, job);
    }
  }

  lemma RecoveryTask(s: State, e: Event, t: TaskId, id: JobId, job: Job)
    requires Core(s) && Recovering(s, id, job) && Enabled(s, e) && Core(Apply(s, e)) && !Apply(s, e).serving
    requires t in Apply(s, e).tasks && Apply(s, e).tasks[t].Cas? && Apply(s, e).tasks[t].id == id
    ensures MayEnd(Apply(s, e).tasks[t].op, job)
  {
    var op := Apply(s, e).tasks[t].op;
    QuietOp(Apply(s, e), t);
    OfferStep(s, e, t, id, op);
    if !Contends(s, t, id, op) {
      OfferedQuietly(s, e, t, id, op);
      hide Core, Apply, EndedSince;
      RecoveredIsStored(s, id, job);
    }
  }

  // In a process that does not serve yet, only recovery and collection are under way.
  lemma QuietOp(s: State, t: TaskId)
    requires Core(s) && !s.serving && t in s.tasks && s.tasks[t].Cas?
    ensures Contends(s, t, s.tasks[t].id, s.tasks[t].op)
  {
    hide DiskOk;
    assert TaskOk(s.disk, s.locks, t, s.tasks[t]) && Background(s.tasks[t]);
  }

  lemma OfferedQuietly(s: State, e: Event, t: TaskId, id: JobId, op: Op)
    requires Core(s) && !s.serving && Enabled(s, e) && Offers(s, e, t, id, op)
    ensures e == RecoverJob(t, id, op)
  {
    if e.OutsideOp? {
      OutsideServes(s, t, id, op);
    }
    hide DiskOk, TasksOk, Enabled;
    assert t in s.tasks ==> Background(s.tasks[t]);
  }

  lemma OutsideServes(s: State, t: TaskId, id: JobId, op: Op)
    requires Enabled(s, OutsideOp(t, id, op))
    ensures s.serving
  {
  }

  // A job that has ended is not stored as running.
  lemma RecoveredIsStored(s: State, id: JobId, job: Job)
    requires Recovering(s, id, job)
    ensures id in s.disk.store && id !in s.disk.reports ==> s.disk.store[id] == job
  {
  }

  lemma RecoveryFile(s: State, e: Event, id: JobId, job: Job)
    requires Core(s) && Recovering(s, id, job) && job.status == Running && Enabled(s, e) && !e.Crash? && !e.ServeStart?
    ensures Untouched(Apply(s, e), id, job) || EndedSince(Apply(s, e), id, job)
  {
    ReportsStep(s, e);
    if Untouched(s, id, job) {
      if id in Apply(s, e).disk.reports {
        ReportAppears(s, e, id);
        var op := s.tasks[e.t].op;
        assert MayEnd(op, job);
        UpdateDelivers(op, job);
        hide Apply, Enabled, Core, Delivers, Update, ReportOf;
        assert EndedSince(Apply(s, e), id, job);
      } else {
        UntouchedKept(s, e, id, job);
      }
    }
  }

  lemma UntouchedKept(s: State, e: Event, id: JobId, job: Job)
    requires Core(s) && Recovering(s, id, job) && job.status == Running && Untouched(s, id, job)
    requires Enabled(s, e) && id !in Apply(s, e).disk.reports && !e.Crash? && !e.ServeStart?
    ensures Untouched(Apply(s, e), id, job)
  {
    MoveLegal(s, e, id);
    CoreKept(s, e);
    if e.CasWrite? && s.tasks[e.t].id == id {
      EndsIt(s, e.t, id, job);
    }
  }

  // A recovery or a collection that writes leaves a report.
  lemma EndsIt(s: State, t: TaskId, id: JobId, job: Job)
    requires Core(s) && CanCasWrite(s, t) && s.tasks[t].id == id && MayEnd(s.tasks[t].op, job) && id !in s.disk.reports
    ensures id in DoCasWrite(s, t).disk.reports
  {
    hide DiskOk, QuietOk, Update, Readable, ReportOf;
    assert TaskOk(s.disk, s.locks, t, s.tasks[t]);
    UpdateShape(s.tasks[t].op, s.tasks[t].phase.seen);
  }

  lemma RecoveringKept(s: State, e: Event, id: JobId, job: Job)
    requires Inv(s) && Recovering(s, id, job) && job.status == Running && Enabled(s, e) && !e.Crash? && !e.ServeStart?
    ensures Recovering(Apply(s, e), id, job)
  {
    hide Tokens, LoadOk, ViewsFresh, Untouched, EndedSince, MayEnd;
    RecoveryTasks(s, e, id, job);
    RecoveryFile(s, e, id, job);
    ConfigStep(s, e);
  }

  /** The process has not begun to serve, and does not crash again. */
  predicate Starting(run: seq<Event>) {
    forall i :: 0 <= i < |run| ==> !run[i].Crash? && !run[i].ServeStart?
  }

  lemma {:induction false} RecoveringRun(s: State, run: seq<Event>, id: JobId, job: Job)
    requires Inv(s) && Recovering(s, id, job) && job.status == Running && Valid(s, run) && Starting(run)
    ensures Inv(Exec(s, run)) && Recovering(Exec(s, run), id, job)
    decreases |run|
  {
    hide Inv, Recovering, Enabled, Apply;
    if run != [] {
      assert Starting(run[1..]) by {
        assert forall i :: 0 <= i < |run[1..]| ==> run[1..][i] == run[i + 1];
      }
      RecoveringKept(s, run[0], id, job);
      InvKept(s, run[0]);
      RecoveringRun(Apply(s, run[0]), run[1..], id, job);
    }
  }

  lemma CrashStartsRecovery(s: State, config: Config, id: JobId)
    requires Inv(s) && id in s.disk.store && s.disk.store[id].status == Running
    ensures Inv(DoCrash(s, config)) && Recovering(DoCrash(s, config), id, s.disk.store[id])
  {
    assert JobOk(s.disk, id, s.disk.store[id]);
    hide Inv, MayEnd;
    InvKept(s, Crash(config));
  }

  // What is stored of a job that has ended since the start is what ended it.
  lemma EndedIsStored(s: State, id: JobId, job: Job)
    requires Inv(s) && EndedSince(s, id, job) && id in s.disk.store
    ensures exists op :: MayEnd(op, job) && Delivers(op, job, s.disk.store[id])
  {
    StoredReport(s, id);
    hide Inv, Delivers, ReportOf, MayEnd;
    var op, after :| MayEnd(op, job) && Delivers(op, job, after) && s.disk.reports[id] == ReportOf(after);
    SameDelivery(op, job, after, s.disk.store[id]);
  }

  /** However a process ended and the next one starts: when it begins to serve, a job that was running is collected, or is a
      tmux job whose session is live, which is left as it was, or has ended by recovery; an exec job has always ended by
      recovery, as failed, with the execution error of an interrupted run. If clean-up has not removed it, it is stored so. */
  lemma RestartEndsInterruptedJobs(config: Config, run: seq<Event>, next: Config, more: seq<Event>, id: JobId)
    requires Valid(Init(config), run)
    requires id in Exec(Init(config), run).disk.store && Exec(Init(config), run).disk.store[id].status == Running
    requires Valid(DoCrash(Exec(Init(config), run), next), more) && Starting(more)
    requires CanServeStart(Exec(DoCrash(Exec(Init(config), run), next), more))
    ensures var job := Exec(Init(config), run).disk.store[id]; var s := Exec(DoCrash(Exec(Init(config), run), next), more);
            var live := job.mode == TmuxMode && job.session.Some? && job.session.value.status == Live;
            && (id in s.disk.store ==>
                  || (live && s.disk.store[id] == job)
                  || (job.mode == TmuxMode && exists r, session, now :: Delivers(Collect(r, session, now), job, s.disk.store[id]))
                  || (!live && exists now :: DeliversRecovery(now, job, s.disk.store[id])))
            && (id !in s.disk.store ==> id in s.disk.reports)
  {
    var job := Exec(Init(config), run).disk.store[id];
    var c := DoCrash(Exec(Init(config), run), next);
    InvInit(config);
    InvRun(Init(config), run);
    CrashStartsRecovery(Exec(Init(config), run), next, id);
    RecoveringRun(c, more, id, job);
    hide Enabled, Apply, DoCrash, Exec, Valid, Inv, DeliversRecovery;
    RecoveredWhenServing(Exec(c, more), id, job);
  }

  lemma RecoveredWhenServing(s: State, id: JobId, job: Job)
    requires Inv(s) && Recovering(s, id, job) && job.status == Running && CanServeStart(s)
    ensures var live := job.mode == TmuxMode && job.session.Some? && job.session.value.status == Live;
            && (id in s.disk.store ==>
                  || (live && s.disk.store[id] == job)
                  || (job.mode == TmuxMode && exists r, session, now :: Delivers(Collect(r, session, now), job, s.disk.store[id]))
                  || (!live && exists now :: DeliversRecovery(now, job, s.disk.store[id])))
            && (id !in s.disk.store ==> id in s.disk.reports)
  {
    hide Inv, DeliversRecovery, DeliversResult;
    if id in s.disk.store && !Untouched(s, id, job) {
      EndedIsStored(s, id, job);
      var op :| MayEnd(op, job) && Delivers(op, job, s.disk.store[id]);
      if op.Collect? {
        assert Delivers(Collect(op.result, op.session, op.now), job, s.disk.store[id]);
      } else {
        assert DeliversRecovery(op.now, job, s.disk.store[id]);
      }
    }
  }
}

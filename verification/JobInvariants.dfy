/** What every event of the protocol keeps about the stored jobs and about each task. */
module JobInvariants {
  import opened Wrappers
  import opened JobModel
  import opened JobProtocol
  import opened Sequences

  ghost predicate RoleFits(role: Role, op: Op) {
    match role
    case Claiming => op.Claim?
    case ClaimRequeue => op.Requeue?
    case RunRequeue => op.Requeue?
    case RunFinish => op.Finish? || op.SetSession? || op.FailRun?
    case Outside => !op.Claim? && !op.Requeue?
  }

  // A task that a serving process is not needed for.
  ghost predicate Background(task: Task) {
    match task
    case ListWait(goal) => goal.CleanupGoal?
    case Listing(goal, _, _) => goal.CleanupGoal?
    case Saving(purpose, _, _) => purpose.PersistPurpose?
    case Cas(_, _, role, _) => role.Outside?
    case Notifying(_) => true
    case PersistReading(_, _) => true
    case Deleting(_) => true
    case _ => false
  }

  ghost predicate HoldsMutex(l: Locks, t: TaskId, goal: Goal) {
    match goal
    case FindGoal(_) => l.create == Some(t)
    case CountGoal(_) => l.create == Some(t)
    case ClaimGoal => l.claim == Some(t)
    case CleanupGoal => true
  }

  function LastNotice(log: seq<Notice>): Option<Notice> {
    if log == [] then None else Some(log[|log| - 1])
  }

  ghost predicate JobOk(d: Disk, id: JobId, job: Job) {
    && job.id == id && id in d.stored && id !in d.lost && Readable(job) && Fitting(job)
    && (Terminal(job.status) <==> id in d.reports)
    && (id in d.reports ==> ReportOf(job) == d.reports[id])
    && job.notifyHistory == LastTen(NoticeLog(d, id))
    && job.notifyOutcome == LastNotice(NoticeLog(d, id))
  }

  // `attemptIndex` is the length of the history the notice was added to.
  ghost predicate IndexesOk(log: seq<Notice>) {
    forall k :: 0 <= k < |log| ==> log[k].attemptIndex == if k <= 10 then k else 10
  }

  /** Terminal jobs carry the report of the first terminal write, a job that is gone was terminal or was written
      unreadable, and the notify history of a stored job is the last ten notices persisted for it. */
  ghost predicate DiskOk(d: Disk) {
    && (forall id :: id in d.store ==> JobOk(d, id, d.store[id]))
    && (forall id :: id in d.stored ==> id in d.used && (id in d.store || id in d.reports || id in d.lost))
    && (forall id :: id in d.lost ==> id in d.stored && id !in d.store)
    && (forall id :: id in d.reports ==> id in d.stored)
    && (forall id :: id in d.notices ==> id in d.reports && IndexesOk(d.notices[id]))
  }

  ghost predicate Holds(locks: map<JobId, TaskId>, t: TaskId, id: JobId) {
    id in locks && locks[id] == t
  }

  ghost predicate PersistCopyOk(d: Disk, l: Locks, t: TaskId, latest: Job, job: Job) {
    && Holds(l.persists, t, job.id)
    && JobOk(d, job.id, latest) && Terminal(latest.status)
    && job.notifyOutcome.Some? && job == WithNotice(latest, job.notifyOutcome.value.data)
    && (job.id in d.store ==> d.store[job.id] == latest)
  }

  ghost predicate PhaseOk(d: Disk, l: Locks, t: TaskId, id: JobId, op: Op, phase: Phase) {
    match phase
    case Waiting => true
    case Reading => Holds(l.jobs, t, id)
    case Writing(seen) =>
      Holds(l.jobs, t, id) && id in d.store && d.store[id] == seen && seen.status in Expected(op)
    case Returned(done) =>
      done.Some? ==> id in d.stored && (Terminal(done.value.status) ==> id in d.reports)
  }

  ghost predicate SeenOk(d: Disk, seen: map<JobId, Job>) {
    forall id :: id in seen ==> seen[id].id == id && id in d.stored && (Terminal(seen[id].status) ==> id in d.reports)
  }

  ghost predicate TaskOk(d: Disk, l: Locks, t: TaskId, task: Task) {
    match task
    case CreateWait(_) => true
    case ListWait(goal) => HoldsMutex(l, t, goal)
    case Listing(goal, todo, seen) => HoldsMutex(l, t, goal) && todo <= d.stored && SeenOk(d, seen)
    case Saving(purpose, job, held) =>
      && (held ==> Holds(l.jobs, t, job.id))
      && (match purpose
          case CreatePurpose =>
            && l.create == Some(t) && job.id in d.used && job.id !in d.stored && job.status == Queued
            && job.notifyHistory == [] && job.notifyOutcome == None && Fitting(job)
          case PersistPurpose(latest) => PersistCopyOk(d, l, t, latest, job))
    case ClaimWait => true
    case Cas(id, op, role, phase) =>
      && RoleFits(role, op)
      && (role.Claiming? || role.ClaimRequeue? ==> l.claim == Some(t))
      && (role.Outside? || id in d.stored)
      && PhaseOk(d, l, t, id, op, phase)
    case RunReading(id) => id in d.stored
    case RunDeciding(id, _) => id in d.stored
    case Executing(id, _) => id in d.stored
    case RunEnding(id) => id in d.stored
    case Notifying(id) => id in d.reports
    case PersistReading(id, _) => id in d.reports && Holds(l.persists, t, id)
    case Deleting(ids) => ids <= d.reports.Keys
  }

  ghost predicate TasksOk(s: State) {
    forall t :: t in s.tasks ==> TaskOk(s.disk, s.locks, t, s.tasks[t])
  }

  ghost predicate QuietOk(s: State) {
    !s.serving ==>
      && s.inFlight == {} && s.locks.create.None? && s.locks.claim.None?
      && (forall t :: t in s.tasks ==> Background(s.tasks[t]))
  }

  ghost predicate Core(s: State) {
    DiskOk(s.disk) && TasksOk(s) && QuietOk(s)
  }

  /** What task `t` may change without disturbing any other task: it writes a job file only while it
      holds the job lock, and a terminal one only while it holds the persist lock too; it unlinks
      only terminal jobs; and it neither takes nor drops a lock or mutex that another task holds. */
  ghost predicate Frame(d: Disk, l: Locks, d': Disk, l': Locks, t: TaskId) {
    && d.stored <= d'.stored && d.used <= d'.used
    && (forall id :: id in d'.lost ==> id in d.lost || id !in d.reports)
    && (forall id :: id in d.reports ==> id in d'.reports && d'.reports[id] == d.reports[id])
    && (forall id :: id in l.jobs && l.jobs[id] != t ==> Holds(l'.jobs, l.jobs[id], id))
    && (forall id :: id in l.persists && l.persists[id] != t ==>
          Holds(l'.persists, l.persists[id], id) && NoticeLog(d', id) == NoticeLog(d, id))
    && (l.create.Some? && l.create.value != t ==> l'.create == l.create && d'.stored == d.stored)
    && (l.claim.Some? && l.claim.value != t ==> l'.claim == l.claim)
    && (forall id :: id in d.store || id in d'.store ==> FileKept(d, l, d', t, id))
  }

  ghost predicate FileKept(d: Disk, l: Locks, d': Disk, t: TaskId, id: JobId) {
    || (id in d.store && id in d'.store && d'.store[id] == d.store[id])
    || (id !in d'.store && id in d.reports)
    || (Holds(l.jobs, t, id) && (id in d.reports ==> Holds(l.persists, t, id)))
  }

  lemma TaskFramed(d: Disk, l: Locks, d': Disk, l': Locks, t: TaskId, u: TaskId, task: Task)
    requires DiskOk(d) && TaskOk(d, l, u, task) && u != t && Frame(d, l, d', l', t)
    ensures TaskOk(d', l', u, task)
  {
    match task {
      case Saving(purpose, job, held) =>
        if purpose.PersistPurpose? && job.id in d'.store {
          assert FileKept(d, l, d', t, job.id);
        }
      case Cas(id, op, role, phase) =>
        if phase.Writing? {
          assert FileKept(d, l, d', t, id);
          assert Active(phase.seen.status);
        }
      case _ =>
    }
  }

  // Task `t` moved and, at most, a correct task was added.
  ghost predicate Moved(s: State, s': State, t: TaskId) {
    forall u :: u in s'.tasks ==>
      (u != t && u in s.tasks && s'.tasks[u] == s.tasks[u]) || TaskOk(s'.disk, s'.locks, u, s'.tasks[u])
  }

  lemma TasksFramed(s: State, s': State, t: TaskId)
    requires DiskOk(s.disk) && TasksOk(s) && Frame(s.disk, s.locks, s'.disk, s'.locks, t) && Moved(s, s', t)
    ensures TasksOk(s')
  {
    forall u | u in s'.tasks && u != t && u in s.tasks && s'.tasks[u] == s.tasks[u]
      ensures TaskOk(s'.disk, s'.locks, u, s'.tasks[u])
    {
      TaskFramed(s.disk, s.locks, s'.disk, s'.locks, t, u, s.tasks[u]);
    }
  }

  lemma TaskSet(s: State, t: TaskId, task: Task)
    requires Core(s) && TaskOk(s.disk, s.locks, t, task) && (s.serving || Background(task))
    ensures Core(SetTask(s, t, task))
  {
  }

  lemma TaskEnded(s: State, t: TaskId)
    requires Core(s)
    ensures Core(EndTask(s, t))
  {
  }

  lemma CreateReleased(s: State, t: TaskId)
    requires Core(s) && s.locks.create == Some(t)
    ensures Core(FreeCreate(EndTask(s, t)))
  {
    TasksFramed(s, FreeCreate(EndTask(s, t)), t);
  }

  lemma ClaimReleased(s: State, t: TaskId)
    requires Core(s) && s.locks.claim == Some(t)
    ensures Core(FreeClaim(EndTask(s, t)))
  {
    TasksFramed(s, FreeClaim(EndTask(s, t)), t);
  }

  lemma CreateEnterKept(s: State, t: TaskId)
    requires Core(s) && CanCreateEnter(s, t)
    ensures Core(DoCreateEnter(s, t))
  {
    TasksFramed(s, DoCreateEnter(s, t), t);
  }

  lemma FindEndKept(s: State, t: TaskId)
    requires Core(s) && CanFindEnd(s, t)
    ensures Core(DoFindEnd(s, t))
  {
    assert TaskOk(s.disk, s.locks, t, s.tasks[t]);
    CreateReleased(s, t);
    TaskSet(s, t, ListWait(CountGoal(s.tasks[t].goal.req)));
  }

  lemma CountedKept(s: State, t: TaskId, id: JobId, queueOrder: nat, now: nat)
    requires Core(s) && CanCountEnd(s, t, id) && |ActiveIds(s.tasks[t].seen)| < s.config.maxActiveJobs
    ensures Core(DoCountEnd(s, t, id, queueOrder, now))
  {
    hide ActiveIds;
    assert TaskOk(s.disk, s.locks, t, s.tasks[t]);
    CountedDisk(s.disk, id);
    hide DiskOk, JobOk;
    TasksFramed(s, DoCountEnd(s, t, id, queueOrder, now), t);
  }

  lemma CountedDisk(d: Disk, id: JobId)
    requires DiskOk(d) && id !in d.used
    ensures DiskOk(d.(used := d.used + {id})) && id !in d.stored
  {
    hide LastTen, LastNotice, IndexesOk, ReportOf, Readable;
    forall j | j in d.store ensures JobOk(d.(used := d.used + {id}), j, d.store[j]) {
      assert JobOk(d, j, d.store[j]);
    }
  }

  lemma CountEndKept(s: State, t: TaskId, id: JobId, queueOrder: nat, now: nat)
    requires Core(s) && CanCountEnd(s, t, id)
    ensures Core(DoCountEnd(s, t, id, queueOrder, now))
  {
    if |ActiveIds(s.tasks[t].seen)| < s.config.maxActiveJobs {
      CountedKept(s, t, id, queueOrder, now);
    } else {
      hide DiskOk, ActiveIds;
      assert TaskOk(s.disk, s.locks, t, s.tasks[t]);
      CreateReleased(s, t);
    }
  }

  lemma ListBeginKept(s: State, t: TaskId)
    requires Core(s) && CanListBegin(s, t)
    ensures Core(DoListBegin(s, t))
  {
    assert TaskOk(s.disk, s.locks, t, s.tasks[t]);
    assert forall id :: id in s.disk.store ==> JobOk(s.disk, id, s.disk.store[id]);
    TaskSet(s, t, Listing(s.tasks[t].goal, s.disk.store.Keys, map[]));
  }

  lemma ListReadKept(s: State, t: TaskId, id: JobId)
    requires Core(s) && CanListRead(s, t, id)
    ensures Core(DoListRead(s, t, id))
  {
    assert TaskOk(s.disk, s.locks, t, s.tasks[t]);
    TaskSet(s, t, DoListRead(s, t, id).tasks[t]);
  }

  lemma SaveLockKept(s: State, t: TaskId)
    requires Core(s) && CanSaveLock(s, t)
    ensures Core(DoSaveLock(s, t))
  {
    hide DiskOk, JobOk, LastTen, LastNotice;
    TasksFramed(s, DoSaveLock(s, t), t);
  }

  lemma LastTenAppend(log: seq<Notice>, notice: Notice)
    ensures LastTen(LastTen(log) + [notice]) == LastTen(log + [notice])
  {
    LastNAppend(log, [notice], 10);
  }

  // Writing one file changes nothing else.
  ghost predicate OneFile(d: Disk, d': Disk, id: JobId) {
    && d'.used == d.used && d.stored <= d'.stored <= d.stored + {id}
    && d'.lost <= d.lost + {id}
    && (forall j :: j in d.reports ==> j in d'.reports && d'.reports[j] == d.reports[j])
    && (forall j :: j != id && (j in d.store || j in d'.store) ==>
          j in d.store && j in d'.store && d'.store[j] == d.store[j])
    && (forall j :: j != id ==> NoticeLog(d', j) == NoticeLog(d, j))
  }

  lemma CreateWriteFrame(s: State, t: TaskId)
    requires Core(s) && CanSaveWrite(s, t) && s.tasks[t].purpose.CreatePurpose?
    ensures var s' := DoSaveWrite(s, t); Frame(s.disk, s.locks, s'.disk, s'.locks, t)
  {
    hide LastTen, LastNotice, IndexesOk, QuietOk, Written, Readable;
    CreatedShape(s.disk, s.tasks[t].job);
    assert TaskOk(s.disk, s.locks, t, s.tasks[t]);
  }

  lemma CreatedShape(d: Disk, job: Job)
    ensures OneFile(d, Written(d, job.id, job).(stored := d.stored + {job.id}), job.id)
    ensures Written(d, job.id, job).notices == d.notices
  {
    hide Readable;
  }

  lemma CreateWriteDisk(s: State, t: TaskId)
    requires Core(s) && CanSaveWrite(s, t) && s.tasks[t].purpose.CreatePurpose?
    ensures DiskOk(DoSaveWrite(s, t).disk)
  {
    hide QuietOk, Readable, ReportOf, IndexesOk;
    var task, d' := s.tasks[t], DoSaveWrite(s, t).disk;
    assert TaskOk(s.disk, s.locks, t, task);
    forall id | id in d'.store && id != task.job.id ensures JobOk(d', id, d'.store[id]) {
      assert JobOk(s.disk, id, s.disk.store[id]);
    }
  }

  lemma CreateWriteKept(s: State, t: TaskId)
    requires Core(s) && CanSaveWrite(s, t) && s.tasks[t].purpose.CreatePurpose?
    ensures Core(DoSaveWrite(s, t))
  {
    CreateWriteFrame(s, t);
    CreateWriteDisk(s, t);
    hide DiskOk, Frame, TaskOk;
    TasksFramed(s, DoSaveWrite(s, t), t);
  }

  lemma PersistWriteFrame(s: State, t: TaskId)
    requires Core(s) && CanSaveWrite(s, t) && s.tasks[t].purpose.PersistPurpose?
    ensures var s' := DoSaveWrite(s, t); Frame(s.disk, s.locks, s'.disk, s'.locks, t)
  {
    hide LastTen, LastNotice, IndexesOk, QuietOk, ReportOf, Saved, IntactExecution;
    var task := s.tasks[t];
    assert TaskOk(s.disk, s.locks, t, task);
    assert Readable(task.job);
    SavedShape(s.disk, task.job, task.job.notifyOutcome.value);
    hide Readable, JobOk;
  }

  lemma SavedShape(d: Disk, job: Job, notice: Notice)
    requires Readable(job)
    ensures OneFile(d, Saved(d, job, notice), job.id) && Saved(d, job, notice).lost == d.lost
  {
  }

  lemma PersistWriteDisk(s: State, t: TaskId)
    requires Core(s) && CanSaveWrite(s, t) && s.tasks[t].purpose.PersistPurpose?
    ensures DiskOk(DoSaveWrite(s, t).disk)
  {
    var task := s.tasks[t];
    assert TaskOk(s.disk, s.locks, t, task);
    hide Core, JobOk, IndexesOk, LastTen, LastNotice, WithNotice, NoticeLog;
    SavedDisk(s.disk, task.job, task.purpose.latest, task.job.notifyOutcome.value);
  }

  lemma SavedDisk(d: Disk, job: Job, latest: Job, notice: Notice)
    requires DiskOk(d) && JobOk(d, job.id, latest) && Terminal(latest.status)
    requires job == WithNotice(latest, notice.data) && job.notifyOutcome == Some(notice)
    ensures DiskOk(Saved(d, job, notice))
  {
    var d' := Saved(d, job, notice);
    SavedJob(d, job, latest, notice);
    hide LastTen, LastNotice, ReportOf, WithNotice, IntactExecution;
    forall id | id in d'.store && id != job.id ensures JobOk(d', id, d'.store[id]) {
      assert JobOk(d, id, d.store[id]);
    }
  }

  lemma SavedJob(d: Disk, job: Job, latest: Job, notice: Notice)
    requires DiskOk(d) && JobOk(d, job.id, latest) && Terminal(latest.status)
    requires job == WithNotice(latest, notice.data) && job.notifyOutcome == Some(notice)
    ensures Readable(job) && JobOk(Saved(d, job, notice), job.id, job)
    ensures IndexesOk(NoticeLog(d, job.id) + [notice])
  {
    LastTenAppend(NoticeLog(d, job.id), notice);
  }

  lemma PersistWriteKept(s: State, t: TaskId)
    requires Core(s) && CanSaveWrite(s, t) && s.tasks[t].purpose.PersistPurpose?
    ensures Core(DoSaveWrite(s, t))
  {
    PersistWriteFrame(s, t);
    PersistWriteDisk(s, t);
    hide DiskOk, Frame, TaskOk;
    TasksFramed(s, DoSaveWrite(s, t), t);
  }

  lemma ClaimEnterKept(s: State, t: TaskId)
    requires Core(s) && CanClaimEnter(s, t)
    ensures Core(DoClaimEnter(s, t))
  {
    hide DiskOk, JobOk, LastTen, LastNotice;
    TasksFramed(s, DoClaimEnter(s, t), t);
  }

  /** A claim either gives up or goes for a job it has seen queued and that is not in flight. */
  lemma ClaimPickShape(s: State, t: TaskId, listing: seq<Job>, now: nat) returns (candidate: Option<JobId>)
    requires CanClaimPick(s, t, listing)
    ensures candidate.None? ==> DoClaimPick(s, t, listing, now) == FreeClaim(EndTask(s, t))
    ensures candidate.Some? ==>
              && candidate == FirstClaimable(listing, s.inFlight)
              && candidate.value in s.tasks[t].seen && s.tasks[t].seen[candidate.value].status == Queued
              && candidate.value !in s.inFlight
              && DoClaimPick(s, t, listing, now) == SetTask(s, t, Cas(candidate.value, Claim(now), Claiming, Waiting))
  {
    candidate := FirstClaimable(listing, s.inFlight);
    var external := RunningIds(s.tasks[t].seen) - s.inFlight;
    if s.shuttingDown || |s.inFlight| + |external| >= s.config.maxConcurrency {
      candidate := None;
    }
  }

  lemma ClaimPickKept(s: State, t: TaskId, listing: seq<Job>, now: nat)
    requires Core(s) && CanClaimPick(s, t, listing)
    ensures Core(DoClaimPick(s, t, listing, now))
  {
    assert TaskOk(s.disk, s.locks, t, s.tasks[t]);
    var candidate := ClaimPickShape(s, t, listing, now);
    if candidate.Some? {
      TaskSet(s, t, Cas(candidate.value, Claim(now), Claiming, Waiting));
    } else {
      ClaimReleased(s, t);
    }
  }

  lemma CasLockKept(s: State, t: TaskId)
    requires Core(s) && CanCasLock(s, t)
    ensures Core(DoCasLock(s, t))
  {
    hide DiskOk, JobOk, RoleFits, Expected;
    TasksFramed(s, DoCasLock(s, t), t);
  }

  lemma CasReadKept(s: State, t: TaskId)
    requires Core(s) && CanCasRead(s, t)
    ensures Core(DoCasRead(s, t))
  {
    hide JobOk, Expected;
    var task := s.tasks[t];
    assert TaskOk(s.disk, s.locks, t, task);
    if task.id in s.disk.store && s.disk.store[task.id].status in Expected(task.op) {
      TaskSet(s, t, task.(phase := Writing(s.disk.store[task.id])));
    } else {
      JobReleased(s, t, task.(phase := Returned(None)));
    }
  }

  lemma JobReleased(s: State, t: TaskId, task: Task)
    requires Core(s) && t in s.tasks && task.Cas? && Holds(s.locks.jobs, t, task.id)
    requires (s.serving || Background(task)) && task.phase == Returned(None)
    requires TaskOk(s.disk, s.locks, t, task)
    ensures Core(FreeJob(SetTask(s, t, task), task.id))
  {
    hide DiskOk, JobOk, RoleFits;
    TasksFramed(s, FreeJob(SetTask(s, t, task), task.id), t);
  }

  lemma ReplacedShape(d: Disk, id: JobId, next: Job)
    ensures OneFile(d, Replaced(d, id, next), id) && Replaced(d, id, next).stored == d.stored
    ensures Replaced(d, id, next).notices == d.notices
  {
    hide ReportOf;
  }

  // What a transition is about to replace is the stored job, which expects it.
  lemma WriterReads(s: State, t: TaskId)
    requires Core(s) && CanCasWrite(s, t)
    ensures var task := s.tasks[t]; task.phase.seen.status in Expected(task.op) && JobOk(s.disk, task.id, task.phase.seen)
  {
    hide JobOk, QuietOk, Expected;
    assert TaskOk(s.disk, s.locks, t, s.tasks[t]);
  }

  // Changing one file without a report, with its lock, which is then let go, disturbs no other task.
  lemma OneFileFrame(d: Disk, l: Locks, d': Disk, l': Locks, t: TaskId, id: JobId)
    requires OneFile(d, d', id) && d'.stored == d.stored && d'.notices == d.notices
    requires Holds(l.jobs, t, id) && id !in d.reports && l' == l.(jobs := l.jobs - {id})
    ensures Frame(d, l, d', l', t)
  {
  }

  lemma CasWriteFrame(s: State, t: TaskId)
    requires Core(s) && CanCasWrite(s, t)
    ensures var s' := DoCasWrite(s, t); Frame(s.disk, s.locks, s'.disk, s'.locks, t)
  {
    hide Update, Replaced, Readable, LastTen, LastNotice, IndexesOk, Expected, QuietOk, Frame, OneFile;
    var task, s' := s.tasks[t], DoCasWrite(s, t);
    assert TaskOk(s.disk, s.locks, t, task) && JobOk(s.disk, task.id, task.phase.seen);
    assert Active(task.phase.seen.status) by { UpdateShape(task.op, task.phase.seen); }
    ReplacedShape(s.disk, task.id, Update(task.op, task.phase.seen));
    OneFileFrame(s.disk, s.locks, s'.disk, s'.locks, t, task.id);
  }

  // An active job has no report and no notice yet.
  lemma ReplacedDisk(d: Disk, id: JobId, next: Job)
    requires DiskOk(d) && id in d.store && Active(d.store[id].status)
    requires next.id == id && Fitting(next) && next.notifyHistory == d.store[id].notifyHistory
    requires next.notifyOutcome == d.store[id].notifyOutcome
    ensures DiskOk(Replaced(d, id, next))
  {
    hide LastTen, LastNotice, IndexesOk, ReportOf, IntactExecution, Fruitless;
    var d' := Replaced(d, id, next);
    assert JobOk(d, id, d.store[id]);
    hide Fitting, Readable;
    forall j | j in d'.store ensures JobOk(d', j, d'.store[j]) {
      assert j in d.store && JobOk(d, j, d.store[j]) && JobOk(d, id, d.store[id]);
    }
  }

  lemma CasWriteDisk(s: State, t: TaskId)
    requires Core(s) && CanCasWrite(s, t)
    ensures DiskOk(DoCasWrite(s, t).disk)
  {
    var task := s.tasks[t];
    WriterReads(s, t);
    assert TaskOk(s.disk, s.locks, t, task) && JobOk(s.disk, task.id, task.phase.seen);
    hide DiskOk, JobOk, QuietOk, Update, ReportOf, Expected;
    UpdateShape(task.op, task.phase.seen);
    ReplacedDisk(s.disk, task.id, Update(task.op, task.phase.seen));
  }

  lemma CasWriteMoved(s: State, t: TaskId)
    requires Core(s) && CanCasWrite(s, t)
    ensures Moved(s, DoCasWrite(s, t), t)
  {
    hide Update, ReportOf, Expected, LastTen, LastNotice;
    assert TaskOk(s.disk, s.locks, t, s.tasks[t]);
  }

  lemma CasWriteKept(s: State, t: TaskId)
    requires Core(s) && CanCasWrite(s, t)
    ensures Core(DoCasWrite(s, t))
  {
    CasWriteFrame(s, t);
    CasWriteDisk(s, t);
    CasWriteMoved(s, t);
    hide DiskOk, Frame, Moved, TaskOk, Update, ReportOf;
    TasksFramed(s, DoCasWrite(s, t), t);
  }

  lemma ClaimReturnKept(s: State, t: TaskId, t': TaskId)
    requires Core(s) && CanCasReturn(s, t, t') && (s.tasks[t].role.Claiming? || s.tasks[t].role.ClaimRequeue?)
    ensures Core(DoCasReturn(s, t, t'))
  {
    var task := s.tasks[t];
    assert TaskOk(s.disk, s.locks, t, task);
    if task.role.ClaimRequeue? || task.phase.done.None? {
      ClaimReleased(s, t);
    } else if s.shuttingDown {
      TaskSet(s, t, Cas(task.id, Requeue, ClaimRequeue, Waiting));
    } else {
      ClaimedKept(s, t);
    }
  }

  lemma ClaimedKept(s: State, t: TaskId)
    requires Core(s) && t in s.tasks && s.tasks[t].Cas? && s.tasks[t].role.Claiming? && s.serving
    ensures Core(FreeClaim(SetTask(s, t, RunReading(s.tasks[t].id))).(inFlight := s.inFlight + {s.tasks[t].id}))
  {
    hide DiskOk;
    assert TaskOk(s.disk, s.locks, t, s.tasks[t]);
    TasksFramed(s, FreeClaim(SetTask(s, t, RunReading(s.tasks[t].id))).(inFlight := s.inFlight + {s.tasks[t].id}), t);
  }

  lemma RunReturnKept(s: State, t: TaskId, t': TaskId)
    requires Core(s) && CanCasReturn(s, t, t') && (s.tasks[t].role.RunRequeue? || s.tasks[t].role.RunFinish?)
    ensures Core(DoCasReturn(s, t, t'))
  {
    var task := s.tasks[t];
    assert TaskOk(s.disk, s.locks, t, task);
    TaskSet(s, t, RunEnding(task.id));
    if task.phase.done.Some? && Terminal(task.phase.done.value.status) {
      TaskSet(SetTask(s, t, RunEnding(task.id)), t', Notifying(task.id));
    }
  }

  lemma OutsideReturnKept(s: State, t: TaskId, t': TaskId)
    requires Core(s) && CanCasReturn(s, t, t') && s.tasks[t].role.Outside?
    ensures Core(DoCasReturn(s, t, t'))
  {
    var task := s.tasks[t];
    assert TaskOk(s.disk, s.locks, t, task);
    TaskEnded(s, t);
    if task.phase.done.Some? && Terminal(task.phase.done.value.status) {
      TaskSet(EndTask(s, t), t', Notifying(task.id));
    }
  }

  lemma CasReturnKept(s: State, t: TaskId, t': TaskId)
    requires Core(s) && CanCasReturn(s, t, t')
    ensures Core(DoCasReturn(s, t, t'))
  {
    match s.tasks[t].role {
      case Claiming => ClaimReturnKept(s, t, t');
      case ClaimRequeue => ClaimReturnKept(s, t, t');
      case RunRequeue => RunReturnKept(s, t, t');
      case RunFinish => RunReturnKept(s, t, t');
      case Outside => OutsideReturnKept(s, t, t');
    }
  }

  lemma RunStepKept(s: State, t: TaskId, task: Task)
    requires Core(s) && t in s.tasks
    requires s.tasks[t].RunReading? || s.tasks[t].RunDeciding? || s.tasks[t].Executing?
    requires match task
             case RunDeciding(id, _) => id == s.tasks[t].id
             case RunEnding(id) => id == s.tasks[t].id
             case Executing(id, _) => id == s.tasks[t].id
             case Cas(id, op, role, phase) =>
               id == s.tasks[t].id && phase.Waiting? && (role.RunRequeue? || role.RunFinish?) && RoleFits(role, op)
             case _ => false
    ensures Core(SetTask(s, t, task))
  {
    assert TaskOk(s.disk, s.locks, t, s.tasks[t]);
    TaskSet(s, t, task);
  }

  lemma RunDecideKept(s: State, t: TaskId, now: nat)
    requires Core(s) && CanRunDecide(s, t)
    ensures Core(DoRunDecide(s, t, now))
  {
    RunStepKept(s, t, DoRunDecide(s, t, now).tasks[t]);
  }

  lemma RunEndKept(s: State, t: TaskId)
    requires Core(s) && CanRunEnd(s, t)
    ensures Core(DoRunEnd(s, t))
  {
    TaskEnded(s, t);
  }

  lemma PersistEnterKept(s: State, t: TaskId, data: nat)
    requires Core(s) && CanPersistEnter(s, t)
    ensures Core(DoPersistEnter(s, t, data))
  {
    hide DiskOk, JobOk;
    assert TaskOk(s.disk, s.locks, t, s.tasks[t]);
    TasksFramed(s, DoPersistEnter(s, t, data), t);
  }

  lemma PersistReadKept(s: State, t: TaskId)
    requires Core(s) && CanPersistRead(s, t)
    ensures Core(DoPersistRead(s, t))
  {
    assert TaskOk(s.disk, s.locks, t, s.tasks[t]);
    var id := s.tasks[t].id;
    if id in s.disk.store {
      var latest := s.disk.store[id];
      assert JobOk(s.disk, id, latest);
      TaskSet(s, t, Saving(PersistPurpose(latest), WithNotice(latest, s.tasks[t].data), false));
    } else {
      PersistReleased(s, t, id);
    }
  }

  lemma PersistReleased(s: State, t: TaskId, id: JobId)
    requires Core(s) && Holds(s.locks.persists, t, id)
    ensures Core(FreePersist(EndTask(s, t), id))
  {
    hide DiskOk, JobOk;
    TasksFramed(s, FreePersist(EndTask(s, t), id), t);
  }

  lemma CleanupPickKept(s: State, t: TaskId, ids: set<JobId>)
    requires Core(s) && CanCleanupPick(s, t, ids)
    ensures Core(SetTask(s, t, Deleting(ids)))
  {
    assert TaskOk(s.disk, s.locks, t, s.tasks[t]);
    TaskSet(s, t, Deleting(ids));
  }

  lemma DeleteOneDisk(s: State, t: TaskId, id: JobId)
    requires Core(s) && CanDeleteOne(s, t, id)
    ensures DiskOk(DoDeleteOne(s, t, id).disk)
  {
    hide LastTen, LastNotice, IndexesOk, Readable, ReportOf, QuietOk;
    assert TaskOk(s.disk, s.locks, t, s.tasks[t]);
    var d' := DoDeleteOne(s, t, id).disk;
    forall j | j in d'.store ensures JobOk(d', j, d'.store[j]) {
      assert JobOk(s.disk, j, s.disk.store[j]);
    }
  }

  lemma DeleteOneKept(s: State, t: TaskId, id: JobId)
    requires Core(s) && CanDeleteOne(s, t, id)
    ensures Core(DoDeleteOne(s, t, id))
  {
    DeleteOneDisk(s, t, id);
    DeleteOneFrame(s, t, id);
    hide DiskOk, JobOk, Frame;
    assert TaskOk(s.disk, s.locks, t, s.tasks[t]);
    TasksFramed(s, DoDeleteOne(s, t, id), t);
  }

  lemma DeleteOneFrame(s: State, t: TaskId, id: JobId)
    requires Core(s) && CanDeleteOne(s, t, id)
    ensures var s' := DoDeleteOne(s, t, id); Frame(s.disk, s.locks, s'.disk, s'.locks, t)
  {
    hide JobOk, QuietOk, IndexesOk;
    assert TaskOk(s.disk, s.locks, t, s.tasks[t]);
  }

  lemma NotifyStartKept(s: State, t: TaskId, id: JobId)
    requires Core(s) && CanNotifyStart(s, t, id)
    ensures Core(SetTask(s, t, Notifying(id)))
  {
    assert JobOk(s.disk, id, s.disk.store[id]);
    TaskSet(s, t, Notifying(id));
  }

  lemma ShutdownKept(s: State)
    requires Core(s)
    ensures Core(s.(shuttingDown := true))
  {
  }

  lemma CrashKept(s: State, config: Config)
    requires Core(s)
    ensures Core(DoCrash(s, config))
  {
  }

  lemma ServeStartKept(s: State)
    requires Core(s) && CanServeStart(s)
    ensures Core(DoServeStart(s))
  {
  }

  lemma CreateEventKept(s: State, e: Event)
    requires Core(s) && Enabled(s, e)
    requires e.CreateArrive? || e.CreateEnter? || e.FindEnd? || e.CountEnd? || e.ListBegin? || e.ListRead?
    ensures Core(Apply(s, e))
  {
    hide Core, DoFindEnd, DoCountEnd;
    match e {
      case CreateArrive(t, req) => TaskSet(s, t, CreateWait(req));
      case CreateEnter(t) => CreateEnterKept(s, t);
      case FindEnd(t) => FindEndKept(s, t);
      case CountEnd(t, id, queueOrder, now) => CountEndKept(s, t, id, queueOrder, now);
      case ListBegin(t) => ListBeginKept(s, t);
      case ListRead(t, id) => ListReadKept(s, t, id);
    }
  }

  lemma WriteEventKept(s: State, e: Event)
    requires Core(s) && Enabled(s, e)
    requires e.SaveLock? || e.SaveWrite? || e.CasLock? || e.CasRead? || e.CasWrite? || e.CasReturn?
    ensures Core(Apply(s, e))
  {
    hide Core, DoSaveWrite, DoCasWrite, DoCasReturn;
    match e {
      case SaveLock(t) => SaveLockKept(s, t);
      case SaveWrite(t) => if s.tasks[t].purpose.CreatePurpose? { CreateWriteKept(s, t); } else { PersistWriteKept(s, t); }
      case CasLock(t) => CasLockKept(s, t);
      case CasRead(t) => CasReadKept(s, t);
      case CasWrite(t) => CasWriteKept(s, t);
      case CasReturn(t, t') => CasReturnKept(s, t, t');
    }
  }

  lemma RunEventKept(s: State, e: Event)
    requires Core(s) && Enabled(s, e)
    requires e.Tick? || e.ClaimEnter? || e.ClaimPick? || e.RunRead? || e.RunDecide? || e.RunOutcome? || e.RunEnd?
             || e.OutsideOp?
    ensures Core(Apply(s, e))
  {
    hide Core, DoClaimPick, DoRunDecide;
    match e {
      case Tick(t) => TaskSet(s, t, ClaimWait);
      case ClaimEnter(t) => ClaimEnterKept(s, t);
      case ClaimPick(t, listing, now) => ClaimPickKept(s, t, listing, now);
      case RunRead(t) => RunStepKept(s, t, DoRunRead(s, t).tasks[t]);
      case RunDecide(t, now) => RunDecideKept(s, t, now);
      case RunOutcome(t, op) => RunStepKept(s, t, Cas(s.tasks[t].id, op, RunFinish, Waiting));
      case RunEnd(t) => RunEndKept(s, t);
      case OutsideOp(t, id, op) => TaskSet(s, t, Cas(id, op, Outside, Waiting));
    }
  }

  lemma NotifyEventKept(s: State, e: Event)
    requires Core(s) && Enabled(s, e)
    requires e.NotifyStart? || e.PersistEnter? || e.PersistRead? || e.CleanupStart? || e.CleanupPick? || e.DeleteOne?
    ensures Core(Apply(s, e))
  {
    hide Core, DoPersistRead;
    match e {
      case NotifyStart(t, id) => NotifyStartKept(s, t, id);
      case PersistEnter(t, data) => PersistEnterKept(s, t, data);
      case PersistRead(t) => PersistReadKept(s, t);
      case CleanupStart(t) => TaskSet(s, t, ListWait(CleanupGoal));
      case CleanupPick(t, ids) => CleanupPickKept(s, t, ids);
      case DeleteOne(t, id) => DeleteOneKept(s, t, id);
    }
  }

  lemma ServiceEventKept(s: State, e: Event)
    requires Core(s) && Enabled(s, e) && (e.Shutdown? || e.Crash? || e.RecoverJob? || e.ServeStart?)
    ensures Core(Apply(s, e))
  {
    hide Core;
    match e {
      case Shutdown => ShutdownKept(s);
      case Crash(config) => CrashKept(s, config);
      case RecoverJob(t, id, op) => TaskSet(s, t, Cas(id, op, Outside, Waiting));
      case ServeStart => ServeStartKept(s);
    }
  }

  lemma CoreKept(s: State, e: Event)
    requires Core(s) && Enabled(s, e)
    ensures Core(Apply(s, e))
  {
    hide *;
    if e.CreateArrive? || e.CreateEnter? || e.FindEnd? || e.CountEnd? || e.ListBegin? || e.ListRead? {
      CreateEventKept(s, e);
    } else if e.SaveLock? || e.SaveWrite? || e.CasLock? || e.CasRead? || e.CasWrite? || e.CasReturn? {
      WriteEventKept(s, e);
    } else if e.Shutdown? || e.Crash? || e.RecoverJob? || e.ServeStart? {
      ServiceEventKept(s, e);
    } else if e.NotifyStart? || e.PersistEnter? || e.PersistRead? || e.CleanupStart? || e.CleanupPick? || e.DeleteOne? {
      NotifyEventKept(s, e);
    } else {
      RunEventKept(s, e);
    }
  }
}

/** The bridge's asynchronous job handling as a step system. Every asynchronous call in
    progress is a task; one event is one segment of a task between two awaits, or one file
    effect (an atomic read, rename or unlink), so events of different tasks interleave freely.
    Mirrors src/jobs/job-runner.service.ts, job-queue.repository.ts, jobs.service.ts and
    job-notify.service.ts. */
module JobProtocol {
  import opened Wrappers
  import opened JobModel
  import opened Sequences

  type TaskId = nat

  datatype Config = Config(maxConcurrency: nat, maxActiveJobs: nat, tmuxAvailable: bool)

  /** `nulls` are the optional members that the request gives as an explicit null, which validation lets pass. */
  datatype Request = Request(mode: Mode, key: Option<RequestKey>, execution: ServerExecution, nulls: set<Member>)

  /** Which caller runs a `transition`, hence what happens when it returns. */
  datatype Role = Claiming | ClaimRequeue | RunRequeue | RunFinish | Outside

  /** A `transition`: waiting for the job lock, holding it before the read, holding it with the
      job it has read and is about to replace, or returned with the job it wrote. */
  datatype Phase = Waiting | Reading | Writing(seen: Job) | Returned(done: Option<Job>)

  /** Why `listAll` was called. */
  datatype Goal = FindGoal(req: Request) | CountGoal(req: Request) | ClaimGoal | CleanupGoal

  /** Why `save` was called: for a new job, or by `persistOutcome` after it read `latest`. */
  datatype Purpose = CreatePurpose | PersistPurpose(latest: Job)

  datatype Task =
    | CreateWait(req: Request)
    | ListWait(goal: Goal)
    | Listing(goal: Goal, todo: set<JobId>, seen: map<JobId, Job>)
    | Saving(purpose: Purpose, job: Job, held: bool)
    | ClaimWait
    | Cas(id: JobId, op: Op, role: Role, phase: Phase)
    | RunReading(id: JobId)
    | RunDeciding(id: JobId, read: Option<Job>)
    | Executing(id: JobId, mode: Mode)
    | RunEnding(id: JobId)
    | Notifying(id: JobId)
    | PersistReading(id: JobId, data: nat)
    | Deleting(ids: set<JobId>)

  /** The jobs that a read of the directory finds, and history that no step reads: the ids ever drawn and ever
      written, the ids whose file no read accepts, the report of each job's first terminal write, and the
      notices persisted per job in order. */
  datatype Disk = Disk(
    store: map<JobId, Job>, used: set<JobId>, stored: set<JobId>, lost: set<JobId>,
    reports: map<JobId, Report>, notices: map<JobId, seq<Notice>>)

  datatype Locks = Locks(
    create: Option<TaskId>, claim: Option<TaskId>, jobs: map<JobId, TaskId>, persists: map<JobId, TaskId>)

  /** `disk` survives a crash; tasks, locks, `inFlight` and the flags are process memory. `starts` lists
      the executions begun, and the two bases the load found when the process began to serve. */
  datatype State = State(
    disk: Disk, locks: Locks, tasks: map<TaskId, Task>, inFlight: set<JobId>,
    shuttingDown: bool, serving: bool, config: Config,
    starts: seq<JobId>, baseRunning: nat, baseActive: nat)

  const FREE := Locks(None, None, map[], map[])

  function Init(config: Config): State {
    State(Disk(map[], {}, {}, {}, map[], map[]), FREE, map[], {}, false, false, config, [], 0, 0)
  }

  function SetTask(s: State, t: TaskId, task: Task): State {
    s.(tasks := s.tasks[t := task])
  }

  function EndTask(s: State, t: TaskId): State {
    s.(tasks := s.tasks - {t})
  }

  function FreeCreate(s: State): State { s.(locks := s.locks.(create := None)) }

  function FreeClaim(s: State): State { s.(locks := s.locks.(claim := None)) }

  function TakeJob(s: State, t: TaskId, id: JobId): State {
    s.(locks := s.locks.(jobs := s.locks.jobs[id := t]))
  }

  function FreeJob(s: State, id: JobId): State {
    s.(locks := s.locks.(jobs := s.locks.jobs - {id}))
  }

  function TakePersist(s: State, t: TaskId, id: JobId): State {
    s.(locks := s.locks.(persists := s.locks.persists[id := t]))
  }

  function FreePersist(s: State, id: JobId): State {
    s.(locks := s.locks.(persists := s.locks.persists - {id}))
  }

  function LastTen(history: seq<Notice>): seq<Notice> {
    LastN(history, 10)
  }

  function NoticeLog(d: Disk, id: JobId): seq<Notice> {
    if id in d.notices then d.notices[id] else []
  }

  function RunningIds(store: map<JobId, Job>): set<JobId> {
    set id | id in store && store[id].status == Running
  }

  function ActiveIds(store: map<JobId, Job>): set<JobId> {
    set id | id in store && Active(store[id].status)
  }

  /** The comparator of `listAll`. */
  predicate Before(a: Job, b: Job) {
    || a.queueOrder < b.queueOrder
    || (a.queueOrder == b.queueOrder && a.createdAt < b.createdAt)
    || (a.queueOrder == b.queueOrder && a.createdAt == b.createdAt && a.id < b.id)
  }

  /** `listing` is the sorted result of `listAll` over what was read. */
  predicate SortedListing(listing: seq<Job>, seen: map<JobId, Job>) {
    && (forall i :: 0 <= i < |listing| ==> listing[i].id in seen && seen[listing[i].id] == listing[i])
    && (forall id :: id in seen ==> seen[id] in listing)
    && (forall i, j :: 0 <= i < j < |listing| ==> Before(listing[i], listing[j]))
  }

  /** `queuedJobs.find((job) => !this.inFlight.has(job.id))`. */
  function FirstClaimable(listing: seq<Job>, inFlight: set<JobId>): (r: Option<JobId>)
    ensures r.None? <==> forall i :: 0 <= i < |listing| ==> listing[i].status != Queued || listing[i].id in inFlight
    ensures r.Some? ==> exists i :: 0 <= i < |listing| && listing[i].id == r.value && listing[i].status == Queued
                                    && r.value !in inFlight
                                    && forall j :: 0 <= j < i ==> listing[j].status != Queued || listing[j].id in inFlight
  {
    if listing == [] then None
    else if listing[0].status == Queued && listing[0].id !in inFlight then Some(listing[0].id)
    else
      var r := FirstClaimable(listing[1..], inFlight);
      assert forall i :: 1 <= i < |listing| ==> listing[1..][i - 1] == listing[i];
      r
  }

  datatype Event =
    // createJob
    | CreateArrive(t: TaskId, req: Request)
    | CreateEnter(t: TaskId)
    | FindEnd(t: TaskId)
    | CountEnd(t: TaskId, id: JobId, queueOrder: nat, now: nat)
    // listAll and save
    | ListBegin(t: TaskId)
    | ListRead(t: TaskId, id: JobId)
    | SaveLock(t: TaskId)
    | SaveWrite(t: TaskId)
    // claimNext
    | Tick(t: TaskId)
    | ClaimEnter(t: TaskId)
    | ClaimPick(t: TaskId, listing: seq<Job>, now: nat)
    // transition
    | CasLock(t: TaskId)
    | CasRead(t: TaskId)
    | CasWrite(t: TaskId)
    | CasReturn(t: TaskId, t': TaskId)
    // executeJob
    | RunRead(t: TaskId)
    | RunDecide(t: TaskId, now: nat)
    | RunOutcome(t: TaskId, op: Op)
    | RunEnd(t: TaskId)
    // callbacks, cancellation, tmux collection and session updates
    | OutsideOp(t: TaskId, id: JobId, op: Op)
    // notifications
    | NotifyStart(t: TaskId, id: JobId)
    | PersistEnter(t: TaskId, data: nat)
    | PersistRead(t: TaskId)
    // retention
    | CleanupStart(t: TaskId)
    | CleanupPick(t: TaskId, ids: set<JobId>)
    | DeleteOne(t: TaskId, id: JobId)
    // lifecycle
    | Shutdown
    | Crash(config: Config)
    | RecoverJob(t: TaskId, id: JobId, op: Op)
    | ServeStart

  /** The jobs that recovery leaves running: tmux jobs whose session is live. */
  predicate Survives(job: Job) {
    job.mode == TmuxMode && job.session.Some? && job.session.value.status == Live
  }

  /** `createJob`: the record it builds. */
  function NewJob(id: JobId, req: Request, queueOrder: nat, now: nat): Job {
    Job(id, req.mode, req.key, queueOrder, now, Queued, None, None, None, "", "", req.execution, None, None, [],
        req.nulls)
  }

  /** `persistOutcome`: the record it saves back. */
  function WithNotice(latest: Job, data: nat): Job {
    var notice := Notice(data, |latest.notifyHistory|);
    latest.(notifyOutcome := Some(notice), notifyHistory := LastTen(latest.notifyHistory + [notice]))
  }

  // ----- createJob -----

  predicate CanCreateArrive(s: State, t: TaskId) { s.serving && t !in s.tasks }

  predicate CanCreateEnter(s: State, t: TaskId) {
    t in s.tasks && s.tasks[t].CreateWait? && s.locks.create.None?
  }

  function DoCreateEnter(s: State, t: TaskId): State
    requires CanCreateEnter(s, t)
  {
    var req := s.tasks[t].req;
    SetTask(s, t, ListWait(if req.key.Some? then FindGoal(req) else CountGoal(req))).(
      locks := s.locks.(create := Some(t)))
  }

  predicate CanFindEnd(s: State, t: TaskId) {
    t in s.tasks && s.tasks[t].Listing? && s.tasks[t].goal.FindGoal? && s.tasks[t].todo == {}
  }

  // An existing job for the key, whether it then matches or conflicts, creates nothing.
  function DoFindEnd(s: State, t: TaskId): State
    requires CanFindEnd(s, t)
  {
    var task := s.tasks[t];
    if exists id :: id in task.seen && task.seen[id].key == task.goal.req.key then FreeCreate(EndTask(s, t))
    else SetTask(s, t, ListWait(CountGoal(task.goal.req)))
  }

  predicate CanCountEnd(s: State, t: TaskId, id: JobId) {
    t in s.tasks && s.tasks[t].Listing? && s.tasks[t].goal.CountGoal? && s.tasks[t].todo == {} && id !in s.disk.used
  }

  function DoCountEnd(s: State, t: TaskId, id: JobId, queueOrder: nat, now: nat): State
    requires CanCountEnd(s, t, id)
  {
    var task := s.tasks[t];
    if |ActiveIds(task.seen)| >= s.config.maxActiveJobs then FreeCreate(EndTask(s, t))
    else SetTask(s, t, Saving(CreatePurpose, NewJob(id, task.goal.req, queueOrder, now), false)).(
           disk := s.disk.(used := s.disk.used + {id}))
  }

  // ----- listAll: the directory first, then each file at its own time -----

  predicate CanListBegin(s: State, t: TaskId) { t in s.tasks && s.tasks[t].ListWait? }

  function DoListBegin(s: State, t: TaskId): State
    requires CanListBegin(s, t)
  {
    SetTask(s, t, Listing(s.tasks[t].goal, s.disk.store.Keys, map[]))
  }

  predicate CanListRead(s: State, t: TaskId, id: JobId) {
    t in s.tasks && s.tasks[t].Listing? && id in s.tasks[t].todo
  }

  function DoListRead(s: State, t: TaskId, id: JobId): State
    requires CanListRead(s, t, id)
  {
    var task := s.tasks[t];
    var seen := if id in s.disk.store then task.seen[id := s.disk.store[id]] else task.seen;
    SetTask(s, t, Listing(task.goal, task.todo - {id}, seen))
  }

  // ----- save -----

  /** An atomic replacement of a job file. A file that no read accepts is out of sight for every reader, whether or
      not one of them has moved it away by now. */
  function Written(d: Disk, id: JobId, job: Job): Disk {
    if Readable(job) then d.(store := d.store[id := job]) else d.(store := d.store - {id}, lost := d.lost + {id})
  }

  predicate CanSaveLock(s: State, t: TaskId) {
    t in s.tasks && s.tasks[t].Saving? && !s.tasks[t].held && s.tasks[t].job.id !in s.locks.jobs
  }

  function DoSaveLock(s: State, t: TaskId): State
    requires CanSaveLock(s, t)
  {
    TakeJob(SetTask(s, t, s.tasks[t].(held := true)), t, s.tasks[t].job.id)
  }

  predicate CanSaveWrite(s: State, t: TaskId) { t in s.tasks && s.tasks[t].Saving? && s.tasks[t].held }

  function Saved(d: Disk, job: Job, notice: Notice): Disk {
    Written(d, job.id, job).(stored := d.stored + {job.id},
                             notices := d.notices[job.id := NoticeLog(d, job.id) + [notice]])
  }

  function DoSaveWrite(s: State, t: TaskId): State
    requires CanSaveWrite(s, t)
  {
    var job := s.tasks[t].job;
    var disk := Written(s.disk, job.id, job).(stored := s.disk.stored + {job.id});
    var ended := FreeJob(EndTask(s, t), job.id);
    if s.tasks[t].purpose.CreatePurpose? then FreeCreate(ended).(disk := disk)
    else FreePersist(ended, job.id).(
           disk := if job.notifyOutcome.None? then disk else Saved(s.disk, job, job.notifyOutcome.value))
  }

  // ----- claimNext -----

  predicate CanTick(s: State, t: TaskId) { s.serving && t !in s.tasks }

  predicate CanClaimEnter(s: State, t: TaskId) {
    t in s.tasks && s.tasks[t].ClaimWait? && s.locks.claim.None?
  }

  function DoClaimEnter(s: State, t: TaskId): State
    requires CanClaimEnter(s, t)
  {
    if s.shuttingDown || |s.inFlight| >= s.config.maxConcurrency then EndTask(s, t)
    else SetTask(s, t, ListWait(ClaimGoal)).(locks := s.locks.(claim := Some(t)))
  }

  predicate CanClaimPick(s: State, t: TaskId, listing: seq<Job>) {
    && t in s.tasks && s.tasks[t].Listing? && s.tasks[t].goal.ClaimGoal? && s.tasks[t].todo == {}
    && SortedListing(listing, s.tasks[t].seen)
  }

  function DoClaimPick(s: State, t: TaskId, listing: seq<Job>, now: nat): State
    requires CanClaimPick(s, t, listing)
  {
    var external := RunningIds(s.tasks[t].seen) - s.inFlight;
    var candidate := FirstClaimable(listing, s.inFlight);
    if s.shuttingDown || |s.inFlight| + |external| >= s.config.maxConcurrency || candidate.None?
    then FreeClaim(EndTask(s, t))
    else SetTask(s, t, Cas(candidate.value, Claim(now), Claiming, Waiting))
  }

  // ----- transition -----

  predicate InPhase(s: State, t: TaskId) { t in s.tasks && s.tasks[t].Cas? }

  predicate CanCasLock(s: State, t: TaskId) {
    InPhase(s, t) && s.tasks[t].phase.Waiting? && s.tasks[t].id !in s.locks.jobs
  }

  function DoCasLock(s: State, t: TaskId): State
    requires CanCasLock(s, t)
  {
    TakeJob(SetTask(s, t, s.tasks[t].(phase := Reading)), t, s.tasks[t].id)
  }

  predicate CanCasRead(s: State, t: TaskId) { InPhase(s, t) && s.tasks[t].phase.Reading? }

  function DoCasRead(s: State, t: TaskId): State
    requires CanCasRead(s, t)
  {
    var task := s.tasks[t];
    if task.id in s.disk.store && s.disk.store[task.id].status in Expected(task.op)
    then SetTask(s, t, task.(phase := Writing(s.disk.store[task.id])))
    else FreeJob(SetTask(s, t, task.(phase := Returned(None))), task.id)
  }

  function Replaced(d: Disk, id: JobId, next: Job): Disk {
    Written(d, id, next).(
      reports := if Terminal(next.status) && id !in d.reports then d.reports[id := ReportOf(next)] else d.reports)
  }

  predicate CanCasWrite(s: State, t: TaskId) { InPhase(s, t) && s.tasks[t].phase.Writing? }

  function DoCasWrite(s: State, t: TaskId): State
    requires CanCasWrite(s, t)
  {
    var task := s.tasks[t];
    var next := Update(task.op, task.phase.seen);
    FreeJob(SetTask(s, t, task.(phase := Returned(Some(next)))), task.id).(disk := Replaced(s.disk, task.id, next))
  }

  predicate CanCasReturn(s: State, t: TaskId, t': TaskId) {
    InPhase(s, t) && s.tasks[t].phase.Returned? && t' !in s.tasks
  }

  predicate Announced(task: Task)
    requires task.Cas? && task.phase.Returned?
  {
    task.phase.done.Some? && Terminal(task.phase.done.value.status) && !task.op.Recover?
  }

  // A terminal write is announced by a notification task of its own, except by restart recovery.
  function DoCasReturn(s: State, t: TaskId, t': TaskId): State
    requires CanCasReturn(s, t, t')
  {
    var task := s.tasks[t];
    match task.role
    case Claiming =>
      if task.phase.done.None? then FreeClaim(EndTask(s, t))
      else if s.shuttingDown then SetTask(s, t, Cas(task.id, Requeue, ClaimRequeue, Waiting))
      else FreeClaim(SetTask(s, t, RunReading(task.id))).(inFlight := s.inFlight + {task.id})
    case ClaimRequeue => FreeClaim(EndTask(s, t))
    case RunRequeue => SetTask(s, t, RunEnding(task.id))
    case RunFinish =>
      var ending := SetTask(s, t, RunEnding(task.id));
      if Announced(task) then SetTask(ending, t', Notifying(task.id)) else ending
    case Outside =>
      if Announced(task) then SetTask(EndTask(s, t), t', Notifying(task.id)) else EndTask(s, t)
  }

  // ----- executeJob -----

  predicate CanRunRead(s: State, t: TaskId) { t in s.tasks && s.tasks[t].RunReading? }

  function DoRunRead(s: State, t: TaskId): State
    requires CanRunRead(s, t)
  {
    var id := s.tasks[t].id;
    SetTask(s, t, RunDeciding(id, if id in s.disk.store then Some(s.disk.store[id]) else None))
  }

  predicate CanRunDecide(s: State, t: TaskId) { t in s.tasks && s.tasks[t].RunDeciding? }

  function RunNext(s: State, t: TaskId, now: nat): Task
    requires CanRunDecide(s, t)
  {
    var task := s.tasks[t];
    if task.read.None? || task.read.value.status != Running then RunEnding(task.id)
    else if s.shuttingDown then Cas(task.id, Requeue, RunRequeue, Waiting)
    else if task.read.value.mode == TmuxMode && !s.config.tmuxAvailable
    then Cas(task.id, FailRun("executionMode=tmux requires tmux session runner support.", now), RunFinish, Waiting)
    else Executing(task.id, task.read.value.mode)
  }

  function DoRunDecide(s: State, t: TaskId, now: nat): State
    requires CanRunDecide(s, t)
  {
    var next := RunNext(s, t, now);
    SetTask(s, t, next).(starts := if next.Executing? then s.starts + [next.id] else s.starts)
  }

  predicate CanRunOutcome(s: State, t: TaskId, op: Op) {
    && t in s.tasks && s.tasks[t].Executing?
    && (op.FailRun? || (if s.tasks[t].mode == ExecMode then op.Finish? else op.SetSession?))
  }

  function DoRunOutcome(s: State, t: TaskId, op: Op): State
    requires CanRunOutcome(s, t, op)
  {
    SetTask(s, t, Cas(s.tasks[t].id, op, RunFinish, Waiting))
  }

  predicate CanRunEnd(s: State, t: TaskId) { t in s.tasks && s.tasks[t].RunEnding? }

  function DoRunEnd(s: State, t: TaskId): State
    requires CanRunEnd(s, t)
  {
    EndTask(s, t).(inFlight := s.inFlight - {s.tasks[t].id})
  }

  // ----- callbacks, cancellation, tmux collection and tmux session updates -----

  predicate CanOutsideOp(s: State, t: TaskId, id: JobId, op: Op) {
    && s.serving && t !in s.tasks
    && (op.Callback? || op.CancelByApi?
        || ((op.Collect? || op.SetSession?) && id in s.disk.store && s.disk.store[id].mode == TmuxMode
            && s.disk.store[id].session.Some?))
  }

  // ----- notifications -----

  predicate CanNotifyStart(s: State, t: TaskId, id: JobId) {
    s.serving && t !in s.tasks && id in s.disk.store && Terminal(s.disk.store[id].status)
  }

  predicate CanPersistEnter(s: State, t: TaskId) {
    t in s.tasks && s.tasks[t].Notifying? && s.tasks[t].id !in s.locks.persists
  }

  function DoPersistEnter(s: State, t: TaskId, data: nat): State
    requires CanPersistEnter(s, t)
  {
    TakePersist(SetTask(s, t, PersistReading(s.tasks[t].id, data)), t, s.tasks[t].id)
  }

  predicate CanPersistRead(s: State, t: TaskId) { t in s.tasks && s.tasks[t].PersistReading? }

  // The read takes no job lock, and the save that follows checks nothing.
  function DoPersistRead(s: State, t: TaskId): State
    requires CanPersistRead(s, t)
  {
    var task := s.tasks[t];
    if task.id !in s.disk.store then FreePersist(EndTask(s, t), task.id)
    else SetTask(s, t, Saving(PersistPurpose(s.disk.store[task.id]), WithNotice(s.disk.store[task.id], task.data), false))
  }

  // ----- retention: the unlink takes no job lock -----

  predicate CanCleanupPick(s: State, t: TaskId, ids: set<JobId>) {
    && t in s.tasks && s.tasks[t].Listing? && s.tasks[t].goal.CleanupGoal? && s.tasks[t].todo == {}
    && forall id :: id in ids ==> id in s.tasks[t].seen && Terminal(s.tasks[t].seen[id].status)
  }

  predicate CanDeleteOne(s: State, t: TaskId, id: JobId) {
    t in s.tasks && s.tasks[t].Deleting? && id in s.tasks[t].ids
  }

  function DoDeleteOne(s: State, t: TaskId, id: JobId): State
    requires CanDeleteOne(s, t, id)
  {
    SetTask(s, t, Deleting(s.tasks[t].ids - {id})).(disk := s.disk.(store := s.disk.store - {id}))
  }

  // ----- process lifecycle -----

  function DoCrash(s: State, config: Config): State {
    State(s.disk, FREE, map[], {}, false, false, config, s.starts, s.baseRunning, s.baseActive)
  }

  predicate CanRecoverJob(s: State, t: TaskId, id: JobId, op: Op) {
    && !s.serving && t !in s.tasks && id in s.disk.store && s.disk.store[id].status == Running
    && if op.Collect? then s.disk.store[id].mode == TmuxMode && s.disk.store[id].session.Some?
       else op.Recover? && !Survives(s.disk.store[id])
  }

  // Recovery has gone through every running job and its transitions have returned.
  predicate CanServeStart(s: State) {
    && !s.serving
    && (forall t :: t in s.tasks ==> !(s.tasks[t].Cas? && !s.tasks[t].phase.Returned?))
    && (forall id :: id in s.disk.store && s.disk.store[id].status == Running ==> Survives(s.disk.store[id]))
  }

  function DoServeStart(s: State): State {
    s.(serving := true, baseRunning := |RunningIds(s.disk.store)|, baseActive := |ActiveIds(s.disk.store)|)
  }

  // ----- every interleaving -----

  predicate Enabled(s: State, e: Event) {
    match e
    case CreateArrive(t, _) => CanCreateArrive(s, t)
    case CreateEnter(t) => CanCreateEnter(s, t)
    case FindEnd(t) => CanFindEnd(s, t)
    case CountEnd(t, id, _, _) => CanCountEnd(s, t, id)
    case ListBegin(t) => CanListBegin(s, t)
    case ListRead(t, id) => CanListRead(s, t, id)
    case SaveLock(t) => CanSaveLock(s, t)
    case SaveWrite(t) => CanSaveWrite(s, t)
    case Tick(t) => CanTick(s, t)
    case ClaimEnter(t) => CanClaimEnter(s, t)
    case ClaimPick(t, listing, _) => CanClaimPick(s, t, listing)
    case CasLock(t) => CanCasLock(s, t)
    case CasRead(t) => CanCasRead(s, t)
    case CasWrite(t) => CanCasWrite(s, t)
    case CasReturn(t, t') => CanCasReturn(s, t, t')
    case RunRead(t) => CanRunRead(s, t)
    case RunDecide(t, _) => CanRunDecide(s, t)
    case RunOutcome(t, op) => CanRunOutcome(s, t, op)
    case RunEnd(t) => CanRunEnd(s, t)
    case OutsideOp(t, id, op) => CanOutsideOp(s, t, id, op)
    case NotifyStart(t, id) => CanNotifyStart(s, t, id)
    case PersistEnter(t, _) => CanPersistEnter(s, t)
    case PersistRead(t) => CanPersistRead(s, t)
    case CleanupStart(t) => t !in s.tasks
    case CleanupPick(t, ids) => CanCleanupPick(s, t, ids)
    case DeleteOne(t, id) => CanDeleteOne(s, t, id)
    case Shutdown => s.serving
    case Crash(_) => true
    case RecoverJob(t, id, op) => CanRecoverJob(s, t, id, op)
    case ServeStart => CanServeStart(s)
  }

  function Apply(s: State, e: Event): State
    requires Enabled(s, e)
  {
    match e
    case CreateArrive(t, req) => SetTask(s, t, CreateWait(req))
    case CreateEnter(t) => DoCreateEnter(s, t)
    case FindEnd(t) => DoFindEnd(s, t)
    case CountEnd(t, id, queueOrder, now) => DoCountEnd(s, t, id, queueOrder, now)
    case ListBegin(t) => DoListBegin(s, t)
    case ListRead(t, id) => DoListRead(s, t, id)
    case SaveLock(t) => DoSaveLock(s, t)
    case SaveWrite(t) => DoSaveWrite(s, t)
    case Tick(t) => SetTask(s, t, ClaimWait)
    case ClaimEnter(t) => DoClaimEnter(s, t)
    case ClaimPick(t, listing, now) => DoClaimPick(s, t, listing, now)
    case CasLock(t) => DoCasLock(s, t)
    case CasRead(t) => DoCasRead(s, t)
    case CasWrite(t) => DoCasWrite(s, t)
    case CasReturn(t, t') => DoCasReturn(s, t, t')
    case RunRead(t) => DoRunRead(s, t)
    case RunDecide(t, now) => DoRunDecide(s, t, now)
    case RunOutcome(t, op) => DoRunOutcome(s, t, op)
    case RunEnd(t) => DoRunEnd(s, t)
    case OutsideOp(t, id, op) => SetTask(s, t, Cas(id, op, Outside, Waiting))
    case NotifyStart(t, id) => SetTask(s, t, Notifying(id))
    case PersistEnter(t, data) => DoPersistEnter(s, t, data)
    case PersistRead(t) => DoPersistRead(s, t)
    case CleanupStart(t) => SetTask(s, t, ListWait(CleanupGoal))
    case CleanupPick(t, ids) => SetTask(s, t, Deleting(ids))
    case DeleteOne(t, id) => DoDeleteOne(s, t, id)
    case Shutdown => s.(shuttingDown := true)
    case Crash(config) => DoCrash(s, config)
    case RecoverJob(t, id, op) => SetTask(s, t, Cas(id, op, Outside, Waiting))
    case ServeStart => DoServeStart(s)
  }

  predicate Valid(s: State, run: seq<Event>)
    decreases |run|
  {
    run == [] || (Enabled(s, run[0]) && Valid(Apply(s, run[0]), run[1..]))
  }

  function Exec(s: State, run: seq<Event>): State
    requires Valid(s, run)
    decreases |run|
  {
    if run == [] then s else Exec(Apply(s, run[0]), run[1..])
  }
}

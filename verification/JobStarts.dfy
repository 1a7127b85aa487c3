/** Execution starts at most once per job, and every stored job only ever makes legal moves. */
module JobStarts {
  import opened Wrappers
  import opened JobModel
  import opened JobProtocol
  import opened JobInvariants

  // ----- what one event can do to one job file -----

  /** The only ways a job file changes: a fresh job is stored queued; a conditional transition
      replaces what is stored by its update, or by a file that nobody can read when a callback spoils it; a
      notification is added to a terminal job, which may write a deleted one back; a terminal job is unlinked. */
  ghost predicate Move(s: State, e: Event, d: Disk, d': Disk, id: JobId) {
    || (id !in d.store && id !in d'.store)
    || (id in d.store && id in d'.store && d'.store[id] == d.store[id])
    || (e.SaveWrite? && id !in d.stored && id in d'.store && d'.store[id].status == Queued)
    || (e.CasWrite? && e.t in s.tasks && s.tasks[e.t].Cas? && s.tasks[e.t].id == id
        && RoleFits(s.tasks[e.t].role, s.tasks[e.t].op)
        && id in d.store && d.store[id].status in Expected(s.tasks[e.t].op)
        && if Spoils(s.tasks[e.t].op) then id !in d'.store && id in d'.lost
           else id in d'.store && d'.store[id] == Update(s.tasks[e.t].op, d.store[id]))
    || (e.SaveWrite? && id in d.reports && id in d'.store && Terminal(d'.store[id].status)
        && ReportOf(d'.store[id]) == d.reports[id]
        && (id in d.store ==>
              && Terminal(d.store[id].status)
              && d'.store[id] == d.store[id].(notifyOutcome := d'.store[id].notifyOutcome,
                                              notifyHistory := d'.store[id].notifyHistory)))
    || (e.DeleteOne? && id in d.reports && id !in d'.store)
  }

  predicate Writes(e: Event) {
    e.SaveWrite? || e.CasWrite? || e.DeleteOne?
  }

  lemma ReturnTouchesNoFile(s: State, t: TaskId, t': TaskId)
    requires CanCasReturn(s, t, t')
    ensures DoCasReturn(s, t, t').disk == s.disk
  {
    hide Announced;
  }

  lemma ClaimTouchesNoFile(s: State, t: TaskId, listing: seq<Job>, now: nat)
    requires CanClaimPick(s, t, listing)
    ensures DoClaimPick(s, t, listing, now).disk == s.disk
  {
    hide FirstClaimable, RunningIds, SortedListing;
  }

  // The disk is as it was, apart from the ids in use.
  predicate SameFiles(d: Disk, d': Disk) {
    d' == d.(used := d'.used)
  }

  lemma CreateTouchesNoFile(s: State, e: Event)
    requires Enabled(s, e)
    requires e.CreateArrive? || e.CreateEnter? || e.FindEnd? || e.CountEnd? || e.ListBegin? || e.ListRead? || e.SaveLock?
    ensures SameFiles(s.disk, Apply(s, e).disk)
  {
    hide ActiveIds;
  }

  lemma CasTouchesNoFile(s: State, e: Event)
    requires Enabled(s, e)
    requires e.Tick? || e.ClaimEnter? || e.CasLock? || e.CasRead? || e.RunRead? || e.RunDecide? || e.RunOutcome? || e.RunEnd?
    ensures SameFiles(s.disk, Apply(s, e).disk)
  {
    hide RunNext, Expected;
  }

  /** No other event touches a job file. */
  lemma OnlyWritesTouchFiles(s: State, e: Event)
    requires Enabled(s, e) && !Writes(e)
    ensures SameFiles(s.disk, Apply(s, e).disk)
  {
    hide RunNext, ActiveIds, WithNotice, Survives, CanClaimPick, DoClaimPick, DoCasReturn, Update;
    if e.CasReturn? {
      ReturnTouchesNoFile(s, e.t, e.t');
    } else if e.ClaimPick? {
      ClaimTouchesNoFile(s, e.t, e.listing, e.now);
    } else if e.CreateArrive? || e.CreateEnter? || e.FindEnd? || e.CountEnd? || e.ListBegin? || e.ListRead? || e.SaveLock? {
      hide *;
      CreateTouchesNoFile(s, e);
    } else if e.Tick? || e.ClaimEnter? || e.CasLock? || e.CasRead? || e.RunRead? || e.RunDecide? || e.RunOutcome? || e.RunEnd? {
      hide *;
      CasTouchesNoFile(s, e);
    }
  }

  lemma SaveMove(s: State, t: TaskId, id: JobId)
    requires Core(s) && CanSaveWrite(s, t)
    ensures Move(s, SaveWrite(t), s.disk, DoSaveWrite(s, t).disk, id)
  {
    assert TaskOk(s.disk, s.locks, t, s.tasks[t]);
  }

  lemma CasMove(s: State, t: TaskId, id: JobId)
    requires Core(s) && CanCasWrite(s, t)
    ensures Move(s, CasWrite(t), s.disk, DoCasWrite(s, t).disk, id)
  {
    hide Update, Expected, LastTen, LastNotice, ReportOf, QuietOk;
    var task := s.tasks[t];
    WriterReads(s, t);
    assert TaskOk(s.disk, s.locks, t, task);
    UpdateShape(task.op, task.phase.seen);
  }

  lemma DeleteMove(s: State, t: TaskId, gone: JobId, id: JobId)
    requires Core(s) && CanDeleteOne(s, t, gone)
    ensures Move(s, DeleteOne(t, gone), s.disk, DoDeleteOne(s, t, gone).disk, id)
  {
    assert TaskOk(s.disk, s.locks, t, s.tasks[t]);
  }

  lemma MoveLegal(s: State, e: Event, id: JobId)
    requires Core(s) && Enabled(s, e)
    ensures Move(s, e, s.disk, Apply(s, e).disk, id)
  {
    if e.SaveWrite? {
      SaveMove(s, e.t, id);
    } else if e.CasWrite? {
      CasMove(s, e.t, id);
    } else if e.DeleteOne? {
      DeleteMove(s, e.t, e.id, id);
    } else {
      OnlyWritesTouchFiles(s, e);
    }
  }

  // ----- who may still start a job -----

  /** The job that this task alone is entitled to start or to give back to the queue. */
  function TokenOf(task: Task): Option<JobId> {
    match task
    case Cas(id, op, role, phase) =>
      if (role.Claiming? && phase.Returned? && phase.done.Some?)
         || ((role.ClaimRequeue? || role.RunRequeue?) && !phase.Returned?) then Some(id) else None
    case RunReading(id) => Some(id)
    case RunDeciding(id, _) => Some(id)
    case _ => None
  }

  /** The job whose run, from `inFlight.add` to `inFlight.delete`, this task carries out. */
  function RunOf(task: Task): Option<JobId> {
    match task
    case RunReading(id) => Some(id)
    case RunDeciding(id, _) => Some(id)
    case Executing(id, _) => Some(id)
    case RunEnding(id) => Some(id)
    case Cas(id, op, role, phase) => if role.RunRequeue? || role.RunFinish? then Some(id) else None
    case _ => None
  }

  function ClaimOf(task: Task): Option<JobId> {
    if task.Cas? && (task.role.Claiming? || task.role.ClaimRequeue?) then Some(task.id) else None
  }

  predicate GivesBack(task: Task) {
    task.Cas? && (task.role.ClaimRequeue? || task.role.RunRequeue?)
  }

  ghost predicate Startable(s: State, id: JobId) {
    id in s.disk.stored && id !in s.starts && (id in s.disk.store ==> s.disk.store[id].status != Queued)
  }

  ghost predicate TokenOk(s: State, task: Task) {
    && (TokenOf(task).Some? ==> Startable(s, TokenOf(task).value))
    && (RunOf(task).Some? ==> RunOf(task).value in s.inFlight)
    && (ClaimOf(task).Some? ==> ClaimOf(task).value !in s.inFlight)
    && (GivesBack(task) ==> s.shuttingDown)
  }

  ghost predicate Apart(a: Task, b: Task) {
    && (TokenOf(a).Some? ==> TokenOf(b) != TokenOf(a))
    && (RunOf(a).Some? ==> RunOf(b) != RunOf(a))
  }

  ghost predicate StartsOk(s: State) {
    && (forall i, j :: 0 <= i < j < |s.starts| ==> s.starts[i] != s.starts[j])
    && (forall id :: id in s.starts ==>
          id in s.disk.stored && (id in s.disk.store ==> s.disk.store[id].status != Queued))
  }

  ghost predicate InFlightOk(s: State) {
    forall id :: id in s.inFlight ==>
      id in s.disk.stored && (id in s.disk.store && s.disk.store[id].status == Queued ==> s.shuttingDown)
  }

  ghost predicate Tokens(s: State) {
    && StartsOk(s) && InFlightOk(s)
    && (forall t :: t in s.tasks ==> TokenOk(s, s.tasks[t]))
    && (forall t, u :: t in s.tasks && u in s.tasks && t != u ==> Apart(s.tasks[t], s.tasks[u]))
  }

  // `next` claims no more than `prior` did.
  ghost predicate Milder(prior: Option<Task>, next: Task) {
    && (TokenOf(next).Some? ==> prior.Some? && TokenOf(prior.value) == TokenOf(next))
    && (RunOf(next).Some? ==> prior.Some? && RunOf(prior.value) == RunOf(next))
    && (ClaimOf(next).Some? ==> prior.Some? && ClaimOf(prior.value) == ClaimOf(next))
    && (GivesBack(next) ==> prior.Some? && GivesBack(prior.value))
  }

  function TaskAt(s: State, t: TaskId): Option<Task> {
    if t in s.tasks then Some(s.tasks[t]) else None
  }

  ghost predicate NoNewQueued(d: Disk, d': Disk) {
    d.stored <= d'.stored
    && forall id :: id in d'.store && d'.store[id].status == Queued && id in d.stored ==>
         id in d.store && d.store[id].status == Queued
  }

  ghost predicate Shrinks(s: State, s': State) {
    && s'.starts == s.starts && s'.inFlight == s.inFlight && (s.shuttingDown ==> s'.shuttingDown)
    && NoNewQueued(s.disk, s'.disk)
    && forall t :: t in s'.tasks ==> Milder(TaskAt(s, t), s'.tasks[t])
  }

  lemma TokensShrink(s: State, s': State)
    requires Tokens(s) && Shrinks(s, s')
    ensures Tokens(s')
  {
    forall t | t in s'.tasks ensures TokenOk(s', s'.tasks[t]) {
      assert Milder(TaskAt(s, t), s'.tasks[t]);
      assert t in s.tasks ==> TokenOk(s, s.tasks[t]);
    }
    forall t, u | t in s'.tasks && u in s'.tasks && t != u ensures Apart(s'.tasks[t], s'.tasks[u]) {
      assert Milder(TaskAt(s, t), s'.tasks[t]) && Milder(TaskAt(s, u), s'.tasks[u]);
      assert t in s.tasks && u in s.tasks ==> Apart(s.tasks[t], s.tasks[u]);
    }
  }

  // Events that neither write a claim, a requeue or a new job, nor touch `inFlight` or `starts`.
  predicate Plain(s: State, e: Event)
    requires Enabled(s, e)
  {
    match e
    case ClaimPick(_, _, _) => false
    case CasWrite(t) => !s.tasks[t].op.Requeue? && !s.tasks[t].op.Claim?
    case CasReturn(t, _) => !s.tasks[t].role.Claiming?
    case RunDecide(_, _) => false
    case RunEnd(_) => false
    case Crash(_) => false
    case _ => true
  }

  lemma SaveNoNewQueued(s: State, t: TaskId)
    requires Core(s) && CanSaveWrite(s, t)
    ensures NoNewQueued(s.disk, DoSaveWrite(s, t).disk)
  {
    assert TaskOk(s.disk, s.locks, t, s.tasks[t]);
  }

  lemma CasNoNewQueued(s: State, t: TaskId)
    requires Core(s) && CanCasWrite(s, t) && !s.tasks[t].op.Requeue?
    ensures NoNewQueued(s.disk, DoCasWrite(s, t).disk)
  {
    assert TaskOk(s.disk, s.locks, t, s.tasks[t]);
    UpdateShape(s.tasks[t].op, s.tasks[t].phase.seen);
  }

  lemma PlainStore(s: State, e: Event)
    requires Core(s) && Enabled(s, e) && Plain(s, e)
    ensures NoNewQueued(s.disk, Apply(s, e).disk)
  {
    if e.SaveWrite? {
      SaveNoNewQueued(s, e.t);
    } else if e.CasWrite? {
      CasNoNewQueued(s, e.t);
    } else if !e.DeleteOne? {
      OnlyWritesTouchFiles(s, e);
    }
  }

  // At most task `t` changed, and it claims no more than before.
  ghost predicate OneMilder(s: State, s': State, t: TaskId) {
    && (forall u :: u in s'.tasks && u != t ==> u in s.tasks && s'.tasks[u] == s.tasks[u])
    && (t in s'.tasks ==> Milder(TaskAt(s, t), s'.tasks[t]))
  }

  lemma ShrinksOne(s: State, s': State, t: TaskId)
    requires OneMilder(s, s', t) && NoNewQueued(s.disk, s'.disk)
    requires s'.starts == s.starts && s'.inFlight == s.inFlight && (s.shuttingDown ==> s'.shuttingDown)
    ensures Shrinks(s, s')
  {
  }

  // What is left of `Shrinks` besides the tasks and the store.
  ghost predicate SameRuns(s: State, s': State) {
    s'.starts == s.starts && s'.inFlight == s.inFlight && (s.shuttingDown ==> s'.shuttingDown)
  }

  lemma PlainCreate(s: State, e: Event)
    requires Enabled(s, e)
    requires e.CreateArrive? || e.CreateEnter? || e.FindEnd? || e.CountEnd?
    ensures OneMilder(s, Apply(s, e), e.t) && SameRuns(s, Apply(s, e))
  {
    hide ActiveIds, NewJob;
  }

  lemma PlainFiles(s: State, e: Event)
    requires Enabled(s, e)
    requires e.ListBegin? || e.ListRead? || e.SaveLock? || e.SaveWrite? || e.DeleteOne?
    ensures OneMilder(s, Apply(s, e), e.t) && SameRuns(s, Apply(s, e))
  {
  }

  lemma PlainCasWrite(s: State, t: TaskId)
    requires Core(s) && CanCasWrite(s, t) && !s.tasks[t].op.Claim?
    ensures OneMilder(s, DoCasWrite(s, t), t) && SameRuns(s, DoCasWrite(s, t))
  {
    hide Update, Replaced, DiskOk, QuietOk, Expected;
    assert TaskOk(s.disk, s.locks, t, s.tasks[t]);
  }

  lemma PlainCas(s: State, e: Event)
    requires Enabled(s, e) && (e.CasLock? || e.CasRead?)
    ensures OneMilder(s, Apply(s, e), e.t) && SameRuns(s, Apply(s, e))
  {
    hide Expected;
  }

  lemma PlainEndReturn(s: State, t: TaskId, t': TaskId)
    requires CanCasReturn(s, t, t') && (s.tasks[t].role.Outside? || s.tasks[t].role.RunFinish?)
    ensures Shrinks(s, DoCasReturn(s, t, t'))
  {
    hide Announced;
  }

  lemma PlainReturn(s: State, t: TaskId, t': TaskId)
    requires CanCasReturn(s, t, t') && !s.tasks[t].role.Claiming?
    ensures Shrinks(s, DoCasReturn(s, t, t'))
  {
    if s.tasks[t].role.Outside? || s.tasks[t].role.RunFinish? {
      PlainEndReturn(s, t, t');
    }
  }

  lemma PlainRun(s: State, e: Event)
    requires Enabled(s, e)
    requires e.RunRead? || e.RunOutcome? || e.OutsideOp? || e.RecoverJob?
    ensures OneMilder(s, Apply(s, e), e.t) && SameRuns(s, Apply(s, e))
  {
    hide Survives;
  }

  lemma PlainClaim(s: State, e: Event)
    requires Enabled(s, e) && (e.Tick? || e.ClaimEnter?)
    ensures OneMilder(s, Apply(s, e), e.t) && SameRuns(s, Apply(s, e))
  {
  }

  lemma PlainNotify(s: State, e: Event)
    requires Enabled(s, e)
    requires e.NotifyStart? || e.PersistEnter? || e.PersistRead? || e.CleanupStart? || e.CleanupPick?
    ensures OneMilder(s, Apply(s, e), e.t) && SameRuns(s, Apply(s, e))
  {
    hide WithNotice;
  }

  lemma PlainShrinks(s: State, e: Event)
    requires Core(s) && Enabled(s, e) && Plain(s, e)
    ensures Shrinks(s, Apply(s, e))
  {
    PlainStore(s, e);
    if e.CasReturn? {
      PlainReturn(s, e.t, e.t');
    } else if !e.Shutdown? && !e.ServeStart? {
      if e.CreateArrive? || e.CreateEnter? || e.FindEnd? || e.CountEnd? {
        PlainCreate(s, e);
      } else if e.ListBegin? || e.ListRead? || e.SaveLock? || e.SaveWrite? || e.DeleteOne? {
        PlainFiles(s, e);
      } else if e.CasWrite? {
        PlainCasWrite(s, e.t);
      } else if e.CasLock? || e.CasRead? {
        PlainCas(s, e);
      } else if e.NotifyStart? || e.PersistEnter? || e.PersistRead? || e.CleanupStart? || e.CleanupPick? {
        PlainNotify(s, e);
      } else if e.Tick? || e.ClaimEnter? {
        PlainClaim(s, e);
      } else {
        PlainRun(s, e);
      }
      ShrinksOne(s, Apply(s, e), e.t);
    }
  }

  // ----- the events that matter -----

  // Task `t` becomes `task`, which stays apart from all others.
  lemma TokensSet(s: State, s': State, t: TaskId, task: Task)
    requires Tokens(s) && s'.tasks == s.tasks[t := task]
    requires StartsOk(s') && InFlightOk(s') && TokenOk(s', task)
    requires forall u :: u in s.tasks && u != t ==>
               TokenOk(s', s.tasks[u]) && Apart(task, s.tasks[u]) && Apart(s.tasks[u], task)
    ensures Tokens(s')
  {
  }

  lemma ClaimTaskTokens(s: State, t: TaskId, id: JobId, now: nat)
    requires Tokens(s) && t in s.tasks && id !in s.inFlight
    ensures Tokens(SetTask(s, t, Cas(id, Claim(now), Claiming, Waiting)))
  {
    var task := Cas(id, Claim(now), Claiming, Waiting);
    var s' := SetTask(s, t, task);
    assert TokenOf(task).None? && RunOf(task).None? && !GivesBack(task);
    assert StartsOk(s') && InFlightOk(s');
    forall u | u in s.tasks && u != t ensures TokenOk(s', s.tasks[u]) && Apart(task, s.tasks[u]) && Apart(s.tasks[u], task) {
      assert TokenOk(s, s.tasks[u]);
    }
    hide StartsOk, InFlightOk, TokenOk, Apart;
    TokensSet(s, s', t, task);
  }

  lemma ClaimPickTokens(s: State, t: TaskId, listing: seq<Job>, now: nat)
    requires Core(s) && Tokens(s) && CanClaimPick(s, t, listing)
    ensures Tokens(DoClaimPick(s, t, listing, now))
  {
    hide Core, Tokens, DoClaimPick, SortedListing, FirstClaimable;
    var candidate := ClaimPickShape(s, t, listing, now);
    if candidate.Some? {
      ClaimTaskTokens(s, t, candidate.value, now);
    } else {
      TokensShrink(s, FreeClaim(EndTask(s, t)));
    }
  }

  lemma ClaimWriteTokens(s: State, t: TaskId)
    requires Core(s) && Tokens(s) && CanCasWrite(s, t) && s.tasks[t].op.Claim?
    ensures Tokens(DoCasWrite(s, t))
  {
    var task := s.tasks[t];
    var s' := DoCasWrite(s, t);
    assert TaskOk(s.disk, s.locks, t, task);
    forall u | u in s.tasks && u != t
      ensures TokenOk(s', s.tasks[u]) && TokenOf(s.tasks[u]) != Some(task.id)
    {
      assert TokenOk(s, s.tasks[u]);
    }
    TokensSet(s, s', t, s'.tasks[t]);
  }

  // A requeue happens during shutdown and puts back a job that nobody else may start.
  lemma RequeueWriteSets(s: State, t: TaskId)
    requires Core(s) && Tokens(s) && CanCasWrite(s, t) && s.tasks[t].op.Requeue?
    ensures var s' := DoCasWrite(s, t); StartsOk(s') && InFlightOk(s') && TokenOk(s', s'.tasks[t])
  {
    hide DiskOk, QuietOk, Apart, Expected;
    assert TaskOk(s.disk, s.locks, t, s.tasks[t]) && TokenOk(s, s.tasks[t]);
    assert TokenOf(s.tasks[t]) == Some(s.tasks[t].id);
  }

  lemma RequeueWriteTokens(s: State, t: TaskId)
    requires Core(s) && Tokens(s) && CanCasWrite(s, t) && s.tasks[t].op.Requeue?
    ensures Tokens(DoCasWrite(s, t))
  {
    var s' := DoCasWrite(s, t);
    assert TaskOk(s.disk, s.locks, t, s.tasks[t]) && TokenOf(s.tasks[t]) == Some(s.tasks[t].id);
    RequeueWriteSets(s, t);
    hide StartsOk, InFlightOk, Core, Expected;
    forall u | u in s.tasks && u != t
      ensures TokenOk(s', s.tasks[u]) && Apart(s'.tasks[t], s.tasks[u]) && Apart(s.tasks[u], s'.tasks[t])
    {
      assert TokenOk(s, s.tasks[u]) && Apart(s.tasks[u], s.tasks[t]) && Apart(s.tasks[t], s.tasks[u]);
    }
    TokensSet(s, s', t, s'.tasks[t]);
  }

  // The claimer holds the mutex, and nobody else runs the job it has claimed.
  lemma ClaimerAlone(s: State, t: TaskId, u: TaskId)
    requires Core(s) && Tokens(s) && t in s.tasks && u in s.tasks && u != t && s.tasks[t].Cas? && s.tasks[t].role.Claiming?
    ensures RunOf(s.tasks[u]) != Some(s.tasks[t].id) && ClaimOf(s.tasks[u]).None?
  {
    hide DiskOk, QuietOk, JobOk, StartsOk, InFlightOk;
    assert TaskOk(s.disk, s.locks, t, s.tasks[t]) && TaskOk(s.disk, s.locks, u, s.tasks[u]);
    assert TokenOk(s, s.tasks[t]) && TokenOk(s, s.tasks[u]);
  }

  lemma RunReadTokens(s: State, t: TaskId)
    requires Core(s) && Tokens(s) && t in s.tasks && TokenOf(s.tasks[t]).Some?
    requires s.tasks[t].Cas? && s.tasks[t].role.Claiming? && !s.shuttingDown
    ensures var id := s.tasks[t].id; Tokens(FreeClaim(SetTask(s, t, RunReading(id))).(inFlight := s.inFlight + {id}))
  {
    var id := s.tasks[t].id;
    var s' := FreeClaim(SetTask(s, t, RunReading(id))).(inFlight := s.inFlight + {id});
    assert TokenOk(s, s.tasks[t]);
    forall u | u in s.tasks && u != t
      ensures TokenOk(s', s.tasks[u]) && Apart(RunReading(id), s.tasks[u]) && Apart(s.tasks[u], RunReading(id))
    {
      ClaimerAlone(s, t, u);
      assert TokenOk(s, s.tasks[u]) && Apart(s.tasks[u], s.tasks[t]) && Apart(s.tasks[t], s.tasks[u]);
    }
    hide Core, TokenOk, Apart;
    TokensSet(s, s', t, RunReading(id));
  }

  lemma ClaimReturnTokens(s: State, t: TaskId, t': TaskId)
    requires Core(s) && Tokens(s) && CanCasReturn(s, t, t') && s.tasks[t].role.Claiming?
    ensures Tokens(DoCasReturn(s, t, t'))
  {
    var task := s.tasks[t];
    hide Core, StartsOk, InFlightOk;
    if task.phase.done.None? {
      TokensShrink(s, FreeClaim(EndTask(s, t)));
    } else if !s.shuttingDown {
      RunReadTokens(s, t);
    } else {
      ClaimBackTokens(s, t);
    }
  }

  lemma ClaimBackTokens(s: State, t: TaskId)
    requires Tokens(s) && t in s.tasks && TokenOf(s.tasks[t]).Some?
    requires s.tasks[t].Cas? && s.tasks[t].role.Claiming? && s.shuttingDown
    ensures Tokens(SetTask(s, t, Cas(s.tasks[t].id, Requeue, ClaimRequeue, Waiting)))
  {
    var task := Cas(s.tasks[t].id, Requeue, ClaimRequeue, Waiting);
    var s' := SetTask(s, t, task);
    assert TokenOk(s, s.tasks[t]);
    assert TokenOk(s', task) && StartsOk(s') && InFlightOk(s');
    forall u | u in s.tasks && u != t
      ensures TokenOk(s', s.tasks[u]) && Apart(task, s.tasks[u]) && Apart(s.tasks[u], task)
    {
      assert TokenOk(s, s.tasks[u]) && Apart(s.tasks[u], s.tasks[t]) && Apart(s.tasks[t], s.tasks[u]);
    }
    hide TokenOk, Apart, StartsOk, InFlightOk;
    TokensSet(s, s', t, task);
  }

  lemma RunBeginTokens(s: State, t: TaskId, mode: Mode)
    requires Core(s) && Tokens(s) && CanRunDecide(s, t)
    ensures Tokens(SetTask(s, t, Executing(s.tasks[t].id, mode)).(starts := s.starts + [s.tasks[t].id]))
  {
    var task := s.tasks[t];
    var s' := SetTask(s, t, Executing(task.id, mode)).(starts := s.starts + [task.id]);
    assert TokenOk(s, task);
    forall u | u in s.tasks && u != t
      ensures TokenOk(s', s.tasks[u]) && Apart(s'.tasks[t], s.tasks[u]) && Apart(s.tasks[u], s'.tasks[t])
    {
      assert TokenOk(s, s.tasks[u]) && Apart(task, s.tasks[u]) && Apart(s.tasks[u], task);
    }
    TokensSet(s, s', t, s'.tasks[t]);
  }

  lemma RunBackTokens(s: State, t: TaskId)
    requires Tokens(s) && CanRunDecide(s, t) && s.shuttingDown
    ensures Tokens(SetTask(s, t, Cas(s.tasks[t].id, Requeue, RunRequeue, Waiting)))
  {
    var task := Cas(s.tasks[t].id, Requeue, RunRequeue, Waiting);
    var s' := SetTask(s, t, task);
    assert TokenOk(s, s.tasks[t]);
    forall u | u in s.tasks && u != t
      ensures TokenOk(s', s.tasks[u]) && Apart(task, s.tasks[u]) && Apart(s.tasks[u], task)
    {
      assert TokenOk(s, s.tasks[u]) && Apart(s.tasks[t], s.tasks[u]) && Apart(s.tasks[u], s.tasks[t]);
    }
    TokensSet(s, s', t, task);
  }

  lemma RunDecideTokens(s: State, t: TaskId, now: nat)
    requires Core(s) && Tokens(s) && CanRunDecide(s, t)
    ensures Tokens(DoRunDecide(s, t, now))
  {
    hide Core, Tokens;
    var task := s.tasks[t];
    var s' := DoRunDecide(s, t, now);
    if s'.tasks[t].Executing? {
      RunBeginTokens(s, t, task.read.value.mode);
    } else if s.shuttingDown && GivesBack(s'.tasks[t]) {
      RunBackTokens(s, t);
    } else {
      TokensShrink(s, s');
    }
  }

  lemma RunEndTokens(s: State, t: TaskId)
    requires Core(s) && Tokens(s) && CanRunEnd(s, t)
    ensures Tokens(DoRunEnd(s, t))
  {
    forall u | u in s.tasks && u != t ensures RunOf(s.tasks[u]) != Some(s.tasks[t].id) {
      assert Apart(s.tasks[u], s.tasks[t]);
    }
  }

  lemma CrashTokens(s: State, config: Config)
    requires Core(s) && Tokens(s)
    ensures Tokens(DoCrash(s, config))
  {
  }

  lemma TokensKept(s: State, e: Event)
    requires Core(s) && Tokens(s) && Enabled(s, e)
    ensures Tokens(Apply(s, e))
  {
    if Plain(s, e) {
      PlainShrinks(s, e);
      TokensShrink(s, Apply(s, e));
    } else {
      match e {
        case ClaimPick(t, listing, now) => ClaimPickTokens(s, t, listing, now);
        case CasWrite(t) => if s.tasks[t].op.Claim? { ClaimWriteTokens(s, t); } else { RequeueWriteTokens(s, t); }
        case CasReturn(t, t') => ClaimReturnTokens(s, t, t');
        case RunDecide(t, now) => RunDecideTokens(s, t, now);
        case RunEnd(t) => RunEndTokens(s, t);
        case Crash(config) => CrashTokens(s, config);
      }
    }
  }
}

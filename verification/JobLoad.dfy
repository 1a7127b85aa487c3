/** The two admission limits: `maxConcurrency` on jobs running in the store or in flight, and
    `maxActiveJobs` on queued plus running jobs, although both are checked against listings that
    are read file by file while other tasks move on. */
module JobLoad {
  import opened Wrappers
  import opened JobModel
  import opened JobProtocol
  import opened JobInvariants
  import opened JobStarts
  import opened Sequences

  predicate Claimed(task: Task) {
    task.Cas? && task.role.Claiming? && task.phase.Returned? && task.phase.done.Some?
  }

  // Claimed in the store, not yet added to `inFlight`.
  function ClaimedIds(tasks: map<TaskId, Task>): set<JobId> {
    set t | t in tasks && Claimed(tasks[t]) :: tasks[t].id
  }

  /** The jobs that occupy a concurrency slot. */
  function Occupied(s: State): set<JobId> {
    RunningIds(s.disk.store) + s.inFlight + ClaimedIds(s.tasks)
  }

  ghost predicate LoadTask(s: State, task: Task) {
    match task
    case Cas(_, _, role, phase) => role.Claiming? && !phase.Returned? ==> |Occupied(s)| < s.config.maxConcurrency
    case Listing(goal, todo, seen) =>
      && (goal.ClaimGoal? ==> RunningIds(s.disk.store) <= todo + RunningIds(seen))
      && (goal.CountGoal? ==> ActiveIds(s.disk.store) <= todo + ActiveIds(seen))
    case Saving(purpose, _, _) => purpose.CreatePurpose? ==> |ActiveIds(s.disk.store)| < s.config.maxActiveJobs
    case _ => true
  }

  /** Both limits hold, except for load that was already there when the process began to serve. */
  ghost predicate WithinLimits(s: State) {
    s.serving ==>
      && |Occupied(s)| <= Max(s.config.maxConcurrency, s.baseRunning)
      && |ActiveIds(s.disk.store)| <= Max(s.config.maxActiveJobs, s.baseActive)
  }

  ghost predicate LoadOk(s: State) {
    WithinLimits(s) && forall t :: t in s.tasks ==> LoadTask(s, s.tasks[t])
  }

  lemma SubsetSize<T>(a: set<T>, b: set<T>)
    requires a <= b
    ensures |a| <= |b|
  {
    assert b == a + (b - a);
  }

  // ----- what does not grow -----

  predicate ClaimWrites(s: State, e: Event) {
    e.CasWrite? && e.t in s.tasks && s.tasks[e.t].Cas? && s.tasks[e.t].op.Claim?
  }

  predicate CreateWrites(s: State, e: Event) {
    e.SaveWrite? && e.t in s.tasks && s.tasks[e.t].Saving? && s.tasks[e.t].purpose.CreatePurpose?
  }

  lemma CasNoNewRunning(s: State, t: TaskId)
    requires Core(s) && CanCasWrite(s, t)
    ensures ActiveIds(DoCasWrite(s, t).disk.store) <= ActiveIds(s.disk.store)
    ensures !s.tasks[t].op.Claim? ==> RunningIds(DoCasWrite(s, t).disk.store) <= RunningIds(s.disk.store)
  {
    hide Update, DiskOk, QuietOk;
    assert TaskOk(s.disk, s.locks, t, s.tasks[t]);
    UpdateShape(s.tasks[t].op, s.tasks[t].phase.seen);
  }

  lemma SaveNoNewRunning(s: State, t: TaskId)
    requires Core(s) && CanSaveWrite(s, t)
    ensures RunningIds(DoSaveWrite(s, t).disk.store) <= RunningIds(s.disk.store)
    ensures s.tasks[t].purpose.PersistPurpose? ==> ActiveIds(DoSaveWrite(s, t).disk.store) <= ActiveIds(s.disk.store)
  {
    hide DiskOk, QuietOk, LastTen;
    assert TaskOk(s.disk, s.locks, t, s.tasks[t]);
  }

  lemma NoNewRunning(s: State, e: Event)
    requires Core(s) && Enabled(s, e) && !ClaimWrites(s, e)
    ensures RunningIds(Apply(s, e).disk.store) <= RunningIds(s.disk.store)
  {
    if e.CasWrite? {
      CasNoNewRunning(s, e.t);
    } else if e.SaveWrite? {
      SaveNoNewRunning(s, e.t);
    } else if !e.DeleteOne? {
      OnlyWritesTouchFiles(s, e);
    }
  }

  lemma NoNewActive(s: State, e: Event)
    requires Core(s) && Enabled(s, e) && !CreateWrites(s, e)
    ensures ActiveIds(Apply(s, e).disk.store) <= ActiveIds(s.disk.store)
  {
    if e.CasWrite? {
      CasNoNewRunning(s, e.t);
    } else if e.SaveWrite? {
      SaveNoNewRunning(s, e.t);
    } else if !e.DeleteOne? {
      OnlyWritesTouchFiles(s, e);
    }
  }

  // Task `t` alone changed, and it watches the load no more than before.
  ghost predicate LoadMilder(prior: Option<Task>, next: Task) {
    match next
    case Cas(_, _, role, phase) =>
      role.Claiming? && !phase.Returned? ==>
        prior.Some? && prior.value.Cas? && prior.value.role.Claiming? && !prior.value.phase.Returned?
    case Listing(goal, _, _) => goal.CleanupGoal? || goal.FindGoal?
    case Saving(purpose, _, _) =>
      purpose.CreatePurpose? ==> prior.Some? && prior.value.Saving? && prior.value.purpose.CreatePurpose?
    case _ => true
  }

  ghost predicate LoadQuiet(s: State, s': State, t: TaskId) {
    && s'.config == s.config && (s'.serving ==> s.serving)
    && s'.baseRunning == s.baseRunning && s'.baseActive == s.baseActive
    && s'.inFlight <= s.inFlight + ClaimedIds(s.tasks)
    && (forall u :: u in s'.tasks && u != t ==> (u in s.tasks && s'.tasks[u] == s.tasks[u]) || s'.tasks[u].Notifying?)
    && (t in s'.tasks ==>
          && LoadMilder(TaskAt(s, t), s'.tasks[t])
          && (Claimed(s'.tasks[t]) ==> t in s.tasks && Claimed(s.tasks[t]) && s'.tasks[t].id == s.tasks[t].id))
  }

  lemma LoadTaskFramed(s: State, s': State, task: Task)
    requires LoadTask(s, task) && s'.config == s.config
    requires Occupied(s') <= Occupied(s)
    requires RunningIds(s'.disk.store) <= RunningIds(s.disk.store)
    requires ActiveIds(s'.disk.store) <= ActiveIds(s.disk.store)
    ensures LoadTask(s', task)
  {
    SubsetSize(Occupied(s'), Occupied(s));
    SubsetSize(ActiveIds(s'.disk.store), ActiveIds(s.disk.store));
  }

  lemma QuietTask(s: State, s': State, t: TaskId, u: TaskId)
    requires LoadOk(s) && LoadQuiet(s, s', t) && u in s'.tasks
    requires Occupied(s') <= Occupied(s) && |Occupied(s')| <= |Occupied(s)|
    requires RunningIds(s'.disk.store) <= RunningIds(s.disk.store)
    requires ActiveIds(s'.disk.store) <= ActiveIds(s.disk.store) && |ActiveIds(s'.disk.store)| <= |ActiveIds(s.disk.store)|
    ensures LoadTask(s', s'.tasks[u])
  {
    hide RunningIds, ActiveIds, ClaimedIds, Occupied, Claimed, WithinLimits;
    if u == t {
      assert LoadMilder(TaskAt(s, t), s'.tasks[t]);
      assert t in s.tasks ==> LoadTask(s, s.tasks[t]);
    } else if !s'.tasks[u].Notifying? {
      LoadTaskFramed(s, s', s.tasks[u]);
    }
  }

  lemma LoadQuietKept(s: State, s': State, t: TaskId)
    requires LoadOk(s) && LoadQuiet(s, s', t)
    requires RunningIds(s'.disk.store) <= RunningIds(s.disk.store)
    requires ActiveIds(s'.disk.store) <= ActiveIds(s.disk.store)
    ensures LoadOk(s')
  {
    QuietSets(s, s', t);
    forall u | u in s'.tasks ensures LoadTask(s', s'.tasks[u]) {
      hide *;
      QuietTask(s, s', t, u);
    }
    hide RunningIds, ActiveIds, ClaimedIds, Occupied, LoadTask, LoadMilder, Claimed;
  }

  lemma QuietSets(s: State, s': State, t: TaskId)
    requires LoadQuiet(s, s', t) && RunningIds(s'.disk.store) <= RunningIds(s.disk.store)
    requires ActiveIds(s'.disk.store) <= ActiveIds(s.disk.store)
    ensures Occupied(s') <= Occupied(s) && |Occupied(s')| <= |Occupied(s)|
    ensures |ActiveIds(s'.disk.store)| <= |ActiveIds(s.disk.store)|
  {
    hide RunningIds, ActiveIds, LoadMilder;
    assert ClaimedIds(s'.tasks) <= ClaimedIds(s.tasks);
    SubsetSize(Occupied(s'), Occupied(s));
    SubsetSize(ActiveIds(s'.disk.store), ActiveIds(s.disk.store));
  }

  lemma LoadSet(s: State, t: TaskId, task: Task)
    requires LoadOk(s) && LoadTask(s, task) && !Claimed(task)
    ensures LoadOk(SetTask(s, t, task))
  {
    var s' := SetTask(s, t, task);
    assert ClaimedIds(s'.tasks) <= ClaimedIds(s.tasks);
    SubsetSize(Occupied(s'), Occupied(s));
    forall u | u in s'.tasks ensures LoadTask(s', s'.tasks[u]) {
      LoadTaskFramed(s, s', s'.tasks[u]);
    }
  }

  // ----- listings -----

  lemma ListBeginLoad(s: State, t: TaskId)
    requires Core(s) && LoadOk(s) && CanListBegin(s, t)
    ensures LoadOk(DoListBegin(s, t))
  {
    LoadSet(s, t, DoListBegin(s, t).tasks[t]);
  }

  // What is stored is still to be read or has been seen, also after one more read.
  lemma ReadCovers(store: map<JobId, Job>, todo: set<JobId>, seen: map<JobId, Job>, id: JobId)
    ensures var after := if id in store then seen[id := store[id]] else seen;
            && (RunningIds(store) <= todo + RunningIds(seen) ==> RunningIds(store) <= todo - {id} + RunningIds(after))
            && (ActiveIds(store) <= todo + ActiveIds(seen) ==> ActiveIds(store) <= todo - {id} + ActiveIds(after))
  {
  }

  lemma ListReadLoad(s: State, t: TaskId, id: JobId)
    requires Core(s) && LoadOk(s) && CanListRead(s, t, id)
    ensures LoadOk(DoListRead(s, t, id))
  {
    hide Core, Occupied, RunningIds, ActiveIds;
    assert LoadTask(s, s.tasks[t]);
    ReadCovers(s.disk.store, s.tasks[t].todo, s.tasks[t].seen, id);
    LoadSet(s, t, DoListRead(s, t, id).tasks[t]);
  }

  // ----- the concurrency limit -----

  /** What the claimer counts covers every occupied slot. */
  lemma ClaimerCountsAll(s: State, t: TaskId)
    requires Core(s) && LoadOk(s) && t in s.tasks && s.tasks[t].Listing? && s.tasks[t].goal.ClaimGoal?
    requires s.tasks[t].todo == {}
    ensures |Occupied(s)| <= |s.inFlight| + |RunningIds(s.tasks[t].seen) - s.inFlight|
  {
    var external := RunningIds(s.tasks[t].seen) - s.inFlight;
    assert TaskOk(s.disk, s.locks, t, s.tasks[t]) && LoadTask(s, s.tasks[t]);
    assert ClaimedIds(s.tasks) == {} by {
      forall u | u in s.tasks ensures !Claimed(s.tasks[u]) {
        assert TaskOk(s.disk, s.locks, u, s.tasks[u]);
      }
    }
    assert Occupied(s) <= s.inFlight + external;
    SubsetSize(Occupied(s), s.inFlight + external);
    assert |s.inFlight + external| == |s.inFlight| + |external|;
  }

  lemma ClaimPickLoad(s: State, t: TaskId, listing: seq<Job>, now: nat)
    requires Core(s) && LoadOk(s) && CanClaimPick(s, t, listing)
    ensures LoadOk(DoClaimPick(s, t, listing, now))
  {
    var candidate := ClaimPickShape(s, t, listing, now);
    if candidate.Some? {
      ClaimerCountsAll(s, t);
      assert |s.inFlight| + |RunningIds(s.tasks[t].seen) - s.inFlight| < s.config.maxConcurrency by {
        assert t in DoClaimPick(s, t, listing, now).tasks;
      }
      LoadSet(s, t, Cas(candidate.value, Claim(now), Claiming, Waiting));
    } else {
      LoadQuietKept(s, FreeClaim(EndTask(s, t)), t);
    }
  }

  // What a written claim changes as far as the limits are concerned.
  ghost predicate ClaimAdds(s: State, s': State, t: TaskId, id: JobId) {
    && Occupied(s') <= Occupied(s) + {id} && ActiveIds(s'.disk.store) == ActiveIds(s.disk.store)
    && s'.config == s.config && s'.serving == s.serving
    && s'.baseRunning == s.baseRunning && s'.baseActive == s.baseActive
    && s'.tasks.Keys == s.tasks.Keys && t in s.tasks && s'.tasks == s.tasks[t := s'.tasks[t]]
    && s'.tasks[t].Cas? && s'.tasks[t].phase.Returned?
  }

  lemma StartedSets(store: map<JobId, Job>, id: JobId, next: Job)
    requires id in store && Active(store[id].status) && next.status == Running
    ensures RunningIds(store[id := next]) <= RunningIds(store) + {id}
    ensures ActiveIds(store[id := next]) == ActiveIds(store)
  {
  }

  lemma ClaimWriteStores(s: State, t: TaskId)
    requires Core(s) && CanCasWrite(s, t) && s.tasks[t].op.Claim?
    ensures var before, after := s.disk.store, DoCasWrite(s, t).disk.store;
            RunningIds(after) <= RunningIds(before) + {s.tasks[t].id} && ActiveIds(after) == ActiveIds(before)
  {
    hide RunningIds, ActiveIds;
    var task := s.tasks[t];
    assert TaskOk(s.disk, s.locks, t, task);
    WriterReads(s, t);
    UpdateShape(task.op, task.phase.seen);
    hide Core, TaskOk, Update;
    assert DoCasWrite(s, t).disk.store == s.disk.store[task.id := Update(task.op, task.phase.seen)];
    StartedSets(s.disk.store, task.id, Update(task.op, task.phase.seen));
  }

  lemma ClaimWriteSets(s: State, t: TaskId)
    requires Core(s) && CanCasWrite(s, t) && s.tasks[t].op.Claim?
    ensures ClaimAdds(s, DoCasWrite(s, t), t, s.tasks[t].id)
  {
    hide RunningIds, ActiveIds;
    var task, s' := s.tasks[t], DoCasWrite(s, t);
    ClaimWriteStores(s, t);
    hide Core, Update, Replaced;
    assert ClaimedIds(s'.tasks) <= ClaimedIds(s.tasks) + {task.id};
  }

  lemma ClaimAddsWithin(s: State, s': State, t: TaskId, id: JobId)
    requires WithinLimits(s) && ClaimAdds(s, s', t, id) && |Occupied(s)| < s.config.maxConcurrency
    ensures WithinLimits(s')
  {
    hide Occupied, ActiveIds;
    SubsetSize(Occupied(s'), Occupied(s) + {id});
  }

  // The claimer holds the mutex, so no other task is claiming or listing for a claim.
  lemma ClaimWriteOthers(s: State, s': State, t: TaskId, u: TaskId)
    requires Core(s) && LoadOk(s) && t in s.tasks && u in s.tasks && u != t
    requires s.tasks[t].Cas? && s.tasks[t].role.Claiming?
    requires ActiveIds(s'.disk.store) == ActiveIds(s.disk.store) && s'.config == s.config
    ensures LoadTask(s', s.tasks[u])
  {
    assert TaskOk(s.disk, s.locks, t, s.tasks[t]);
    assert TaskOk(s.disk, s.locks, u, s.tasks[u]) && LoadTask(s, s.tasks[u]);
  }

  lemma ClaimWriteLoad(s: State, t: TaskId)
    requires Core(s) && LoadOk(s) && CanCasWrite(s, t) && s.tasks[t].op.Claim?
    ensures LoadOk(DoCasWrite(s, t))
  {
    var s' := DoCasWrite(s, t);
    ClaimWriteSets(s, t);
    ClaimHolds(s, t);
    hide Core, WithinLimits, Occupied, ActiveIds, DoCasWrite, ClaimAdds, LoadTask;
    ClaimAddsWithin(s, s', t, s.tasks[t].id);
    ClaimWriteTasks(s, s', t);
  }

  lemma ClaimWriteTasks(s: State, s': State, t: TaskId)
    requires Core(s) && LoadOk(s) && t in s.tasks && s.tasks[t].Cas? && s.tasks[t].role.Claiming?
    requires ClaimAdds(s, s', t, s.tasks[t].id)
    ensures forall u :: u in s'.tasks ==> LoadTask(s', s'.tasks[u])
  {
    hide Core, WithinLimits, Occupied, ActiveIds;
    forall u | u in s'.tasks && u != t ensures LoadTask(s', s'.tasks[u]) {
      ClaimWriteOthers(s, s', t, u);
    }
  }

  lemma ClaimHolds(s: State, t: TaskId)
    requires Core(s) && LoadOk(s) && CanCasWrite(s, t) && s.tasks[t].op.Claim?
    ensures s.tasks[t].role.Claiming? && |Occupied(s)| < s.config.maxConcurrency
  {
    hide DiskOk, QuietOk, Occupied, ActiveIds, WithinLimits;
    assert TaskOk(s.disk, s.locks, t, s.tasks[t]) && LoadTask(s, s.tasks[t]);
  }

  // ----- the active-job limit -----

  lemma CountEndLoad(s: State, t: TaskId, id: JobId, queueOrder: nat, now: nat)
    requires Core(s) && LoadOk(s) && CanCountEnd(s, t, id)
    ensures LoadOk(DoCountEnd(s, t, id, queueOrder, now))
  {
    hide Core;
    var s' := DoCountEnd(s, t, id, queueOrder, now);
    assert LoadTask(s, s.tasks[t]);
    if t in s'.tasks {
      SubsetSize(ActiveIds(s.disk.store), ActiveIds(s.tasks[t].seen));
      LoadSet(s, t, s'.tasks[t]);
      assert Occupied(s') == Occupied(SetTask(s, t, s'.tasks[t]));
      forall u | u in s'.tasks ensures LoadTask(s', s'.tasks[u]) {
        assert LoadTask(SetTask(s, t, s'.tasks[t]), s'.tasks[u]);
      }
    } else {
      LoadQuietKept(s, s', t);
    }
  }

  lemma CreateWriteLoad(s: State, t: TaskId)
    requires Core(s) && LoadOk(s) && CanSaveWrite(s, t) && s.tasks[t].purpose.CreatePurpose?
    ensures LoadOk(DoSaveWrite(s, t))
  {
    var s' := DoSaveWrite(s, t);
    var id := s.tasks[t].job.id;
    assert TaskOk(s.disk, s.locks, t, s.tasks[t]) && LoadTask(s, s.tasks[t]);
    assert s.serving by { assert s.locks.create == Some(t); }
    assert ClaimedIds(s'.tasks) <= ClaimedIds(s.tasks);
    assert RunningIds(s'.disk.store) <= RunningIds(s.disk.store);
    SubsetSize(Occupied(s'), Occupied(s));
    assert ActiveIds(s'.disk.store) <= ActiveIds(s.disk.store) + {id};
    SubsetSize(ActiveIds(s'.disk.store), ActiveIds(s.disk.store) + {id});
    forall u | u in s'.tasks ensures LoadTask(s', s'.tasks[u]) {
      assert TaskOk(s.disk, s.locks, u, s.tasks[u]) && LoadTask(s, s.tasks[u]);
    }
  }

  // ----- everything else -----

  predicate LoadPlain(s: State, e: Event) {
    !e.ListBegin? && !e.ListRead? && !e.ClaimPick? && !e.CountEnd? && !ClaimWrites(s, e) && !CreateWrites(s, e)
    && !e.ServeStart? && !e.Crash? && !e.Shutdown?
  }

  lemma PlainQuietCreate(s: State, e: Event)
    requires Core(s) && Enabled(s, e) && LoadPlain(s, e)
    requires e.CreateArrive? || e.CreateEnter? || e.FindEnd? || e.SaveLock? || e.SaveWrite? || e.Tick? || e.ClaimEnter?
    ensures LoadQuiet(s, Apply(s, e), e.t)
  {
    hide Core;
  }

  lemma PlainQuietCas(s: State, e: Event)
    requires Enabled(s, e) && (e.CasLock? || e.CasRead?)
    ensures LoadQuiet(s, Apply(s, e), e.t)
  {
    hide Expected;
  }

  lemma PlainQuietWrite(s: State, t: TaskId)
    requires Core(s) && CanCasWrite(s, t) && !s.tasks[t].op.Claim?
    ensures LoadQuiet(s, DoCasWrite(s, t), t)
  {
    hide Update, Replaced, DiskOk, QuietOk, Expected;
    assert TaskOk(s.disk, s.locks, t, s.tasks[t]);
  }

  lemma PlainQuietReturn(s: State, t: TaskId, t': TaskId)
    requires Core(s) && CanCasReturn(s, t, t')
    ensures LoadQuiet(s, DoCasReturn(s, t, t'), t)
  {
    assert TaskOk(s.disk, s.locks, t, s.tasks[t]);
    assert Claimed(s.tasks[t]) ==> s.tasks[t].id in ClaimedIds(s.tasks);
  }

  lemma PlainQuietRun(s: State, e: Event)
    requires Core(s) && Enabled(s, e) && LoadPlain(s, e)
    requires e.RunRead? || e.RunDecide? || e.RunOutcome? || e.RunEnd? || e.OutsideOp? || e.RecoverJob?
    ensures LoadQuiet(s, Apply(s, e), e.t)
  {
    hide Core, Survives;
  }

  lemma PlainQuietNotify(s: State, e: Event)
    requires Core(s) && Enabled(s, e) && LoadPlain(s, e)
    requires e.NotifyStart? || e.PersistEnter? || e.PersistRead? || e.CleanupStart? || e.CleanupPick? || e.DeleteOne?
    ensures LoadQuiet(s, Apply(s, e), e.t)
  {
    hide Core, WithNotice;
  }

  lemma PlainQuiet(s: State, e: Event)
    requires Core(s) && Enabled(s, e) && LoadPlain(s, e)
    ensures LoadQuiet(s, Apply(s, e), e.t)
  {
    if e.CasReturn? {
      PlainQuietReturn(s, e.t, e.t');
    } else if e.CasWrite? {
      PlainQuietWrite(s, e.t);
    } else if e.CasLock? || e.CasRead? {
      PlainQuietCas(s, e);
    } else if e.RunRead? || e.RunDecide? || e.RunOutcome? || e.RunEnd? || e.OutsideOp? || e.RecoverJob? {
      PlainQuietRun(s, e);
    } else if e.NotifyStart? || e.PersistEnter? || e.PersistRead? || e.CleanupStart? || e.CleanupPick? || e.DeleteOne? {
      PlainQuietNotify(s, e);
    } else {
      PlainQuietCreate(s, e);
    }
  }

  lemma PlainLoad(s: State, e: Event)
    requires Core(s) && LoadOk(s) && Enabled(s, e) && LoadPlain(s, e)
    ensures LoadOk(Apply(s, e))
  {
    NoNewRunning(s, e);
    NoNewActive(s, e);
    PlainQuiet(s, e);
    LoadQuietKept(s, Apply(s, e), e.t);
  }

  lemma ServeStartLoad(s: State)
    requires Core(s) && LoadOk(s) && CanServeStart(s)
    ensures LoadOk(DoServeStart(s))
  {
    hide DiskOk, TasksOk, Survives;
    assert ClaimedIds(s.tasks) == {};
    assert Occupied(DoServeStart(s)) == RunningIds(s.disk.store);
    forall u | u in s.tasks ensures LoadTask(DoServeStart(s), s.tasks[u]) {
      assert Background(s.tasks[u]);
    }
  }

  lemma ShutdownLoad(s: State)
    requires LoadOk(s)
    ensures LoadOk(s.(shuttingDown := true))
  {
    var s' := s.(shuttingDown := true);
    assert Occupied(s') == Occupied(s);
    forall u | u in s.tasks ensures LoadTask(s', s.tasks[u]) {
      assert LoadTask(s, s.tasks[u]);
    }
  }

  lemma CrashLoad(s: State, config: Config)
    ensures LoadOk(DoCrash(s, config))
  {
  }

  lemma LoadKept(s: State, e: Event)
    requires Core(s) && LoadOk(s) && Enabled(s, e)
    ensures LoadOk(Apply(s, e))
  {
    hide Core, LoadOk;
    if LoadPlain(s, e) {
      PlainLoad(s, e);
    } else if e.ListBegin? {
      ListBeginLoad(s, e.t);
    } else if e.ListRead? {
      ListReadLoad(s, e.t, e.id);
    } else if e.ClaimPick? {
      ClaimPickLoad(s, e.t, e.listing, e.now);
    } else if e.CountEnd? {
      CountEndLoad(s, e.t, e.id, e.queueOrder, e.now);
    } else if e.CasWrite? {
      ClaimWriteLoad(s, e.t);
    } else if e.SaveWrite? {
      CreateWriteLoad(s, e.t);
    } else if e.ServeStart? {
      ServeStartLoad(s);
    } else if e.Shutdown? {
      ShutdownLoad(s);
    } else {
      CrashLoad(s, e.config);
    }
  }
}

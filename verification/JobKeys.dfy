/** Request keys: at most one stored job for each source and request id. The search for an existing job,
    the count of active jobs and the save are separate steps, and a notification that is persisted late can
    write a deleted job back; `KeysExact` says exactly when that breaks the rule. */
module JobKeys {
  import opened Wrappers
  import opened JobModel
  import opened JobProtocol
  import opened JobInvariants
  import opened JobStarts

  /** No two stored jobs have the same request key. */
  ghost predicate UniqueKeys(store: map<JobId, Job>) {
    forall a, b :: a in store && b in store && a != b && store[a].key.Some? ==> store[a].key != store[b].key
  }

  /** A task that is going to create a job for `key`, and whose search will not find job `id` any more. */
  predicate PastSearch(task: Task, id: JobId, key: Option<RequestKey>) {
    match task
    case ListWait(goal) => goal.CountGoal? && goal.req.key == key
    case Listing(goal, todo, seen) =>
      || (goal.CountGoal? && goal.req.key == key)
      || (goal.FindGoal? && goal.req.key == key && id !in todo && !(id in seen && seen[id].key == key))
    case Saving(purpose, job, _) => purpose.CreatePurpose? && job.key == key
    case _ => false
  }

  // No stored job escapes the search of a task that creates one for the same key.
  ghost predicate KeyTask(store: map<JobId, Job>, task: Task) {
    forall id :: id in store && store[id].key.Some? ==> !PastSearch(task, id, store[id].key)
  }

  ghost predicate KeysOk(s: State) {
    UniqueKeys(s.disk.store) && forall t :: t in s.tasks ==> KeyTask(s.disk.store, s.tasks[t])
  }

  /** The event saves a notification outcome into a job that cleanup has deleted since it was read. */
  predicate WritesBack(s: State, e: Event) {
    && e.SaveWrite? && e.t in s.tasks && s.tasks[e.t].Saving? && s.tasks[e.t].purpose.PersistPurpose?
    && s.tasks[e.t].job.id !in s.disk.store
  }

  /** The key of job `id` is in use: by another stored job, or by a task that is past its search for it. */
  ghost predicate Taken(s: State, id: JobId, key: Option<RequestKey>) {
    && key.Some?
    && ((exists other :: other in s.disk.store && s.disk.store[other].key == key)
        || exists u :: u in s.tasks && PastSearch(s.tasks[u], id, key))
  }

  // No new key appears in the store.
  ghost predicate KeysShrink(store: map<JobId, Job>, store': map<JobId, Job>) {
    forall id :: id in store' ==> id in store && store'[id].key == store[id].key
  }

  lemma CasWriteKeys(s: State, t: TaskId)
    requires Core(s) && CanCasWrite(s, t)
    ensures KeysShrink(s.disk.store, DoCasWrite(s, t).disk.store)
  {
    hide Update, Expected, LastTen, QuietOk, DiskOk;
    assert TaskOk(s.disk, s.locks, t, s.tasks[t]);
    UpdateShape(s.tasks[t].op, s.tasks[t].phase.seen);
  }

  lemma SaveWriteKeys(s: State, t: TaskId)
    requires Core(s) && CanSaveWrite(s, t) && s.tasks[t].job.id in s.disk.store
    ensures KeysShrink(s.disk.store, DoSaveWrite(s, t).disk.store)
  {
    hide LastTen, QuietOk;
    assert TaskOk(s.disk, s.locks, t, s.tasks[t]);
  }

  lemma NoNewKeys(s: State, e: Event)
    requires Core(s) && Enabled(s, e)
    requires e.SaveWrite? ==> s.tasks[e.t].job.id in s.disk.store
    ensures KeysShrink(s.disk.store, Apply(s, e).disk.store)
  {
    if e.CasWrite? {
      CasWriteKeys(s, e.t);
    } else if e.SaveWrite? {
      SaveWriteKeys(s, e.t);
    } else if !e.DeleteOne? {
      OnlyWritesTouchFiles(s, e);
    }
  }

  // Task `t` has not come past any further stored job.
  ghost predicate NoFurther(store: map<JobId, Job>, before: Option<Task>, after: Task) {
    forall id :: id in store && store[id].key.Some? && PastSearch(after, id, store[id].key) ==>
      before.Some? && PastSearch(before.value, id, store[id].key)
  }

  // Only task `t` may have become one that depends on keys, and it has not come past any further job.
  ghost predicate KeyQuiet(s: State, s': State, t: TaskId) {
    && (forall u :: u in s'.tasks && u != t ==> (u in s.tasks && s'.tasks[u] == s.tasks[u]) || s'.tasks[u].Notifying?)
    && (t in s'.tasks ==> NoFurther(s.disk.store, TaskAt(s, t), s'.tasks[t]) && CopyQuiet(s, t, s'.tasks[t]))
  }

  predicate PersistCopy(task: Task) {
    task.Saving? && task.purpose.PersistPurpose?
  }

  // A copy of a job to be written back was read from the store just now, or is an old one.
  ghost predicate CopyQuiet(s: State, t: TaskId, task: Task) {
    PersistCopy(task) ==>
      || task.job.id in s.disk.store
      || (t in s.tasks && PersistCopy(s.tasks[t]) && s.tasks[t].job.id == task.job.id)
  }

  lemma KeyQuietKept(s: State, s': State, t: TaskId)
    requires KeysOk(s) && KeyQuiet(s, s', t) && KeysShrink(s.disk.store, s'.disk.store)
    ensures KeysOk(s')
  {
    forall u | u in s'.tasks ensures KeyTask(s'.disk.store, s'.tasks[u]) {
      assert u in s.tasks ==> KeyTask(s.disk.store, s.tasks[u]);
    }
  }

  lemma CreateKeys(s: State, e: Event)
    requires Enabled(s, e) && (e.CreateEnter? || e.CountEnd?)
    ensures KeyQuiet(s, Apply(s, e), e.t)
  {
    hide ActiveIds;
  }

  lemma FindKeys(s: State, t: TaskId)
    requires CanFindEnd(s, t)
    ensures KeyQuiet(s, DoFindEnd(s, t), t)
  {
  }

  lemma ListKeys(s: State, e: Event)
    requires Enabled(s, e) && (e.ListBegin? || e.ListRead? || e.SaveLock? || e.SaveWrite?)
    ensures KeyQuiet(s, Apply(s, e), e.t)
  {
    hide Written, Saved;
  }

  lemma CasLockQuiet(s: State, t: TaskId)
    requires CanCasLock(s, t)
    ensures KeyQuiet(s, DoCasLock(s, t), t)
  {
  }

  lemma CasReadQuiet(s: State, t: TaskId)
    requires CanCasRead(s, t)
    ensures KeyQuiet(s, DoCasRead(s, t), t)
  {
    hide Expected;
  }

  lemma CasWriteQuiet(s: State, t: TaskId)
    requires CanCasWrite(s, t)
    ensures KeyQuiet(s, DoCasWrite(s, t), t)
  {
    hide Update, Replaced, Expected;
  }

  lemma ClaimReturnKeys(s: State, t: TaskId, t': TaskId)
    requires CanCasReturn(s, t, t') && !s.tasks[t].role.Outside? && !s.tasks[t].role.RunFinish?
    ensures KeyQuiet(s, DoCasReturn(s, t, t'), t)
  {
  }

  lemma EndReturnKeys(s: State, t: TaskId, t': TaskId)
    requires CanCasReturn(s, t, t') && (s.tasks[t].role.Outside? || s.tasks[t].role.RunFinish?)
    ensures KeyQuiet(s, DoCasReturn(s, t, t'), t)
  {
    hide Announced;
  }

  lemma ReturnKeys(s: State, t: TaskId, t': TaskId)
    requires CanCasReturn(s, t, t')
    ensures KeyQuiet(s, DoCasReturn(s, t, t'), t)
  {
    hide KeyQuiet, DoCasReturn;
    if s.tasks[t].role.Outside? || s.tasks[t].role.RunFinish? {
      EndReturnKeys(s, t, t');
    } else {
      ClaimReturnKeys(s, t, t');
    }
  }

  lemma ClaimKeys(s: State, e: Event)
    requires Enabled(s, e) && (e.CreateArrive? || e.Tick? || e.ClaimEnter? || e.ClaimPick?)
    ensures KeyQuiet(s, Apply(s, e), e.t)
  {
    hide SortedListing, RunningIds;
  }

  lemma RunDecideKeys(s: State, t: TaskId, now: nat)
    requires CanRunDecide(s, t)
    ensures KeyQuiet(s, DoRunDecide(s, t, now), t)
  {
    RunNextShape(s, t, now);
    hide RunNext;
  }

  lemma RunNextShape(s: State, t: TaskId, now: nat)
    requires CanRunDecide(s, t)
    ensures var next := RunNext(s, t, now); next.RunEnding? || next.Cas? || next.Executing?
  {
  }

  lemma RunKeys(s: State, e: Event)
    requires Enabled(s, e)
    requires e.RunRead? || e.RunOutcome? || e.RunEnd? || e.OutsideOp? || e.RecoverJob?
    ensures KeyQuiet(s, Apply(s, e), e.t)
  {
  }

  lemma PersistReadKeys(s: State, t: TaskId)
    requires Core(s) && CanPersistRead(s, t)
    ensures KeyQuiet(s, DoPersistRead(s, t), t)
  {
    hide LastTen, LastNotice, IndexesOk, TasksOk, QuietOk;
    if s.tasks[t].id in s.disk.store {
      assert JobOk(s.disk, s.tasks[t].id, s.disk.store[s.tasks[t].id]);
    }
  }

  lemma NotifyKeys(s: State, e: Event)
    requires Enabled(s, e)
    requires e.NotifyStart? || e.PersistEnter?
    ensures KeyQuiet(s, Apply(s, e), e.t)
  {
  }

  lemma CleanupKeys(s: State, e: Event)
    requires Enabled(s, e)
    requires e.CleanupStart? || e.CleanupPick? || e.DeleteOne?
    ensures KeyQuiet(s, Apply(s, e), e.t)
  {
  }

  lemma QuietKeys(s: State, e: Event)
    requires Core(s) && Enabled(s, e)
    requires !e.Shutdown? && !e.Crash? && !e.ServeStart?
    ensures KeyQuiet(s, Apply(s, e), e.t)
  {
    if e.CreateEnter? || e.CountEnd? {
      CreateKeys(s, e);
    } else if e.FindEnd? {
      FindKeys(s, e.t);
    } else if e.ListBegin? || e.ListRead? || e.SaveLock? || e.SaveWrite? {
      ListKeys(s, e);
    } else if e.CasReturn? {
      ReturnKeys(s, e.t, e.t');
    } else if e.CasWrite? {
      CasWriteQuiet(s, e.t);
    } else if e.CasLock? {
      CasLockQuiet(s, e.t);
    } else if e.CasRead? {
      CasReadQuiet(s, e.t);
    } else if e.CreateArrive? || e.Tick? || e.ClaimEnter? || e.ClaimPick? {
      ClaimKeys(s, e);
    } else if e.NotifyStart? || e.PersistEnter? {
      NotifyKeys(s, e);
    } else if e.CleanupStart? || e.CleanupPick? || e.DeleteOne? {
      CleanupKeys(s, e);
    } else if e.PersistRead? {
      PersistReadKeys(s, e.t);
    } else if e.RunDecide? {
      RunDecideKeys(s, e.t, e.now);
    } else {
      RunKeys(s, e);
    }
  }

  // The creator holds the mutex, so that nobody else searches or has searched for anything.
  lemma CreatorAlone(s: State, t: TaskId, u: TaskId, id: JobId, key: Option<RequestKey>)
    requires Core(s) && t in s.tasks && u in s.tasks && u != t
    requires s.tasks[t].Saving? && s.tasks[t].purpose.CreatePurpose?
    ensures !PastSearch(s.tasks[u], id, key)
  {
    hide DiskOk, QuietOk, JobOk;
    assert TaskOk(s.disk, s.locks, t, s.tasks[t]) && TaskOk(s.disk, s.locks, u, s.tasks[u]);
  }

  lemma CreateWriteKeys(s: State, t: TaskId)
    requires Core(s) && KeysOk(s) && CanSaveWrite(s, t) && s.tasks[t].purpose.CreatePurpose?
    ensures KeysOk(DoSaveWrite(s, t))
  {
    var s' := DoSaveWrite(s, t);
    assert TaskOk(s.disk, s.locks, t, s.tasks[t]) && KeyTask(s.disk.store, s.tasks[t]);
    forall u | u in s'.tasks ensures KeyTask(s'.disk.store, s'.tasks[u]) {
      forall id | id in s'.disk.store ensures !PastSearch(s'.tasks[u], id, s'.disk.store[id].key) {
        CreatorAlone(s, t, u, id, s'.disk.store[id].key);
      }
    }
  }

  // What a notification writes back can be read.
  lemma CopyReadable(s: State, t: TaskId)
    requires Core(s) && t in s.tasks && PersistCopy(s.tasks[t])
    ensures Readable(s.tasks[t].job)
  {
    hide QuietOk, LastTen, LastNotice, ReportOf;
    assert TaskOk(s.disk, s.locks, t, s.tasks[t]);
  }

  /** Writing a deleted job back is harmless exactly when its key has not been taken meanwhile. */
  lemma WriteBackKeys(s: State, t: TaskId)
    requires Core(s) && KeysOk(s) && CanSaveWrite(s, t) && WritesBack(s, SaveWrite(t))
    ensures KeysOk(DoSaveWrite(s, t)) <==> !Taken(s, s.tasks[t].job.id, s.tasks[t].job.key)
  {
    CopyReadable(s, t);
    hide Core, Readable;
    var job := s.tasks[t].job;
    var s' := DoSaveWrite(s, t);
    assert s'.disk.store == s.disk.store[job.id := job];
    if Taken(s, job.id, job.key) {
      if other :| other in s.disk.store && s.disk.store[other].key == job.key {
        assert other in s'.disk.store && s'.disk.store[other].key == s'.disk.store[job.id].key;
      } else {
        var u :| u in s.tasks && PastSearch(s.tasks[u], job.id, job.key);
        assert s'.tasks[u] == s.tasks[u] && job.id in s'.disk.store;
        assert !KeyTask(s'.disk.store, s'.tasks[u]);
      }
    } else {
      forall u | u in s'.tasks ensures KeyTask(s'.disk.store, s'.tasks[u]) {
        assert KeyTask(s.disk.store, s.tasks[u]) && !(job.key.Some? && PastSearch(s.tasks[u], job.id, job.key));
      }
    }
  }

  /** The event writes back a job whose key is taken. */
  ghost predicate Clashes(s: State, e: Event) {
    WritesBack(s, e) && Taken(s, s.tasks[e.t].job.id, s.tasks[e.t].job.key)
  }

  /** For every event: the keys stay in order unless it writes back a job whose key is taken. */
  lemma KeysExact(s: State, e: Event)
    requires Core(s) && KeysOk(s) && Enabled(s, e)
    ensures KeysOk(Apply(s, e)) <==> !Clashes(s, e)
  {
    if e.Shutdown? || e.Crash? || e.ServeStart? {
      assert Apply(s, e).disk == s.disk;
    } else if WritesBack(s, e) {
      WriteBackKeys(s, e.t);
    } else if e.SaveWrite? && s.tasks[e.t].purpose.CreatePurpose? {
      CreateWriteKeys(s, e.t);
    } else {
      QuietKeys(s, e);
      NoNewKeys(s, e);
      KeyQuietKept(s, Apply(s, e), e.t);
    }
  }

  /** The event adds a job to the store whose key another stored job has. */
  ghost predicate Doubles(s: State, e: Event) {
    && e.SaveWrite? && e.t in s.tasks && s.tasks[e.t].Saving? && Readable(s.tasks[e.t].job)
    && s.tasks[e.t].job.id !in s.disk.store && exists other: JobId :: Rivals(s, s.tasks[e.t].job, other)
  }

  // Another stored job has the key of `job`.
  predicate Rivals(s: State, job: Job, other: JobId) {
    job.key.Some? && other in s.disk.store && other != job.id && s.disk.store[other].key == job.key
  }

  lemma AddedKeys(store: map<JobId, Job>, job: Job)
    requires UniqueKeys(store) && job.id !in store
    ensures UniqueKeys(store[job.id := job]) <==> forall other :: other in store && job.key.Some? ==> store[other].key != job.key
  {
    var store' := store[job.id := job];
    if other :| other in store && job.key.Some? && store[other].key == job.key {
      assert other in store' && store'[other].key == store'[job.id].key;
    }
  }

  lemma DoublesByNewJob(s: State, t: TaskId)
    requires UniqueKeys(s.disk.store) && CanSaveWrite(s, t) && s.tasks[t].job.id !in s.disk.store
    ensures UniqueKeys(DoSaveWrite(s, t).disk.store) <==> !Doubles(s, SaveWrite(t))
  {
    var job := s.tasks[t].job;
    AddedKeys(s.disk.store, job);
    hide Readable, UniqueKeys;
    if !Readable(job) {
      assert DoSaveWrite(s, t).disk.store == s.disk.store;
    } else if other :| other in s.disk.store && job.key.Some? && s.disk.store[other].key == job.key {
      assert Rivals(s, job, other);
    }
  }

  /** For every event: no two stored jobs share a key afterwards unless it saves one beside another. */
  lemma UniqueExact(s: State, e: Event)
    requires Core(s) && UniqueKeys(s.disk.store) && Enabled(s, e)
    ensures UniqueKeys(Apply(s, e).disk.store) <==> !Doubles(s, e)
  {
    if e.SaveWrite? && s.tasks[e.t].job.id !in s.disk.store {
      DoublesByNewJob(s, e.t);
    } else {
      NoNewKeys(s, e);
    }
  }

  // ----- why a creation comes too late -----

  /** Task `t` creates a job and will not find the stored job `id`, although it has the same key. */
  predicate Escapes(s: State, t: TaskId, id: JobId) {
    && t in s.tasks && id in s.disk.store && s.disk.store[id].key.Some?
    && PastSearch(s.tasks[t], id, s.disk.store[id].key)
  }

  /** The event writes back the deleted job `id` behind the back of task `t`, whose search is past it. */
  predicate WritesPast(s: State, e: Event, t: TaskId, id: JobId) {
    && WritesBack(s, e) && s.tasks[e.t].job.id == id && s.tasks[e.t].job.key.Some?
    && t in s.tasks && PastSearch(s.tasks[t], id, s.tasks[e.t].job.key)
  }

  lemma QuietEscapes(s: State, s': State, t: TaskId, u: TaskId, id: JobId)
    requires KeyQuiet(s, s', t) && KeysShrink(s.disk.store, s'.disk.store) && Escapes(s', u, id)
    ensures Escapes(s, u, id)
  {
  }

  lemma CreateEscapes(s: State, t: TaskId, u: TaskId, id: JobId)
    requires Core(s) && CanSaveWrite(s, t) && s.tasks[t].purpose.CreatePurpose?
    ensures !Escapes(DoSaveWrite(s, t), u, id)
  {
    var s' := DoSaveWrite(s, t);
    if u in s'.tasks && id in s'.disk.store {
      CreatorAlone(s, t, u, id, s'.disk.store[id].key);
    }
  }

  lemma BackEscapes(s: State, t: TaskId, u: TaskId, id: JobId)
    requires CanSaveWrite(s, t) && WritesBack(s, SaveWrite(t)) && Escapes(DoSaveWrite(s, t), u, id)
    ensures Escapes(s, u, id) || WritesPast(s, SaveWrite(t), u, id)
  {
    hide Readable, PastSearch;
  }

  /** A creation comes past a stored job of its key only by a save that writes this job back behind its back. */
  lemma EscapeStep(s: State, e: Event, u: TaskId, id: JobId)
    requires Core(s) && Enabled(s, e) && Escapes(Apply(s, e), u, id)
    ensures Escapes(s, u, id) || WritesPast(s, e, u, id)
  {
    if e.Shutdown? || e.Crash? || e.ServeStart? {
      assert Apply(s, e).disk == s.disk;
    } else if e.SaveWrite? && s.tasks[e.t].purpose.CreatePurpose? {
      CreateEscapes(s, e.t, u, id);
    } else if WritesBack(s, e) {
      BackEscapes(s, e.t, u, id);
    } else {
      QuietKeys(s, e);
      NoNewKeys(s, e);
      hide Core, Enabled, Apply, KeyQuiet, Escapes;
      QuietEscapes(s, Apply(s, e), e.t, u, id);
    }
  }

  // ----- runs in which cleanup never deletes a job whose notification is being persisted -----

  predicate Spares(s: State, e: Event) {
    e.DeleteOne? ==> forall t :: t in s.tasks && PersistCopy(s.tasks[t]) ==> s.tasks[t].job.id != e.id
  }

  ghost predicate CopiesStored(s: State) {
    forall t :: t in s.tasks && PersistCopy(s.tasks[t]) ==> s.tasks[t].job.id in s.disk.store
  }

  // A stored job that this event neither deletes nor spoils is still stored.
  lemma StaysStored(s: State, e: Event, id: JobId)
    requires Core(s) && Enabled(s, e) && id in s.disk.store && !(e.DeleteOne? && e.id == id)
    ensures id in Apply(s, e).disk.store || id in Apply(s, e).disk.lost
  {
    if e.DeleteOne? {
      assert Apply(s, e).disk.store == s.disk.store - {e.id};
    } else {
      hide Core, Enabled, Apply, Update;
      MoveLegal(s, e, id);
    }
  }

  lemma CopyKept(s: State, e: Event, t: TaskId)
    requires Core(s) && Enabled(s, e) && !e.Shutdown? && !e.Crash? && !e.ServeStart?
    requires CopiesStored(s) && Spares(s, e) && KeyQuiet(s, Apply(s, e), e.t)
    requires t in Apply(s, e).tasks && PersistCopy(Apply(s, e).tasks[t])
    ensures Apply(s, e).tasks[t].job.id in Apply(s, e).disk.store
  {
    DeleteKeepsTasks(s, e);
    CoreKept(s, e);
    CopyNotLost(Apply(s, e), t);
    hide Core, Enabled, Apply;
    StaysStored(s, e, Apply(s, e).tasks[t].job.id);
  }

  lemma CopyNotLost(s: State, t: TaskId)
    requires Core(s) && t in s.tasks && PersistCopy(s.tasks[t])
    ensures s.tasks[t].job.id !in s.disk.lost
  {
    hide QuietOk, LastTen, LastNotice, ReportOf, Readable;
    assert TaskOk(s.disk, s.locks, t, s.tasks[t]);
  }

  lemma CopiesKept(s: State, e: Event)
    requires Core(s) && CopiesStored(s) && Enabled(s, e) && Spares(s, e)
    ensures CopiesStored(Apply(s, e))
  {
    if e.Shutdown? || e.Crash? || e.ServeStart? {
      LifecycleCopies(s, e);
    } else {
      hide Core, KeyQuiet, Spares, Enabled, Apply;
      QuietKeys(s, e);
      forall t | t in Apply(s, e).tasks && PersistCopy(Apply(s, e).tasks[t])
        ensures Apply(s, e).tasks[t].job.id in Apply(s, e).disk.store
      {
        CopyKept(s, e, t);
      }
    }
  }

  lemma LifecycleCopies(s: State, e: Event)
    requires CopiesStored(s) && Enabled(s, e) && (e.Shutdown? || e.Crash? || e.ServeStart?)
    ensures CopiesStored(Apply(s, e))
  {
    assert Apply(s, e).disk == s.disk;
  }

  lemma DeleteKeepsTasks(s: State, e: Event)
    requires Enabled(s, e)
    ensures e.DeleteOne? ==> Apply(s, e).tasks == s.tasks[e.t := Apply(s, e).tasks[e.t]] && Apply(s, e).tasks[e.t].Deleting?
  {
  }
}

/** The condition of `OneJobPerRequest` is needed: a run in which cleanup deletes a job between the
    read and the save of its notification, and the same request has been submitted again. */
module JobDuplicate {
  import opened Wrappers
  import opened JobModel
  import opened JobProtocol
  import opened JobRuns
  import opened JobPaths
  import opened JobLiveness
  import opened JobKeys

  /** Creating a job while the store is empty. */
  lemma CreateAlone(config: Config, s: State, t: TaskId, id: JobId, req: Request) returns (s': State)
    requires Leads(Init(config), s) && s.serving && t !in s.tasks && s.locks.create.None? && s.disk.store == map[]
    requires id !in s.disk.used && id !in s.locks.jobs && s.config.maxActiveJobs > 0
    requires req.key.Some? && Readable(NewJob(id, req, 0, 0))
    ensures Leads(Init(config), s')
    ensures s' == s.(disk := s.disk.(store := map[id := NewJob(id, req, 0, 0)], used := s.disk.used + {id},
                                     stored := s.disk.stored + {id}))
  {
    assert ActiveIds(s.disk.store) == {};
    hide Leads, Readable, ActiveIds;
    var s1 := EnterCreate(Init(config), s, t, req);
    var s2 := SearchGoesThrough(Init(config), s1, t, req);
    var s3 := CountGoesThrough(Init(config), s2, t, id, req, 0, 0);
    s' := SaveAlone(config, s, s3, t, NewJob(id, req, 0, 0));
  }

  // The only task that has been added saves its job, and is gone.
  lemma SaveAlone(config: Config, s: State, s0: State, t: TaskId, job: Job) returns (s': State)
    requires Leads(Init(config), s0) && t !in s.tasks && s.locks.create.None? && s.disk.store == map[] && Readable(job)
    requires s0 == SetTask(s, t, Saving(CreatePurpose, job, false)).(
                     locks := s.locks.(create := Some(t)), disk := s.disk.(used := s.disk.used + {job.id}))
    requires job.id !in s.locks.jobs
    ensures Leads(Init(config), s')
    ensures s' == s.(disk := s.disk.(store := map[job.id := job], used := s.disk.used + {job.id},
                                     stored := s.disk.stored + {job.id}))
  {
    hide Leads, Readable;
    s' := ThenSave(Init(config), s0, t);
    assert s'.locks == s.locks && s'.tasks == s.tasks;
  }

  lemma Complete(config: Config, s: State, id: JobId, input: CallbackInput) returns (s': State)
    requires Leads(Init(config), s) && s.serving && s.tasks == map[] && s.locks.jobs == map[] && s.locks.persists == map[]
    requires id in s.disk.store && s.disk.store[id].id == id && s.disk.store[id].status == Queued
    requires Readable(Update(Callback(input, 0), s.disk.store[id]))
    ensures Leads(Init(config), s') && s'.serving && s'.locks == s.locks && s'.config == s.config
    ensures s'.disk.used == s.disk.used && s'.disk.store == s.disk.store[id := Update(Callback(input, 0), s.disk.store[id])]
    ensures s'.tasks == map[0 := Cas(id, Callback(input, 0), Outside, Returned(Some(s'.disk.store[id])))]
  {
    hide Leads, Update, Readable;
    var s1 := Then(Init(config), s, OutsideOp(0, id, Callback(input, 0)));
    hide Enabled, Apply;
    s' := ThenTransition(Init(config), s1, 0);
  }

  /** A callback completes a queued job; its notification has read the job and is about to save it. */
  lemma CompleteAndRead(config: Config, s: State, id: JobId, input: CallbackInput) returns (s': State)
    requires Leads(Init(config), s) && s.serving && s.tasks == map[] && s.locks.jobs == map[] && s.locks.persists == map[]
    requires NullFree(input) && id in s.disk.store && Readable(s.disk.store[id])
    requires id in s.disk.store && s.disk.store[id].id == id && s.disk.store[id].status == Queued
    ensures Leads(Init(config), s') && s'.serving && s'.locks.jobs == map[] && s'.locks.create == s.locks.create
    ensures s'.config == s.config && s'.disk.used == s.disk.used
    ensures s'.tasks.Keys == {1} && PersistCopy(s'.tasks[1]) && !s'.tasks[1].held
    ensures s'.tasks[1].job.id == id && s'.tasks[1].job.key == s.disk.store[id].key && Readable(s'.tasks[1].job)
    ensures s'.disk.store.Keys == s.disk.store.Keys && Terminal(s'.disk.store[id].status)
  {
    UpdateShape(Callback(input, 0), s.disk.store[id]);
    hide Leads, Update, Enabled, Apply;
    var s4 := Complete(config, s, id, input);
    var s5 := ThenReturn(Init(config), s4, 0, 1);
    assert s5.tasks == map[1 := Notifying(id)];
    var s6 := ThenPersist(Init(config), s5, 1, 0);
    s' := ReadNotified(Init(config), s6, 1, id, 0);
  }

  lemma ListOnly(config: Config, s: State, id: JobId) returns (s': State)
    requires Leads(Init(config), s) && s.disk.store.Keys == {id} && 2 !in s.tasks
    ensures Leads(Init(config), s') && s' == SetTask(s, 2, Listing(CleanupGoal, {}, map[id := s.disk.store[id]]))
  {
    var s1 := Then(Init(config), s, CleanupStart(2));
    var s2 := ThenList(Init(config), s1, 2);
    assert s2 == SetTask(s, 2, Listing(CleanupGoal, {id}, map[]));
    s' := ThenRead(Init(config), s2, 2, id);
    assert {id} - {id} == {};
  }

  lemma ThenPick(config: Config, s: State, id: JobId) returns (s': State)
    requires Leads(Init(config), s) && CanCleanupPick(s, 2, {id})
    ensures Leads(Init(config), s') && s' == SetTask(s, 2, Deleting({id}))
  {
    s' := Then(Init(config), s, CleanupPick(2, {id}));
  }

  lemma ThenDelete(config: Config, s: State, id: JobId) returns (s': State)
    requires Leads(Init(config), s) && CanDeleteOne(s, 2, id)
    ensures Leads(Init(config), s') && s' == DoDeleteOne(s, 2, id)
  {
    s' := Then(Init(config), s, DeleteOne(2, id));
  }

  /** Cleanup deletes the only stored job, which is terminal. */
  lemma CleanUpOnly(config: Config, s: State, id: JobId) returns (s': State)
    requires Leads(Init(config), s) && s.disk.store.Keys == {id} && Terminal(s.disk.store[id].status)
    requires 2 !in s.tasks
    ensures Leads(Init(config), s') && s' == SetTask(s, 2, Deleting({})).(disk := s.disk.(store := map[]))
  {
    hide Enabled, Apply;
    var s1 := ListOnly(config, s, id);
    var s2 := ThenPick(config, s1, id);
    assert s2 == SetTask(s, 2, Deleting({id}));
    s' := ThenDelete(config, s2, id);
    assert {id} - {id} == {} && s'.disk.store == map[];
  }

  lemma Serve(config: Config) returns (s': State)
    ensures Leads(Init(config), s') && s' == DoServeStart(Init(config))
  {
    Here(Init(config));
    s' := Then(Init(config), Init(config), ServeStart);
  }

  /** Two stored jobs with one request key, in the store of a reachable state. */
  lemma DuplicateIsReachable(config: Config, req: Request, input: CallbackInput)
    requires config.maxActiveJobs > 0 && req.key.Some? && Readable(NewJob(0, req, 0, 0)) && NullFree(input)
    ensures exists run :: Valid(Init(config), run) && !UniqueKeys(Exec(Init(config), run).disk.store)
  {
    assert Readable(NewJob(1, req, 0, 0));
    hide Enabled, Apply, Update, PersistCopy, UniqueKeys, Readable, NullFree;
    var s0 := Serve(config);
    var s1 := CreateAlone(config, s0, 0, 0, req);
    var s2 := CompleteAndRead(config, s1, 0, input);
    var s3 := CleanUpOnly(config, s2, 0);
    var s4 := CreateAlone(config, s3, 3, 1, req);
    var s6 := WriteBack(config, s4);
    var run :| Valid(Init(config), run) && Undisturbed(run) && Exec(Init(config), run) == s6;
  }

  lemma WriteBack(config: Config, s: State) returns (s': State)
    requires Leads(Init(config), s) && 1 in s.tasks && PersistCopy(s.tasks[1]) && !s.tasks[1].held && Readable(s.tasks[1].job)
    requires s.locks.jobs == map[] && s.tasks[1].job.id == 0
    requires 1 in s.disk.store && s.disk.store[1].key.Some? && s.tasks[1].job.key == s.disk.store[1].key
    ensures Leads(Init(config), s') && !UniqueKeys(s'.disk.store)
  {
    hide Enabled, Apply, Readable;
    s' := ThenSave(Init(config), s, 1);
    assert 0 in s'.disk.store && 1 in s'.disk.store && s'.disk.store[0].key == s'.disk.store[1].key;
  }
}

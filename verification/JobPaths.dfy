/** Calls that go through: while nothing else moves, a listing reads every file, a transition replaces its job, and a
    request is admitted. */
module JobPaths {
  import opened Wrappers
  import opened JobModel
  import opened JobProtocol
  import opened JobRuns

  // ----- listAll -----

  function Restricted(store: map<JobId, Job>, ids: set<JobId>): map<JobId, Job> {
    map id | id in ids && id in store :: store[id]
  }

  function Listed(s: State, t: TaskId, seen: map<JobId, Job>): State
    requires t in s.tasks && (s.tasks[t].Listing? || s.tasks[t].ListWait?)
  {
    SetTask(s, t, Listing(s.tasks[t].goal, {}, seen))
  }

  lemma {:induction false} ThenReadAll(from: State, s: State, t: TaskId) returns (s': State)
    requires Leads(from, s) && t in s.tasks && s.tasks[t].Listing? && s.tasks[t].todo <= s.disk.store.Keys
    ensures Leads(from, s') && s' == Listed(s, t, s.tasks[t].seen + Restricted(s.disk.store, s.tasks[t].todo))
    decreases s.tasks[t].todo
  {
    hide Leads;
    var task := s.tasks[t];
    if task.todo == {} {
      s' := s;
      assert task.seen + Restricted(s.disk.store, {}) == task.seen;
      assert s.tasks == s.tasks[t := task];
    } else {
      var id :| id in task.todo;
      var s1 := ThenRead(from, s, t, id);
      s' := ThenReadAll(from, s1, t);
      ReadOne(task.seen, s.disk.store, task.todo, id);
      assert s1.tasks[t := s'.tasks[t]] == s.tasks[t := s'.tasks[t]];
    }
  }

  lemma ReadOne(seen: map<JobId, Job>, store: map<JobId, Job>, todo: set<JobId>, id: JobId)
    requires id in todo && todo <= store.Keys
    ensures seen[id := store[id]] + Restricted(store, todo - {id}) == seen + Restricted(store, todo)
  {
  }

  /** While nothing else moves, a listing sees the whole store. */
  lemma ThenListAll(from: State, s: State, t: TaskId) returns (s': State)
    requires Leads(from, s) && CanListBegin(s, t)
    ensures Leads(from, s') && s' == Listed(s, t, s.disk.store)
  {
    hide Leads;
    var s1 := ThenList(from, s, t);
    s' := ThenReadAll(from, s1, t);
    assert map[] + Restricted(s.disk.store, s.disk.store.Keys) == s.disk.store;
    assert s1.tasks[t := s'.tasks[t]] == s.tasks[t := s'.tasks[t]];
  }

  // ----- transition -----

  /** The transition of task `t` has returned, with its update of the stored job in place. */
  function Transitioned(s: State, t: TaskId): State
    requires InPhase(s, t) && s.tasks[t].id in s.disk.store
  {
    var task := s.tasks[t];
    var next := Update(task.op, s.disk.store[task.id]);
    SetTask(s, t, task.(phase := Returned(Some(next)))).(disk := Replaced(s.disk, task.id, next))
  }

  lemma ThenLockAndRead(from: State, s: State, t: TaskId) returns (s': State)
    requires Leads(from, s) && CanCasLock(s, t)
    ensures Leads(from, s') && CanCasLock(s, t) && s' == DoCasRead(DoCasLock(s, t), t)
  {
    hide Expected, Leads;
    var s1 := Then(from, s, CasLock(t));
    s' := Then(from, s1, CasRead(t));
  }

  lemma ThenWrite(from: State, s: State, t: TaskId) returns (s': State)
    requires Leads(from, s) && CanCasWrite(s, t)
    ensures Leads(from, s') && s' == DoCasWrite(s, t)
  {
    hide Update, Replaced, Leads;
    s' := Then(from, s, CasWrite(t));
  }

  /** While nothing else moves, a transition of a job in an expected status takes place. */
  lemma ThenTransition(from: State, s: State, t: TaskId) returns (s': State)
    requires Leads(from, s) && CanCasLock(s, t) && s.tasks[t].id in s.disk.store
    requires s.disk.store[s.tasks[t].id].status in Expected(s.tasks[t].op)
    ensures Leads(from, s') && s' == Transitioned(s, t)
  {
    hide Leads, Update, Replaced, Expected;
    var id := s.tasks[t].id;
    var s1 := ThenLockAndRead(from, s, t);
    assert s1.tasks[t] == s.tasks[t].(phase := Writing(s.disk.store[id]));
    s' := ThenWrite(from, s1, t);
    assert s'.locks.jobs == s.locks.jobs;
    assert s'.tasks == s.tasks[t := s'.tasks[t]];
  }

  lemma ThenReturn(from: State, s: State, t: TaskId, t': TaskId) returns (s': State)
    requires Leads(from, s) && CanCasReturn(s, t, t')
    ensures Leads(from, s') && s' == DoCasReturn(s, t, t')
  {
    hide Announced, Leads;
    s' := Then(from, s, CasReturn(t, t'));
  }
}

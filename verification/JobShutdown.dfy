/** Shutdown: from the step that asks the process to stop until it crashes or is gone, nothing starts, and a job that has been
    claimed and has not begun goes back to the queue. */
module JobShutdown {
  import opened Wrappers
  import opened JobModel
  import opened JobProtocol
  import opened JobInvariants
  import opened JobStarts
  import opened JobTheorems
  import opened JobProgress
  import opened JobOutcomes
  import opened JobExecutions
  import opened JobLiveness
  import opened JobRuns
  import opened JobPaths

  /** Before the `k`-th step the process has been asked to stop, and has not crashed since. */
  predicate AskedToStop(run: seq<Event>, k: nat)
    requires k <= |run|
  {
    exists i :: 0 <= i < k && run[i].Shutdown? && forall j :: i < j < k ==> !run[j].Crash?
  }

  predicate Moves(e: Event) {
    e.CasLock? || e.CasRead? || e.CasWrite? || e.RunRead? || e.RunDecide? || e.RunOutcome? || e.RunEnd? || e.ClaimPick?
  }

  lemma ReturnGoesOn(s: State, t: TaskId, t': TaskId)
    requires CanCasReturn(s, t, t')
    ensures DoCasReturn(s, t, t').shuttingDown == s.shuttingDown
  {
    hide Announced;
  }

  lemma MoveGoesOn(s: State, e: Event)
    requires Enabled(s, e) && Moves(e)
    ensures Apply(s, e).shuttingDown == s.shuttingDown
  {
    hide Replaced, Update, FirstClaimable, SortedListing, RunningIds, Expected, RunNext;
  }

  lemma StopStep(s: State, e: Event)
    requires Enabled(s, e)
    ensures Apply(s, e).shuttingDown <==> e.Shutdown? || (!e.Crash? && s.shuttingDown)
  {
    if e.CasReturn? {
      ReturnGoesOn(s, e.t, e.t');
    } else if Moves(e) {
      MoveGoesOn(s, e);
    } else {
      hide Written, Saved, WithNotice, SortedListing, Readable, Survives, RunningIds, ActiveIds, NewJob;
    }
  }

  lemma AskedSnoc(run: seq<Event>, k: nat)
    requires k < |run|
    ensures AskedToStop(run, k + 1) <==> run[k].Shutdown? || (!run[k].Crash? && AskedToStop(run, k))
  {
  }

  /** A process is shutting down exactly from the step that asks it to stop until it crashes. */
  lemma {:induction false} ShutdownLasts(config: Config, run: seq<Event>, k: nat)
    requires Valid(Init(config), run) && k <= |run|
    ensures Valid(Init(config), run[..k])
    ensures Exec(Init(config), run[..k]).shuttingDown <==> AskedToStop(run, k)
  {
    if k == 0 {
      assert run[..0] == [];
    } else {
      ShutdownLasts(config, run, k - 1);
      Prefix(Init(config), run, k - 1);
      hide Enabled, Apply, AskedToStop;
      StopStep(Exec(Init(config), run[..k - 1]), run[k - 1]);
      AskedSnoc(run, k - 1);
    }
  }

  // ----- nothing starts -----

  // The task goes for a job.
  predicate GoesForOne(task: Task) {
    task.Cas? && task.role.Claiming? && task.phase.Waiting?
  }

  // No slot is taken, and no claimer goes for a job.
  ghost predicate NothingNew(s: State, s': State) {
    s'.inFlight <= s.inFlight
    && forall t :: t in s'.tasks && GoesForOne(s'.tasks[t]) ==> t in s.tasks && s.tasks[t] == s'.tasks[t]
  }

  lemma ReturnTakesNothing(s: State, t: TaskId, t': TaskId)
    requires s.shuttingDown && CanCasReturn(s, t, t')
    ensures NothingNew(s, DoCasReturn(s, t, t'))
  {
    hide Announced;
  }

  lemma PickTakesNothing(s: State, t: TaskId, listing: seq<Job>, now: nat)
    requires s.shuttingDown && CanClaimPick(s, t, listing)
    ensures NothingNew(s, DoClaimPick(s, t, listing, now))
  {
    hide FirstClaimable, SortedListing, RunningIds;
  }

  lemma ShutdownStep(s: State, e: Event)
    requires s.shuttingDown && Enabled(s, e)
    ensures NothingNew(s, Apply(s, e))
  {
    if e.CasReturn? {
      ReturnTakesNothing(s, e.t, e.t');
    } else if e.ClaimPick? {
      PickTakesNothing(s, e.t, e.listing, e.now);
    } else {
      hide Written, Saved, Replaced, Update, WithNotice, Readable, Survives, SortedListing, ActiveIds;
    }
  }

  lemma DecidesNothing(s: State, t: TaskId, now: nat)
    requires s.shuttingDown && CanRunDecide(s, t)
    ensures !RunNext(s, t, now).Executing?
  {
  }

  /** While the process is shutting down no step begins an execution, takes a slot or makes a claimer go for a job. */
  lemma ShutdownStartsNothing(config: Config, run: seq<Event>, k: nat, id: JobId)
    requires Valid(Init(config), run) && k < |run| && AskedToStop(run, k)
    ensures !BeginsAt(config, run, k, id)
    ensures Valid(Init(config), run[..k]) && Valid(Init(config), run[..k + 1])
    ensures NothingNew(Exec(Init(config), run[..k]), Exec(Init(config), run[..k + 1]))
  {
    ShutdownLasts(config, run, k);
    Prefix(Init(config), run, k);
    var s, e := Exec(Init(config), run[..k]), run[k];
    hide Valid, Exec, AskedToStop, NothingNew, Enabled, Apply;
    ShutdownStep(s, e);
    if Begins(s, Apply(s, e), id) {
      var t, mode :| TaskAt(Apply(s, e), t) == Some(Executing(id, mode)) && TaskAt(s, t) != TaskAt(Apply(s, e), t);
      ExecutesStep(s, e, t);
      DecidedIs(s, e);
      DecidesNothing(s, t, e.now);
    }
  }

  lemma DecidedIs(s: State, e: Event)
    requires Enabled(s, e) && e.RunDecide?
    ensures CanRunDecide(s, e.t) && TaskAt(Apply(s, e), e.t) == Some(RunNext(s, e.t, e.now))
  {
  }

  // ----- a claimed job goes back -----

  // The task has claimed the job and has not begun to execute it.
  predicate HasClaimed(task: Task, id: JobId) {
    || task == RunReading(id)
    || (task.Cas? && task.id == id && task.role.Claiming? && task.phase.Returned? && task.phase.done.Some?)
  }

  /** Nothing is pending but the task at `t` and clean-ups that have nothing left to do. */
  predicate OnlyClaimed(s: State, t: TaskId, id: JobId) {
    && t in s.tasks && HasClaimed(s.tasks[t], id) && forall u :: u in s.tasks && u != t ==> s.tasks[u] == Deleting({})
  }

  lemma JobsAreFree(s: State, t: TaskId, id: JobId)
    requires Owned(s) && OnlyClaimed(s, t, id)
    ensures s.locks.jobs == map[]
  {
    var l := s.locks;
    assert forall j :: j in l.jobs ==> Entitled(l, l.jobs[j], TaskAt(s, l.jobs[j]));
  }

  lemma ReturnClaim(from: State, s: State, t: TaskId) returns (s': State)
    requires Leads(from, s) && s.shuttingDown && t in s.tasks && s.tasks[t].Cas? && HasClaimed(s.tasks[t], s.tasks[t].id)
    ensures Leads(from, s') && s' == SetTask(s, t, Cas(s.tasks[t].id, Requeue, ClaimRequeue, Waiting))
  {
    hide Leads;
    var unused := Fresh(s.tasks.Keys);
    s' := ThenReturn(from, s, t, unused);
  }

  lemma DecideRequeue(from: State, s: State, t: TaskId) returns (s': State)
    requires Leads(from, s) && s.shuttingDown && t in s.tasks && s.tasks[t].RunReading?
    requires s.tasks[t].id in s.disk.store && s.disk.store[s.tasks[t].id].status == Running
    ensures Leads(from, s') && s' == SetTask(s, t, Cas(s.tasks[t].id, Requeue, RunRequeue, Waiting))
  {
    hide Leads;
    var s1 := Then(from, s, RunRead(t));
    s' := Then(from, s1, RunDecide(t, 0));
  }

  // The requeue returns, and its task is gone.
  lemma RequeueDone(from: State, s: State, t: TaskId) returns (s': State)
    requires Leads(from, s) && t in s.tasks && s.tasks[t].Cas? && (s.tasks[t].role.ClaimRequeue? || s.tasks[t].role.RunRequeue?)
    requires s.tasks[t].phase.Returned?
    ensures Leads(from, s') && s'.disk == s.disk && t !in s'.tasks
    ensures s.tasks[t].role.RunRequeue? ==> s.tasks[t].id !in s'.inFlight
    ensures s.tasks[t].role.ClaimRequeue? ==> s'.locks.claim.None?
  {
    hide Leads;
    var unused := Fresh(s.tasks.Keys);
    s' := ThenReturn(from, s, t, unused);
    if s.tasks[t].role.RunRequeue? {
      s' := Then(from, s', RunEnd(t));
    }
  }

  lemma GoBack(from: State, s: State, t: TaskId) returns (s': State)
    requires Leads(from, s) && CanCasLock(s, t) && s.tasks[t].op.Requeue?
    requires s.tasks[t].role.ClaimRequeue? || s.tasks[t].role.RunRequeue?
    requires s.tasks[t].id in s.disk.store && s.disk.store[s.tasks[t].id].status == Running && Readable(s.disk.store[s.tasks[t].id])
    ensures Leads(from, s') && t !in s'.tasks
    ensures var id := s.tasks[t].id; s'.disk.store == s.disk.store[id := Update(Requeue, s.disk.store[id])]
    ensures s.tasks[t].role.RunRequeue? ==> s.tasks[t].id !in s'.inFlight
    ensures s.tasks[t].role.ClaimRequeue? ==> s'.locks.claim.None?
  {
    var id := s.tasks[t].id;
    UpdateShape(Requeue, s.disk.store[id]);
    hide Leads, Update, Readable;
    var s1 := ThenTransition(from, s, t);
    assert s1.disk.store == s.disk.store[id := Update(Requeue, s.disk.store[id])];
    s' := RequeueDone(from, s1, t);
  }

  lemma RequeueFacts(s: State, id: JobId)
    requires Inv(s) && id in s.disk.store && s.disk.store[id].status == Running
    ensures Readable(s.disk.store[id])
    ensures Update(Requeue, s.disk.store[id]) == s.disk.store[id].(status := Queued, startedAt := None)
  {
    assert JobOk(s.disk, id, s.disk.store[id]);
    hide Inv;
    UpdateGoesOn(Requeue, s.disk.store[id]);
  }

  // The job can be given back.
  predicate Returnable(s: State, t: TaskId, id: JobId) {
    && s.shuttingDown && s.locks.jobs == map[] && t in s.tasks && HasClaimed(s.tasks[t], id)
    && id in s.disk.store && s.disk.store[id].status == Running && Readable(s.disk.store[id])
  }

  lemma BackFromClaim(s: State, t: TaskId, id: JobId) returns (s': State)
    requires Returnable(s, t, id) && s.tasks[t].Cas?
    ensures Leads(s, s') && t !in s'.tasks && s'.locks.claim.None?
    ensures s'.disk.store == s.disk.store[id := Update(Requeue, s.disk.store[id])]
  {
    Here(s);
    hide Leads, Readable, Update;
    var s1 := ReturnClaim(s, s, t);
    s' := GoBack(s, s1, t);
  }

  lemma BackFromRun(s: State, t: TaskId, id: JobId) returns (s': State)
    requires Returnable(s, t, id) && s.tasks[t].RunReading?
    ensures Leads(s, s') && t !in s'.tasks && id !in s'.inFlight
    ensures s'.disk.store == s.disk.store[id := Update(Requeue, s.disk.store[id])]
  {
    Here(s);
    hide Leads, Readable, Update;
    var s1 := DecideRequeue(s, s, t);
    s' := GoBack(s, s1, t);
  }

  lemma BackPath(s: State, t: TaskId, id: JobId) returns (s': State)
    requires Inv(s) && Owned(s) && s.shuttingDown && OnlyClaimed(s, t, id)
    requires id in s.disk.store && s.disk.store[id].status == Running
    ensures Leads(s, s') && t !in s'.tasks
    ensures s'.disk.store == s.disk.store[id := s.disk.store[id].(status := Queued, startedAt := None)]
    ensures if s.tasks[t].RunReading? then id !in s'.inFlight else s'.locks.claim.None?
  {
    JobsAreFree(s, t, id);
    RequeueFacts(s, id);
    hide Inv, Owned, Leads, Readable, Update;
    if s.tasks[t].RunReading? {
      s' := BackFromRun(s, t, id);
    } else {
      s' := BackFromClaim(s, t, id);
    }
  }

  /** From every reachable state of a process that is shutting down, in which nothing is pending but a task that has claimed
      a running job and has not begun to execute it, there are steps after which the job is queued again, nothing else in
      the store has changed, and the slot or the claim mutex is free. */
  lemma ClaimedJobGoesBack(config: Config, run: seq<Event>, t: TaskId, id: JobId)
    requires Valid(Init(config), run) && AskedToStop(run, |run|) && OnlyClaimed(Exec(Init(config), run), t, id)
    requires id in Exec(Init(config), run).disk.store && Exec(Init(config), run).disk.store[id].status == Running
    ensures var s := Exec(Init(config), run);
            exists s': State ::
              && Leads(s, s') && t !in s'.tasks
              && s'.disk.store == s.disk.store[id := s.disk.store[id].(status := Queued, startedAt := None)]
              && if s.tasks[t].RunReading? then id !in s'.inFlight else s'.locks.claim.None?
  {
    ReachedIdle(config, run);
    ShutdownLasts(config, run, |run|);
    assert run[..|run|] == run;
    hide Inv, Owned, OnlyClaimed, Leads, Exec, Valid, AskedToStop;
    var s' := BackPath(Exec(Init(config), run), t, id);
  }
}

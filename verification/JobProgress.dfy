/** Nobody waits for ever: a lock or mutex that is taken belongs to a pending task that still needs it, and the task
    at the end of a line of waiting tasks can go on. */
module JobProgress {
  import opened Wrappers
  import opened JobModel
  import opened JobProtocol
  import opened JobInvariants
  import opened JobStarts
  import opened JobTheorems
  import JobRepository

  // ----- every lock has an owner -----

  predicate HasJob(task: Task, id: JobId) {
    || (task.Saving? && task.held && task.job.id == id)
    || (task.Cas? && (task.phase.Reading? || task.phase.Writing?) && task.id == id)
  }

  predicate HasPersist(task: Task, id: JobId) {
    || (task.PersistReading? && task.id == id)
    || (task.Saving? && task.purpose.PersistPurpose? && task.job.id == id)
  }

  predicate HasCreate(task: Task) {
    || ((task.ListWait? || task.Listing?) && (task.goal.FindGoal? || task.goal.CountGoal?))
    || (task.Saving? && task.purpose.CreatePurpose?)
  }

  predicate HasClaim(task: Task) {
    || ((task.ListWait? || task.Listing?) && task.goal.ClaimGoal?)
    || (task.Cas? && (task.role.Claiming? || task.role.ClaimRequeue?))
  }

  // Task `t` needs every lock and mutex that is in its name.
  ghost predicate Entitled(l: Locks, t: TaskId, task: Option<Task>) {
    && (forall id :: id in l.jobs && l.jobs[id] == t ==> task.Some? && HasJob(task.value, id))
    && (forall id :: id in l.persists && l.persists[id] == t ==> task.Some? && HasPersist(task.value, id))
    && (l.create == Some(t) ==> task.Some? && HasCreate(task.value))
    && (l.claim == Some(t) ==> task.Some? && HasClaim(task.value))
  }

  /** Every lock and mutex that is taken belongs to a pending task that holds it. */
  ghost predicate Owned(s: State) {
    forall t :: Entitled(s.locks, t, TaskAt(s, t))
  }

  // Task `t` moved: no other task ended, changed or came into a lock.
  ghost predicate OwnMove(s: State, s': State, t: TaskId) {
    && (forall u :: u in s.tasks && u != t ==> u in s'.tasks && s'.tasks[u] == s.tasks[u])
    && (forall id :: id in s'.locks.jobs && s'.locks.jobs[id] != t ==>
          id in s.locks.jobs && s.locks.jobs[id] == s'.locks.jobs[id])
    && (forall id :: id in s'.locks.persists && s'.locks.persists[id] != t ==>
          id in s.locks.persists && s.locks.persists[id] == s'.locks.persists[id])
    && (s'.locks.create.None? || s'.locks.create == Some(t) || s'.locks.create == s.locks.create)
    && (s'.locks.claim.None? || s'.locks.claim == Some(t) || s'.locks.claim == s.locks.claim)
    && Entitled(s'.locks, t, TaskAt(s', t))
  }

  lemma OwnedMove(s: State, s': State, t: TaskId)
    requires Owned(s) && OwnMove(s, s', t)
    ensures Owned(s')
  {
    hide HasJob, HasPersist, HasCreate, HasClaim;
    forall u ensures Entitled(s'.locks, u, TaskAt(s', u)) {
      assert Entitled(s.locks, u, TaskAt(s, u));
    }
  }

  lemma CreateEnterOwned(s: State, t: TaskId)
    requires CanCreateEnter(s, t) && Entitled(s.locks, t, TaskAt(s, t))
    ensures OwnMove(s, DoCreateEnter(s, t), t)
  {
  }

  lemma FindEndOwned(s: State, t: TaskId)
    requires CanFindEnd(s, t) && Entitled(s.locks, t, TaskAt(s, t))
    ensures OwnMove(s, DoFindEnd(s, t), t)
  {
  }

  lemma CountEndOwned(s: State, t: TaskId, id: JobId, queueOrder: nat, now: nat)
    requires CanCountEnd(s, t, id) && Entitled(s.locks, t, TaskAt(s, t))
    ensures OwnMove(s, DoCountEnd(s, t, id, queueOrder, now), t)
  {
    hide ActiveIds;
  }

  lemma SaveLockOwned(s: State, t: TaskId)
    requires CanSaveLock(s, t) && Entitled(s.locks, t, TaskAt(s, t))
    ensures OwnMove(s, DoSaveLock(s, t), t)
  {
  }

  lemma SaveWriteOwned(s: State, t: TaskId)
    requires CanSaveWrite(s, t) && Entitled(s.locks, t, TaskAt(s, t))
    ensures OwnMove(s, DoSaveWrite(s, t), t)
  {
  }

  lemma CasLockOwned(s: State, t: TaskId)
    requires CanCasLock(s, t) && Entitled(s.locks, t, TaskAt(s, t))
    ensures OwnMove(s, DoCasLock(s, t), t)
  {
  }

  lemma CasReadOwned(s: State, t: TaskId)
    requires CanCasRead(s, t) && Entitled(s.locks, t, TaskAt(s, t))
    ensures OwnMove(s, DoCasRead(s, t), t)
  {
    hide Expected;
  }

  lemma CasWriteOwned(s: State, t: TaskId)
    requires CanCasWrite(s, t) && Entitled(s.locks, t, TaskAt(s, t))
    ensures OwnMove(s, DoCasWrite(s, t), t)
  {
    hide Update, Replaced;
  }

  lemma ClaimReturnOwned(s: State, t: TaskId, t': TaskId)
    requires CanCasReturn(s, t, t') && (s.tasks[t].role.Claiming? || s.tasks[t].role.ClaimRequeue?)
    requires Entitled(s.locks, t, TaskAt(s, t))
    ensures OwnMove(s, DoCasReturn(s, t, t'), t)
  {
  }

  lemma OtherReturnPlain(s: State, t: TaskId, t': TaskId)
    requires CanCasReturn(s, t, t') && !s.tasks[t].role.Claiming? && !s.tasks[t].role.ClaimRequeue?
    ensures PlainMove(s, DoCasReturn(s, t, t'), t)
  {
    hide Announced;
  }

  lemma ClaimEnterOwned(s: State, t: TaskId)
    requires CanClaimEnter(s, t) && Entitled(s.locks, t, TaskAt(s, t))
    ensures OwnMove(s, DoClaimEnter(s, t), t)
  {
  }

  lemma ClaimPickOwned(s: State, t: TaskId, listing: seq<Job>, now: nat)
    requires CanClaimPick(s, t, listing) && Entitled(s.locks, t, TaskAt(s, t))
    ensures OwnMove(s, DoClaimPick(s, t, listing, now), t)
  {
    hide DoClaimPick, FirstClaimable, SortedListing;
    var candidate := ClaimPickShape(s, t, listing, now);
  }

  lemma PersistEnterOwned(s: State, t: TaskId, data: nat)
    requires CanPersistEnter(s, t) && Entitled(s.locks, t, TaskAt(s, t))
    ensures OwnMove(s, DoPersistEnter(s, t, data), t)
  {
  }

  ghost predicate NamedById(store: map<JobId, Job>) {
    forall id :: id in store ==> store[id].id == id
  }

  lemma PersistReadOwned(s: State, t: TaskId)
    requires CanPersistRead(s, t) && Entitled(s.locks, t, TaskAt(s, t)) && NamedById(s.disk.store)
    ensures OwnMove(s, DoPersistRead(s, t), t)
  {
    hide LastTen;
    if s.tasks[t].id in s.disk.store {
      assert DoPersistRead(s, t).locks == s.locks;
    }
  }

  lemma StoreNamed(s: State)
    requires Core(s)
    ensures NamedById(s.disk.store)
  {
    assert forall id :: id in s.disk.store ==> JobOk(s.disk, id, s.disk.store[id]);
  }

  // Task `t` moved and still has what it had.
  ghost predicate PlainMove(s: State, s': State, t: TaskId) {
    && s'.locks == s.locks
    && (forall u :: u in s.tasks && u != t ==> u in s'.tasks && s'.tasks[u] == s.tasks[u])
    && (t in s.tasks && HasAny(s.tasks[t]) ==> t in s'.tasks && SameHoldings(s.tasks[t], s'.tasks[t]))
  }

  ghost predicate HasAny(task: Task) {
    HasCreate(task) || HasClaim(task) || exists id :: HasJob(task, id) || HasPersist(task, id)
  }

  ghost predicate SameHoldings(a: Task, b: Task) {
    && (HasCreate(a) ==> HasCreate(b)) && (HasClaim(a) ==> HasClaim(b))
    && forall id :: (HasJob(a, id) ==> HasJob(b, id)) && (HasPersist(a, id) ==> HasPersist(b, id))
  }

  lemma PlainOwned(s: State, s': State, t: TaskId)
    requires PlainMove(s, s', t) && Entitled(s.locks, t, TaskAt(s, t))
    ensures OwnMove(s, s', t)
  {
    hide HasJob, HasPersist, HasCreate, HasClaim;
  }

  // The events of a task that neither take nor drop anything.
  predicate LeavesLocks(e: Event) {
    || e.CreateArrive? || e.ListBegin? || e.ListRead? || e.Tick? || e.RunRead? || e.RunDecide? || e.RunOutcome? || e.RunEnd?
    || e.OutsideOp? || e.NotifyStart? || e.CleanupStart? || e.CleanupPick? || e.DeleteOne? || e.RecoverJob?
  }

  lemma ListPlain(s: State, e: Event)
    requires Enabled(s, e) && (e.ListBegin? || e.ListRead? || e.CleanupPick? || e.DeleteOne?)
    ensures PlainMove(s, Apply(s, e), e.t)
  {
  }

  lemma RunPlain(s: State, e: Event)
    requires Enabled(s, e) && (e.RunRead? || e.RunDecide? || e.RunOutcome? || e.RunEnd?)
    ensures PlainMove(s, Apply(s, e), e.t)
  {
    hide RunNext;
  }

  lemma ArrivalPlain(s: State, e: Event)
    requires Enabled(s, e)
    requires e.CreateArrive? || e.Tick? || e.OutsideOp? || e.NotifyStart? || e.CleanupStart? || e.RecoverJob?
    ensures PlainMove(s, Apply(s, e), e.t)
  {
    hide Survives;
  }

  lemma EventPlain(s: State, e: Event)
    requires LeavesLocks(e) && Enabled(s, e)
    ensures PlainMove(s, Apply(s, e), e.t)
  {
    hide PlainMove, Enabled, Apply;
    if e.ListBegin? || e.ListRead? || e.CleanupPick? || e.DeleteOne? {
      ListPlain(s, e);
    } else if e.RunRead? || e.RunDecide? || e.RunOutcome? || e.RunEnd? {
      RunPlain(s, e);
    } else {
      ArrivalPlain(s, e);
    }
  }

  lemma EventOwned(s: State, e: Event)
    requires !e.Shutdown? && !e.Crash? && !e.ServeStart?
    requires Core(s) && Enabled(s, e) && Entitled(s.locks, e.t, TaskAt(s, e.t))
    ensures OwnMove(s, Apply(s, e), e.t)
  {
    hide Core, Entitled, OwnMove, PlainMove, DoCasReturn;
    if LeavesLocks(e) {
      EventPlain(s, e);
      PlainOwned(s, Apply(s, e), e.t);
    } else {
      match e {
        case CreateEnter(t) => CreateEnterOwned(s, t);
        case FindEnd(t) => FindEndOwned(s, t);
        case CountEnd(t, id, queueOrder, now) => CountEndOwned(s, t, id, queueOrder, now);
        case SaveLock(t) => SaveLockOwned(s, t);
        case SaveWrite(t) => SaveWriteOwned(s, t);
        case ClaimEnter(t) => ClaimEnterOwned(s, t);
        case ClaimPick(t, listing, now) => ClaimPickOwned(s, t, listing, now);
        case CasLock(t) => CasLockOwned(s, t);
        case CasRead(t) => CasReadOwned(s, t);
        case CasWrite(t) => CasWriteOwned(s, t);
        case CasReturn(t, t') =>
          if s.tasks[t].role.Claiming? || s.tasks[t].role.ClaimRequeue? {
            ClaimReturnOwned(s, t, t');
          } else {
            OtherReturnPlain(s, t, t');
            PlainOwned(s, DoCasReturn(s, t, t'), t);
          }
        case PersistEnter(t, data) => PersistEnterOwned(s, t, data);
        case PersistRead(t) =>
          StoreNamed(s);
          PersistReadOwned(s, t);
      }
    }
  }

  lemma OwnedKept(s: State, e: Event)
    requires Core(s) && Owned(s) && Enabled(s, e)
    ensures Owned(Apply(s, e))
  {
    hide Core, Entitled, OwnMove;
    if !e.Shutdown? && !e.Crash? && !e.ServeStart? {
      EventOwned(s, e);
      hide Enabled, Apply;
      OwnedMove(s, Apply(s, e), e.t);
    } else {
      LifecycleOwned(s, e);
    }
  }

  lemma LifecycleOwned(s: State, e: Event)
    requires Owned(s) && Enabled(s, e) && (e.Shutdown? || e.Crash? || e.ServeStart?)
    ensures Owned(Apply(s, e))
  {
    var s' := Apply(s, e);
    forall t ensures Entitled(s'.locks, t, TaskAt(s', t)) {
      assert Entitled(s.locks, t, TaskAt(s, t));
    }
  }

  lemma {:induction false} OwnedRun(s: State, run: seq<Event>)
    requires Inv(s) && Owned(s) && Valid(s, run)
    ensures Owned(Exec(s, run))
    decreases |run|
  {
    hide Core, Owned, Enabled, Apply;
    if run != [] {
      OwnedKept(s, run[0]);
      InvKept(s, run[0]);
      OwnedRun(Apply(s, run[0]), run[1..]);
    }
  }

  /** In every reachable state the locks and mutexes are exactly those that pending tasks hold, each by one task. */
  lemma LocksHaveOwners(config: Config, run: seq<Event>)
    requires Valid(Init(config), run)
    ensures forall t :: HoldsItsOwn(Exec(Init(config), run), t)
  {
    var s := Exec(Init(config), run);
    InvInit(config);
    InvRun(Init(config), run);
    OwnedRun(Init(config), run);
    forall t ensures HoldsItsOwn(s, t) {
      TaskHolds(s, t);
    }
  }

  // What is in the name of task `t` is what it holds.
  ghost predicate HoldsItsOwn(s: State, t: TaskId) {
    && (forall id :: Holds(s.locks.jobs, t, id) <==> t in s.tasks && HasJob(s.tasks[t], id))
    && (forall id :: Holds(s.locks.persists, t, id) <==> t in s.tasks && HasPersist(s.tasks[t], id))
    && (s.locks.create == Some(t) <==> t in s.tasks && HasCreate(s.tasks[t]))
    && (s.locks.claim == Some(t) <==> t in s.tasks && HasClaim(s.tasks[t]))
  }

  lemma TaskHolds(s: State, t: TaskId)
    requires Core(s) && Owned(s)
    ensures HoldsItsOwn(s, t)
  {
    hide DiskOk, QuietOk, JobOk;
    assert Entitled(s.locks, t, TaskAt(s, t));
    if t in s.tasks {
      assert TaskOk(s.disk, s.locks, t, s.tasks[t]);
    }
  }

  // ----- who waits for whom -----

  function Holder(locks: map<JobId, TaskId>, id: JobId): Option<TaskId> {
    if id in locks then Some(locks[id]) else None
  }

  /** The task that holds what task `t` waits for. */
  function WaitsFor(s: State, t: TaskId): Option<TaskId>
    requires t in s.tasks
  {
    match s.tasks[t]
    case CreateWait(_) => s.locks.create
    case ClaimWait => s.locks.claim
    case Saving(_, job, held) => if held then None else Holder(s.locks.jobs, job.id)
    case Cas(id, _, _, phase) => if phase.Waiting? then Holder(s.locks.jobs, id) else None
    case Notifying(id) => Holder(s.locks.persists, id)
    case _ => None
  }

  // A clean-up with nothing left to delete.
  predicate Finished(task: Task) {
    task.Deleting? && task.ids == {}
  }

  predicate Continues(e: Event, t: TaskId) {
    !e.Shutdown? && !e.Crash? && !e.ServeStart? && e.t == t
  }

  ghost predicate CanStep(s: State, t: TaskId) {
    t in s.tasks && exists e :: Continues(e, t) && Enabled(s, e)
  }

  lemma Steps(s: State, t: TaskId, e: Event)
    requires t in s.tasks && Continues(e, t) && Enabled(s, e)
    ensures CanStep(s, t)
  {
  }

  lemma {:induction false} Fresh(used: set<nat>) returns (n: nat)
    ensures forall x :: x in used ==> x < n
  {
    n := 0;
    if used != {} {
      var x :| x in used;
      var m := Fresh(used - {x});
      n := if x < m then m else x + 1;
      assert forall y :: y in used && y != x ==> y in used - {x};
    }
  }

  lemma {:induction false} Entries(seen: map<JobId, Job>) returns (jobs: seq<Job>)
    requires NamedById(seen)
    ensures JobRepository.Distinct(jobs) && forall job :: job in jobs <==> job.id in seen && seen[job.id] == job
    decreases |seen|
  {
    jobs := [];
    if seen != map[] {
      var id :| id in seen;
      jobs := Entries(seen - {id});
      jobs := jobs + [seen[id]];
    }
  }

  // What a claimer has read can be sorted.
  lemma ListingExists(seen: map<JobId, Job>) returns (listing: seq<Job>)
    requires NamedById(seen)
    ensures SortedListing(listing, seen)
  {
    var jobs := Entries(seen);
    listing := JobRepository.Sorted(jobs, Before);
    JobRepository.SortedIsSorted(jobs, Before);
    forall i | 0 <= i < |listing| ensures listing[i].id in seen && seen[listing[i].id] == listing[i] {
      assert listing[i] in listing;
    }
  }

  lemma ListingSteps(s: State, t: TaskId)
    requires Core(s) && t in s.tasks && s.tasks[t].Listing?
    ensures CanStep(s, t)
  {
    var task := s.tasks[t];
    assert TaskOk(s.disk, s.locks, t, task);
    hide CanStep, SortedListing, Core;
    if id :| id in task.todo {
      Steps(s, t, ListRead(t, id));
    } else {
      match task.goal {
        case FindGoal(_) => Steps(s, t, FindEnd(t));
        case CountGoal(_) =>
          var id := Fresh(s.disk.used);
          Steps(s, t, CountEnd(t, id, 0, 0));
        case ClaimGoal =>
          var listing := ListingExists(task.seen);
          Steps(s, t, ClaimPick(t, listing, 0));
        case CleanupGoal => Steps(s, t, CleanupPick(t, {}));
      }
    }
  }

  lemma CasSteps(s: State, t: TaskId)
    requires t in s.tasks && s.tasks[t].Cas? && WaitsFor(s, t).None?
    ensures CanStep(s, t)
  {
    hide CanStep;
    match s.tasks[t].phase {
      case Waiting => Steps(s, t, CasLock(t));
      case Reading => Steps(s, t, CasRead(t));
      case Writing(_) => Steps(s, t, CasWrite(t));
      case Returned(_) =>
        var t' := Fresh(s.tasks.Keys);
        Steps(s, t, CasReturn(t, t'));
    }
  }

  lemma NextStep(s: State, t: TaskId)
    requires Core(s) && t in s.tasks && WaitsFor(s, t).None? && !Finished(s.tasks[t])
    ensures CanStep(s, t)
  {
    hide CanStep, Core;
    match s.tasks[t] {
      case CreateWait(_) => Steps(s, t, CreateEnter(t));
      case ListWait(_) => Steps(s, t, ListBegin(t));
      case Listing(_, _, _) => ListingSteps(s, t);
      case Saving(_, _, held) => Steps(s, t, if held then SaveWrite(t) else SaveLock(t));
      case ClaimWait => Steps(s, t, ClaimEnter(t));
      case Cas(_, _, _, _) => CasSteps(s, t);
      case RunReading(_) => Steps(s, t, RunRead(t));
      case RunDeciding(_, _) => Steps(s, t, RunDecide(t, 0));
      case Executing(_, _) => Steps(s, t, RunOutcome(t, FailRun("", 0)));
      case RunEnding(_) => Steps(s, t, RunEnd(t));
      case Notifying(_) => Steps(s, t, PersistEnter(t, 0));
      case PersistReading(_, _) => Steps(s, t, PersistRead(t));
      case Deleting(ids) =>
        var id :| id in ids;
        Steps(s, t, DeleteOne(t, id));
    }
  }

  // Whoever holds a job lock waits for nothing; whoever holds anything else waits for a job lock at most.
  lemma HolderMoves(s: State, t: TaskId)
    requires Owned(s) && t in s.tasks && WaitsFor(s, t).Some?
    ensures var u := WaitsFor(s, t).value;
            && u in s.tasks && !Finished(s.tasks[u])
            && (WaitsFor(s, u).Some? ==>
                  var v := WaitsFor(s, u).value; v in s.tasks && !Finished(s.tasks[v]) && WaitsFor(s, v).None?)
  {
    var u := WaitsFor(s, t).value;
    assert Entitled(s.locks, u, TaskAt(s, u));
    if WaitsFor(s, u).Some? {
      var v := WaitsFor(s, u).value;
      assert Entitled(s.locks, v, TaskAt(s, v));
    }
  }

  function Ahead(s: State, t: TaskId): TaskId
    requires t in s.tasks
  {
    WaitsFor(s, t).GetOr(t)
  }

  /** In every reachable state, whatever a pending task waits for ends with a task that waits for nothing and can take
      its next step: the holder of what it needs, or the holder of the job lock that this one needs. */
  lemma NobodyIsStuck(config: Config, run: seq<Event>, t: TaskId)
    requires Valid(Init(config), run) && t in Exec(Init(config), run).tasks && !Finished(Exec(Init(config), run).tasks[t])
    ensures var s := Exec(Init(config), run);
            && Ahead(s, t) in s.tasks && Ahead(s, Ahead(s, t)) in s.tasks
            && WaitsFor(s, Ahead(s, Ahead(s, t))).None? && CanStep(s, Ahead(s, Ahead(s, t)))
  {
    var s := Exec(Init(config), run);
    InvInit(config);
    InvRun(Init(config), run);
    OwnedRun(Init(config), run);
    if WaitsFor(s, t).Some? {
      HolderMoves(s, t);
    }
    hide Core, Owned, CanStep;
    NextStep(s, Ahead(s, Ahead(s, t)));
  }

  /** A job lock is held for two steps of its holder at most: after one it is free, unless this was the read of a
      transition that goes on to write. */
  lemma JobLockIsBrief(s: State, t: TaskId, id: JobId, e: Event)
    requires t in s.tasks && HasJob(s.tasks[t], id) && Continues(e, t) && Enabled(s, e)
    ensures var s' := Apply(s, e);
            id !in s'.locks.jobs || (e.CasRead? && t in s'.tasks && s'.tasks[t].Cas? && s'.tasks[t].phase.Writing?)
  {
    hide Update, Replaced, Expected, WithNotice;
  }
}

/** The service does its work: a claimer that finds room takes a job, and from every reachable state in which nothing is
    pending a queued job gets to run, a request is admitted, a callback or a cancellation takes effect, a notification is
    recorded, and a restart ends what was interrupted and serves. */
module JobLiveness {
  import opened Wrappers
  import opened JobModel
  import opened JobProtocol
  import opened JobInvariants
  import opened JobStarts
  import opened JobLoad
  import JobOrder
  import opened JobTheorems
  import opened JobProgress
  import opened JobRuns
  import opened JobPaths
  import opened JobOutcomes

  // ----- when a claimer takes a job -----

  lemma UnionSize(a: set<JobId>, b: set<JobId>)
    ensures |a + b| == |a| + |b - a|
  {
    assert a + b == a + (b - a);
  }

  lemma ClaimableListed(listing: seq<Job>, seen: map<JobId, Job>, inFlight: set<JobId>)
    requires SortedListing(listing, seen) && forall id :: id in seen ==> seen[id].id == id
    ensures FirstClaimable(listing, inFlight).Some? <==>
              exists q :: q in seen && seen[q].status == Queued && q !in inFlight
  {
    if q :| q in seen && seen[q].status == Queued && q !in inFlight {
      var i :| 0 <= i < |listing| && listing[i] == seen[q];
    }
  }

  predicate GoesFor(s: State, t: TaskId, id: JobId, now: nat) {
    TaskAt(s, t) == Some(Cas(id, Claim(now), Claiming, Waiting))
  }

  // The slots that a claimer counts: what is in flight, and what it has seen running.
  function Busy(s: State, seen: map<JobId, Job>): set<JobId> {
    s.inFlight + set id | id in seen && seen[id].status == Running
  }

  lemma PickExact(s: State, t: TaskId, listing: seq<Job>, now: nat)
    requires CanClaimPick(s, t, listing) && NamedById(s.tasks[t].seen)
    ensures var seen := s.tasks[t].seen;
            (exists id :: GoesFor(DoClaimPick(s, t, listing, now), t, id, now)) <==>
              && !s.shuttingDown && |Busy(s, seen)| < s.config.maxConcurrency
              && exists q :: q in seen && seen[q].status == Queued && q !in s.inFlight
  {
    var seen := s.tasks[t].seen;
    ClaimableListed(listing, seen, s.inFlight);
    UnionSize(s.inFlight, RunningIds(seen));
    assert Busy(s, seen) == s.inFlight + RunningIds(seen);
    hide SortedListing, FirstClaimable, RunningIds, Busy;
    var candidate := FirstClaimable(listing, s.inFlight);
    if !s.shuttingDown && |Busy(s, seen)| < s.config.maxConcurrency && candidate.Some? {
      assert GoesFor(DoClaimPick(s, t, listing, now), t, candidate.value, now);
    }
  }

  lemma SeenNamed(s: State, t: TaskId)
    requires Core(s) && t in s.tasks && s.tasks[t].Listing?
    ensures NamedById(s.tasks[t].seen)
  {
    hide DiskOk, QuietOk;
    assert TaskOk(s.disk, s.locks, t, s.tasks[t]);
  }

  /** In every reachable state a claimer that has listed the jobs goes for one exactly when the service is not shutting
      down, fewer jobs than `maxConcurrency` are in flight or listed as running, and a queued one is listed that is
      not in flight. */
  lemma ClaimsWhenThereIsRoom(config: Config, run: seq<Event>, t: TaskId, listing: seq<Job>, now: nat)
    requires Valid(Init(config), run) && CanClaimPick(Exec(Init(config), run), t, listing)
    ensures var s := Exec(Init(config), run); var seen := s.tasks[t].seen;
            (exists id :: TaskAt(DoClaimPick(s, t, listing, now), t) == Some(Cas(id, Claim(now), Claiming, Waiting))) <==>
              && !s.shuttingDown
              && |s.inFlight + set id | id in seen && seen[id].status == Running| < s.config.maxConcurrency
              && exists q :: q in seen && seen[q].status == Queued && q !in s.inFlight
  {
    var s := Exec(Init(config), run);
    InvInit(config);
    InvRun(Init(config), run);
    SeenNamed(s, t);
    PickExact(s, t, listing, now);
    hide Inv, CanClaimPick, DoClaimPick, Exec, Valid;
    if id :| TaskAt(DoClaimPick(s, t, listing, now), t) == Some(Cas(id, Claim(now), Claiming, Waiting)) {
      assert GoesFor(DoClaimPick(s, t, listing, now), t, id, now);
    }
  }

  // ----- nothing is pending -----

  /** The process serves, and nothing is pending but clean-ups that have nothing left to do. */
  predicate Idle(s: State) {
    s.serving && !s.shuttingDown && forall t :: t in s.tasks ==> s.tasks[t] == Deleting({})
  }

  lemma IdleIsFree(s: State)
    requires Owned(s) && forall t :: t in s.tasks ==> s.tasks[t] == Deleting({})
    ensures s.locks == FREE
  {
    var l := s.locks;
    assert forall id :: id in l.jobs ==> Entitled(l, l.jobs[id], TaskAt(s, l.jobs[id]));
    assert forall id :: id in l.persists ==> Entitled(l, l.persists[id], TaskAt(s, l.persists[id]));
    assert l.create.Some? ==> Entitled(l, l.create.value, TaskAt(s, l.create.value));
    assert l.claim.Some? ==> Entitled(l, l.claim.value, TaskAt(s, l.claim.value));
    assert l.jobs == map[] && l.persists == map[];
  }

  lemma ReachedIdle(config: Config, run: seq<Event>)
    requires Valid(Init(config), run)
    ensures Inv(Exec(Init(config), run)) && Owned(Exec(Init(config), run))
  {
    InvInit(config);
    InvRun(Init(config), run);
    OwnedRun(Init(config), run);
  }

  // ----- a queued job gets to run -----

  lemma EnterClaim(from: State, s: State, t: TaskId) returns (s': State)
    requires Leads(from, s) && Idle(s) && s.locks == FREE && t !in s.tasks && |s.inFlight| < s.config.maxConcurrency
    ensures Leads(from, s') && s' == SetTask(s, t, ListWait(ClaimGoal)).(locks := FREE.(claim := Some(t)))
  {
    hide Leads;
    var s1 := Then(from, s, Tick(t));
    s' := Then(from, s1, ClaimEnter(t));
  }

  lemma ThenPick(from: State, s: State, t: TaskId, listing: seq<Job>, now: nat) returns (s': State)
    requires Leads(from, s) && CanClaimPick(s, t, listing)
    ensures Leads(from, s') && s' == DoClaimPick(s, t, listing, now)
  {
    hide Leads, DoClaimPick, SortedListing;
    s' := Then(from, s, ClaimPick(t, listing, now));
  }

  /** `id` is job `q`, or precedes it in the queue. */
  predicate NotAfter(store: map<JobId, Job>, id: JobId, q: JobId)
    requires id in store && q in store
  {
    || id == q
    || store[id].queueOrder < store[q].queueOrder
    || (store[id].queueOrder == store[q].queueOrder && store[id].createdAt < store[q].createdAt)
    || (store[id].queueOrder == store[q].queueOrder && store[id].createdAt == store[q].createdAt && id < q)
  }

  // A claimer has listed the whole store and picks the first claimable job.
  lemma ClaimerPicks(from: State, s: State, t: TaskId, now: nat, q: JobId) returns (s': State, id: JobId)
    requires Leads(from, s) && t in s.tasks && s.tasks[t] == Listing(ClaimGoal, {}, s.disk.store)
    requires NamedById(s.disk.store) && !s.shuttingDown && |Busy(s, s.disk.store)| < s.config.maxConcurrency
    requires q in s.disk.store && s.disk.store[q].status == Queued && q !in s.inFlight
    ensures Leads(from, s') && s' == SetTask(s, t, Cas(id, Claim(now), Claiming, Waiting))
    ensures id in s.disk.store && s.disk.store[id].status == Queued && NotAfter(s.disk.store, id, q)
  {
    var listing := ListingExists(s.disk.store);
    PickExact(s, t, listing, now);
    var candidate := ClaimPickShape(s, t, listing, now);
    hide Leads, DoClaimPick, FirstClaimable, SortedListing, Busy;
    assert candidate.Some? by {
      var c :| GoesFor(DoClaimPick(s, t, listing, now), t, c, now);
    }
    id := candidate.value;
    s' := ThenPick(from, s, t, listing, now);
    PickedFirst(s, listing, id, q);
  }

  lemma PickedFirst(s: State, listing: seq<Job>, id: JobId, q: JobId)
    requires SortedListing(listing, s.disk.store) && NamedById(s.disk.store)
    requires FirstClaimable(listing, s.inFlight) == Some(id) && id in s.disk.store
    requires q in s.disk.store && s.disk.store[q].status == Queued && q !in s.inFlight
    ensures NotAfter(s.disk.store, id, q)
  {
    JobOrder.FirstIsLeast(listing, s.disk.store, s.inFlight, q);
  }

  // The task at `t` is running job `id`, or failing it because its session cannot be started.
  predicate Runs(s: State, t: TaskId, id: JobId, mode: Mode) {
    t in s.tasks && if mode == TmuxMode && !s.config.tmuxAvailable then RunOf(s.tasks[t]) == Some(id) && s.tasks[t].Cas?
                    else s.tasks[t] == Executing(id, mode) && id in s.starts
  }

  lemma ThenDecide(from: State, s: State, t: TaskId, now: nat) returns (s': State)
    requires Leads(from, s) && t in s.tasks && s.tasks[t].RunReading? && !s.shuttingDown
    requires s.tasks[t].id in s.disk.store && s.disk.store[s.tasks[t].id].status == Running
    ensures Leads(from, s') && s'.disk == s.disk && s'.inFlight == s.inFlight
    ensures Runs(s', t, s.tasks[t].id, s.disk.store[s.tasks[t].id].mode)
  {
    hide Leads;
    var s1 := Then(from, s, RunRead(t));
    s' := Then(from, s1, RunDecide(t, now));
  }

  lemma ClaimGoesThrough(from: State, s: State, t: TaskId, id: JobId, now: nat) returns (s': State)
    requires Leads(from, s) && s.serving && !s.shuttingDown && s.locks.jobs == map[]
    requires t in s.tasks && s.tasks[t] == Cas(id, Claim(now), Claiming, Waiting)
    requires id in s.disk.store && s.disk.store[id].status == Queued && Readable(s.disk.store[id])
    ensures Leads(from, s') && id in s'.inFlight && id in s'.disk.store && s'.disk.store[id].status == Running
    ensures s'.disk.store[id].startedAt == Some(now) && Runs(s', t, id, s.disk.store[id].mode)
  {
    var next := Update(Claim(now), s.disk.store[id]);
    UpdateShape(Claim(now), s.disk.store[id]);
    assert next.startedAt == Some(now);
    hide Leads, Update, Readable, Runs;
    var s1 := ThenTransition(from, s, t);
    assert s1.disk.store == s.disk.store[id := next];
    var bound := Fresh(s1.tasks.Keys);
    var s2 := ThenReturn(from, s1, t, bound);
    s' := ThenDecide(from, s2, t, now);
  }

  lemma ClaimPath(s: State, q: JobId, now: nat) returns (s': State, t: TaskId, id: JobId)
    requires Inv(s) && Owned(s) && Idle(s) && |Busy(s, s.disk.store)| < s.config.maxConcurrency
    requires q in s.disk.store && s.disk.store[q].status == Queued
    ensures Leads(s, s') && id in s.disk.store && NotAfter(s.disk.store, id, q)
    ensures id in s'.inFlight && id in s'.disk.store && s'.disk.store[id].status == Running
    ensures s'.disk.store[id].startedAt == Some(now) && Runs(s', t, id, s.disk.store[id].mode)
  {
    t := Fresh(s.tasks.Keys);
    QueuedIsFree(s, q);
    StoreNamed(s);
    IdleIsFree(s);
    hide Inv, Owned, Leads, Runs, NotAfter, NamedById, Busy;
    var s2 := ListForClaim(s, t);
    SameBusy(s, s2);
    var s3;
    s3, id := ClaimerPicks(s, s2, t, now, q);
    StoredIsReadable(s, id);
    s' := ClaimGoesThrough(s, s3, t, id, now);
  }

  lemma ListForClaim(s: State, t: TaskId) returns (s': State)
    requires Idle(s) && s.locks == FREE && t !in s.tasks && |Busy(s, s.disk.store)| < s.config.maxConcurrency
    ensures Leads(s, s') && s'.disk == s.disk && s'.inFlight == s.inFlight && s'.config == s.config
    ensures t in s'.tasks && s'.tasks[t] == Listing(ClaimGoal, {}, s.disk.store)
    ensures s'.serving && !s'.shuttingDown && s'.locks.jobs == map[]
  {
    SubsetSize(s.inFlight, Busy(s, s.disk.store));
    Here(s);
    hide Leads, Busy;
    var s1 := EnterClaim(s, s, t);
    s' := ThenListAll(s, s1, t);
  }

  lemma SameBusy(s: State, s': State)
    requires s'.inFlight == s.inFlight && s'.disk == s.disk
    ensures Busy(s', s'.disk.store) == Busy(s, s.disk.store)
  {
  }

  lemma StoredIsReadable(s: State, id: JobId)
    requires Inv(s) && id in s.disk.store
    ensures Readable(s.disk.store[id])
  {
    assert JobOk(s.disk, id, s.disk.store[id]);
  }

  lemma QueuedIsFree(s: State, q: JobId)
    requires Inv(s) && !s.shuttingDown && q in s.disk.store && s.disk.store[q].status == Queued
    ensures q !in s.inFlight
  {
    hide Core, LoadOk;
  }

  /** Work gets done: from every reachable state in which nothing is pending, fewer jobs than `maxConcurrency` are
      running or in flight, and a job is queued, there are steps after which this job, or one that precedes it in the
      queue, is running and in flight, and its execution has begun. */
  lemma QueuedJobGetsToRun(config: Config, run: seq<Event>, q: JobId, now: nat)
    requires Valid(Init(config), run) && Idle(Exec(Init(config), run))
    requires var s := Exec(Init(config), run);
             && q in s.disk.store && s.disk.store[q].status == Queued
             && |s.inFlight + set id | id in s.disk.store && s.disk.store[id].status == Running| < s.config.maxConcurrency
    ensures var s := Exec(Init(config), run);
            exists s': State, t: TaskId, id: JobId ::
              && Leads(s, s') && id in s.disk.store && NotAfter(s.disk.store, id, q)
              && id in s'.inFlight && id in s'.disk.store && s'.disk.store[id].status == Running
              && s'.disk.store[id].startedAt == Some(now) && Runs(s', t, id, s.disk.store[id].mode)
  {
    ReachedIdle(config, run);
    hide Inv, Owned, Idle, Leads, Runs, NotAfter, Exec, Valid;
    var s', t, id := ClaimPath(Exec(Init(config), run), q, now);
  }

  // ----- a request is admitted -----

  lemma ActiveSize(seen: map<JobId, Job>)
    ensures ActiveIds(seen) == set id | id in seen && (seen[id].status == Queued || seen[id].status == Running)
  {
  }

  /** A creation goes on to count exactly when its listing holds no job of its key, and goes on to save exactly when its
      second listing holds fewer than `maxActiveJobs` queued and running jobs. */
  lemma AdmissionDecides(s: State, t: TaskId, id: JobId, queueOrder: nat, now: nat)
    requires t in s.tasks && s.tasks[t].Listing? && s.tasks[t].todo == {}
    ensures CanFindEnd(s, t) ==>
              var seen := s.tasks[t].seen; var req := s.tasks[t].goal.req;
              TaskAt(DoFindEnd(s, t), t) == if exists other :: other in seen && seen[other].key == req.key then None
                                            else Some(ListWait(CountGoal(req)))
    ensures CanCountEnd(s, t, id) ==>
              var seen := s.tasks[t].seen; var s' := DoCountEnd(s, t, id, queueOrder, now);
              var active := set other | other in seen && (seen[other].status == Queued || seen[other].status == Running);
              if |active| < s.config.maxActiveJobs then t in s'.tasks && s'.tasks[t].Saving? && s'.tasks[t].job.id == id
              else t !in s'.tasks && s'.disk == s.disk
  {
    ActiveSize(s.tasks[t].seen);
    hide ActiveIds;
  }

  // The job that a request makes.
  predicate Requested(job: Job, id: JobId, req: Request, queueOrder: nat, now: nat) {
    && job.id == id && job.mode == req.mode && job.key == req.key && job.execution == req.execution && job.nulls == req.nulls
    && job.queueOrder == queueOrder && job.createdAt == now && job.status == Queued
    && job.startedAt == None && job.finishedAt == None && job.exitCode == None && job.stdout == "" && job.stderr == ""
    && job.session == None && job.notifyOutcome == None && job.notifyHistory == []
  }

  lemma EnterCreate(from: State, s: State, t: TaskId, req: Request) returns (s': State)
    requires Leads(from, s) && s.serving && s.locks.create.None? && t !in s.tasks
    ensures Leads(from, s')
    ensures s' == SetTask(s, t, ListWait(if req.key.Some? then FindGoal(req) else CountGoal(req))).(
                    locks := s.locks.(create := Some(t)))
  {
    hide Leads;
    var s1 := Then(from, s, CreateArrive(t, req));
    s' := Then(from, s1, CreateEnter(t));
  }

  // The search has found nothing.
  lemma SearchGoesThrough(from: State, s: State, t: TaskId, req: Request) returns (s': State)
    requires Leads(from, s) && t in s.tasks && s.tasks[t] == ListWait(if req.key.Some? then FindGoal(req) else CountGoal(req))
    requires req.key.Some? ==> forall other :: other in s.disk.store ==> s.disk.store[other].key != req.key
    ensures Leads(from, s') && s' == SetTask(s, t, ListWait(CountGoal(req)))
  {
    hide Leads;
    if req.key.Some? {
      var s1 := ThenListAll(from, s, t);
      s' := ThenFind(from, s1, t);
    } else {
      s' := s;
      assert s.tasks[t := s.tasks[t]] == s.tasks;
    }
  }

  lemma CountGoesThrough(from: State, s: State, t: TaskId, id: JobId, req: Request, queueOrder: nat, now: nat)
    returns (s': State)
    requires Leads(from, s) && t in s.tasks && s.tasks[t] == ListWait(CountGoal(req)) && id !in s.disk.used
    requires |ActiveIds(s.disk.store)| < s.config.maxActiveJobs
    ensures Leads(from, s')
    ensures s' == SetTask(s, t, Saving(CreatePurpose, NewJob(id, req, queueOrder, now), false)).(
                    disk := s.disk.(used := s.disk.used + {id}))
  {
    hide Leads, ActiveIds;
    var s1 := ThenListAll(from, s, t);
    s' := ThenCount(from, s1, t, id, queueOrder, now);
    assert s1.tasks[t := s'.tasks[t]] == s.tasks[t := s'.tasks[t]];
  }

  lemma NewJobRequested(id: JobId, req: Request, queueOrder: nat, now: nat)
    requires req.nulls == {} && (req.key.Some? ==> req.key.value.source != Some(NullSource))
    ensures Requested(NewJob(id, req, queueOrder, now), id, req, queueOrder, now) && Readable(NewJob(id, req, queueOrder, now))
  {
  }

  lemma CreatePath(s: State, req: Request, queueOrder: nat, now: nat) returns (s': State, id: JobId)
    requires Inv(s) && Owned(s) && Idle(s) && |ActiveIds(s.disk.store)| < s.config.maxActiveJobs
    requires req.nulls == {} && (req.key.Some? ==> req.key.value.source != Some(NullSource))
    requires req.key.Some? ==> forall other :: other in s.disk.store ==> s.disk.store[other].key != req.key
    ensures Leads(s, s') && id !in s.disk.store && Requested(NewJob(id, req, queueOrder, now), id, req, queueOrder, now)
    ensures s'.disk.store == s.disk.store[id := NewJob(id, req, queueOrder, now)]
  {
    var t := Fresh(s.tasks.Keys);
    id := Fresh(s.disk.used);
    IdleIsFree(s);
    Here(s);
    StoredIsUsed(s, id);
    NewJobRequested(id, req, queueOrder, now);
    hide Inv, Owned, Leads, ActiveIds, Readable, NewJob, Requested;
    var s1 := EnterCreate(s, s, t, req);
    var s2 := SearchGoesThrough(s, s1, t, req);
    var s3 := CountGoesThrough(s, s2, t, id, req, queueOrder, now);
    s' := SavePath(s, s3, t, NewJob(id, req, queueOrder, now));
  }

  lemma SavePath(from: State, s: State, t: TaskId, job: Job) returns (s': State)
    requires Leads(from, s) && t in s.tasks && s.tasks[t] == Saving(CreatePurpose, job, false) && job.id !in s.locks.jobs
    requires Readable(job)
    ensures Leads(from, s') && s'.disk.store == s.disk.store[job.id := job]
  {
    hide Leads, Readable;
    s' := ThenSave(from, s, t);
  }

  lemma StoredIsUsed(s: State, id: JobId)
    requires Inv(s) && id !in s.disk.used
    ensures id !in s.disk.store
  {
    assert id in s.disk.store ==> JobOk(s.disk, id, s.disk.store[id]);
  }

  /** From every reachable state in which nothing is pending, a request whose key no stored job has is admitted when fewer
      than `maxActiveJobs` jobs are queued or running: there are steps after which the store holds one job more, queued and
      as requested. */
  lemma RequestIsAdmitted(config: Config, run: seq<Event>, req: Request, queueOrder: nat, now: nat)
    requires Valid(Init(config), run) && Idle(Exec(Init(config), run))
    requires req.nulls == {} && (req.key.Some? ==> req.key.value.source != Some(NullSource))
    requires var s := Exec(Init(config), run);
             && (req.key.Some? ==> forall other :: other in s.disk.store ==> s.disk.store[other].key != req.key)
             && |set other | other in s.disk.store
                             && (s.disk.store[other].status == Queued || s.disk.store[other].status == Running)|
                < s.config.maxActiveJobs
    ensures var s := Exec(Init(config), run);
            exists s': State, id: JobId, job: Job ::
              && Leads(s, s') && id !in s.disk.store && Requested(job, id, req, queueOrder, now)
              && s'.disk.store == s.disk.store[id := job]
  {
    var s := Exec(Init(config), run);
    ReachedIdle(config, run);
    ActiveSize(s.disk.store);
    hide Inv, Owned, Idle, Leads, Exec, Valid, Requested, NewJob, ActiveIds;
    var s', id := CreatePath(s, req, queueOrder, now);
    assert Leads(s, s') && s'.disk.store == s.disk.store[id := NewJob(id, req, queueOrder, now)];
  }

  // ----- a callback or a cancellation takes effect -----

  lemma ArriveOutside(from: State, s: State, t: TaskId, id: JobId, op: Op) returns (s': State)
    requires Leads(from, s) && Idle(s) && t !in s.tasks && (op.Callback? || op.CancelByApi?)
    ensures Leads(from, s') && s' == SetTask(s, t, Cas(id, op, Outside, Waiting))
  {
    hide Leads;
    s' := Then(from, s, OutsideOp(t, id, op));
  }

  lemma ReturnOutside(from: State, s: State, t: TaskId) returns (s': State, t': TaskId)
    requires Leads(from, s) && t in s.tasks && s.tasks[t].Cas? && s.tasks[t].role.Outside? && s.tasks[t].phase.Returned?
    requires s.tasks[t].phase.done.Some? && Terminal(s.tasks[t].phase.done.value.status) && !s.tasks[t].op.Recover?
    ensures Leads(from, s') && s'.disk == s.disk && t' in s'.tasks && s'.tasks[t'] == Notifying(s.tasks[t].id)
  {
    t' := Fresh(s.tasks.Keys);
    hide Leads;
    s' := ThenReturn(from, s, t, t');
  }

  lemma OutsideFacts(s: State, id: JobId, op: Op)
    requires Inv(s) && (op.Callback? || op.CancelByApi?) && !Spoils(op)
    requires id in s.disk.store && (s.disk.store[id].status == Queued || s.disk.store[id].status == Running)
    ensures var next := Update(op, s.disk.store[id]);
            s.disk.store[id].status in Expected(op) && Terminal(next.status) && Readable(next) && Delivers(op, s.disk.store[id], next)
  {
    StoredIsReadable(s, id);
    hide Inv;
    UpdateShape(op, s.disk.store[id]);
    UpdateDelivers(op, s.disk.store[id]);
  }

  // The operation applies to the stored job and ends it, readably.
  predicate Ends(s: State, id: JobId, op: Op) {
    && id in s.disk.store && s.disk.store[id].status in Expected(op) && !op.Recover?
    && Terminal(Update(op, s.disk.store[id]).status) && Readable(Update(op, s.disk.store[id]))
  }

  lemma OutsidePath(s: State, id: JobId, op: Op) returns (s': State, t': TaskId)
    requires Inv(s) && Owned(s) && Idle(s) && (op.Callback? || op.CancelByApi?) && !Spoils(op)
    requires id in s.disk.store && (s.disk.store[id].status == Queued || s.disk.store[id].status == Running)
    ensures Leads(s, s') && id in s'.disk.store && Delivers(op, s.disk.store[id], s'.disk.store[id])
    ensures t' in s'.tasks && s'.tasks[t'] == Notifying(id)
  {
    OutsideFacts(s, id, op);
    assert Ends(s, id, op);
    IdleIsFree(s);
    hide Inv, Owned, Idle, Leads, Update, Delivers, Readable, Spoils, Expected, Ends;
    s', t' := OutsideFrom(s, id, op);
  }

  lemma OutsideFrom(s: State, id: JobId, op: Op) returns (s': State, t': TaskId)
    requires Idle(s) && s.locks == FREE && (op.Callback? || op.CancelByApi?) && Ends(s, id, op)
    ensures Leads(s, s') && id in s'.disk.store && s'.disk.store[id] == Update(op, s.disk.store[id])
    ensures t' in s'.tasks && s'.tasks[t'] == Notifying(id)
  {
    hide Leads, Update, Readable, Expected, Idle;
    var t := Fresh(s.tasks.Keys);
    Here(s);
    var s1 := ArriveOutside(s, s, t, id, op);
    s', t' := TransitionOutside(s, s1, t);
  }

  lemma TransitionOutside(from: State, s: State, t: TaskId) returns (s': State, t': TaskId)
    requires Leads(from, s) && CanCasLock(s, t) && s.tasks[t].role.Outside? && !s.tasks[t].op.Recover?
    requires s.tasks[t].id in s.disk.store && s.disk.store[s.tasks[t].id].status in Expected(s.tasks[t].op)
    requires var next := Update(s.tasks[t].op, s.disk.store[s.tasks[t].id]); Terminal(next.status) && Readable(next)
    ensures var id := s.tasks[t].id;
            && Leads(from, s') && id in s'.disk.store && s'.disk.store[id] == Update(s.tasks[t].op, s.disk.store[id])
            && t' in s'.tasks && s'.tasks[t'] == Notifying(id)
  {
    hide Leads, Update, Readable, Expected;
    var s1 := ThenTransition(from, s, t);
    s', t' := ReturnOutside(from, s1, t);
  }

  /** From every reachable state in which nothing is pending, a callback without explicit nulls and a cancellation take effect
      on a job that is queued or running: there are steps after which the job has ended as delivered and a
      notification of it is pending. */
  lemma OutsideEndsTheJob(config: Config, run: seq<Event>, id: JobId, op: Op)
    requires Valid(Init(config), run) && Idle(Exec(Init(config), run))
    requires op.CancelByApi? || (op.Callback? && NullFree(op.input))
    requires id in Exec(Init(config), run).disk.store
    requires var status := Exec(Init(config), run).disk.store[id].status; status == Queued || status == Running
    ensures var s := Exec(Init(config), run);
            exists s': State, t: TaskId ::
              && Leads(s, s') && id in s'.disk.store && Delivers(op, s.disk.store[id], s'.disk.store[id])
              && t in s'.tasks && s'.tasks[t] == Notifying(id)
  {
    ReachedIdle(config, run);
    hide Inv, Owned, Idle, Leads, Exec, Valid, Delivers, NullFree;
    var s', t := OutsidePath(Exec(Init(config), run), id, op);
  }

  // ----- a run comes to its end -----

  /** The process serves, and nothing is pending but the run at `t` and clean-ups that have nothing left to do. */
  predicate OnlyRuns(s: State, t: TaskId, id: JobId, mode: Mode) {
    && s.serving && t in s.tasks && s.tasks[t] == Executing(id, mode)
    && forall u :: u in s.tasks && u != t ==> s.tasks[u] == Deleting({})
  }

  lemma RunIsFree(s: State, t: TaskId, id: JobId, mode: Mode)
    requires Owned(s) && OnlyRuns(s, t, id, mode)
    ensures s.locks == FREE
  {
    var l := s.locks;
    assert forall j :: j in l.jobs ==> Entitled(l, l.jobs[j], TaskAt(s, l.jobs[j]));
    assert forall j :: j in l.persists ==> Entitled(l, l.persists[j], TaskAt(s, l.persists[j]));
    assert l.create.Some? ==> Entitled(l, l.create.value, TaskAt(s, l.create.value));
    assert l.claim.Some? ==> Entitled(l, l.claim.value, TaskAt(s, l.claim.value));
    assert l.jobs == map[] && l.persists == map[];
  }

  // What a run may report.
  predicate Outcome(op: Op, mode: Mode) {
    op.FailRun? || (if mode == ExecMode then op.Finish? else op.SetSession?)
  }

  // What is stored of it: a session, or the end of the job.
  predicate HasEffect(op: Op, before: Job, after: Job) {
    if op.SetSession? then after == before.(session := Some(op.session)) else Delivers(op, before, after)
  }

  lemma OutcomeFacts(s: State, id: JobId, op: Op)
    requires Inv(s) && id in s.disk.store && s.disk.store[id].status == Running && (op.FailRun? || op.Finish? || op.SetSession?)
    ensures var next := Update(op, s.disk.store[id]);
            && s.disk.store[id].status in Expected(op) && Readable(next) && HasEffect(op, s.disk.store[id], next)
            && (op.SetSession? <==> !Terminal(next.status))
  {
    StoredIsReadable(s, id);
    hide Inv;
    UpdateShape(op, s.disk.store[id]);
    if !op.SetSession? {
      UpdateDelivers(op, s.disk.store[id]);
    }
  }

  lemma BeginEnd(from: State, s: State, t: TaskId, op: Op) returns (s': State)
    requires Leads(from, s) && t in s.tasks && s.tasks[t].Executing? && Outcome(op, s.tasks[t].mode)
    ensures Leads(from, s') && s' == SetTask(s, t, Cas(s.tasks[t].id, op, RunFinish, Waiting))
  {
    hide Leads;
    s' := Then(from, s, RunOutcome(t, op));
  }

  // The transition of a run has returned: its slot is freed, and the end of the job is announced.
  lemma ReturnRun(from: State, s: State, t: TaskId, next: Job) returns (s': State, t': TaskId)
    requires Leads(from, s) && t in s.tasks && s.tasks[t].Cas? && s.tasks[t].role.RunFinish? && !s.tasks[t].op.Recover?
    requires s.tasks[t].phase == Returned(Some(next))
    ensures Leads(from, s') && s'.disk == s.disk && s.tasks[t].id !in s'.inFlight
    ensures Terminal(next.status) ==> t' in s'.tasks && s'.tasks[t'] == Notifying(s.tasks[t].id)
  {
    t' := Fresh(s.tasks.Keys);
    hide Leads;
    var s1 := ThenReturn(from, s, t, t');
    s' := Then(from, s1, RunEnd(t));
  }

  lemma EndPath(s: State, t: TaskId, id: JobId, mode: Mode, op: Op) returns (s': State, t': TaskId)
    requires Inv(s) && Owned(s) && OnlyRuns(s, t, id, mode) && Outcome(op, mode)
    requires id in s.disk.store && s.disk.store[id].status == Running
    ensures Leads(s, s') && id in s'.disk.store && HasEffect(op, s.disk.store[id], s'.disk.store[id]) && id !in s'.inFlight
    ensures !op.SetSession? ==> t' in s'.tasks && s'.tasks[t'] == Notifying(id)
  {
    RunIsFree(s, t, id, mode);
    OutcomeFacts(s, id, op);
    assert Applies(s, id, op);
    hide Inv, Owned, OnlyRuns, Outcome, Applies, Leads, Update, HasEffect, Readable, Expected;
    s', t' := EndFrom(s, t, id, mode, op);
  }

  // The operation applies to the stored job, and leaves it readable.
  predicate Applies(s: State, id: JobId, op: Op) {
    id in s.disk.store && s.disk.store[id].status in Expected(op) && Readable(Update(op, s.disk.store[id]))
  }

  lemma EndFrom(s: State, t: TaskId, id: JobId, mode: Mode, op: Op) returns (s': State, t': TaskId)
    requires OnlyRuns(s, t, id, mode) && s.locks == FREE && Outcome(op, mode) && Applies(s, id, op)
    ensures Leads(s, s') && id in s'.disk.store && s'.disk.store[id] == Update(op, s.disk.store[id]) && id !in s'.inFlight
    ensures Terminal(Update(op, s.disk.store[id]).status) ==> t' in s'.tasks && s'.tasks[t'] == Notifying(id)
  {
    Here(s);
    hide Leads, Update, Readable, Expected;
    var s1 := BeginEnd(s, s, t, op);
    hide Outcome, OnlyRuns;
    s', t' := EndOn(s, s1, t);
  }

  lemma EndOn(from: State, s: State, t: TaskId) returns (s': State, t': TaskId)
    requires Leads(from, s) && CanCasLock(s, t) && s.tasks[t].role.RunFinish? && !s.tasks[t].op.Recover?
    requires Applies(s, s.tasks[t].id, s.tasks[t].op)
    ensures var id := s.tasks[t].id; var next := Update(s.tasks[t].op, s.disk.store[id]);
            && Leads(from, s') && id in s'.disk.store && s'.disk.store[id] == next && id !in s'.inFlight
            && (Terminal(next.status) ==> t' in s'.tasks && s'.tasks[t'] == Notifying(id))
  {
    hide Leads, Update, Readable, Expected;
    var id := s.tasks[t].id;
    var s1 := ThenTransition(from, s, t);
    assert s1.disk.store == s.disk.store[id := Update(s.tasks[t].op, s.disk.store[id])];
    s', t' := ReturnRun(from, s1, t, Update(s.tasks[t].op, s.disk.store[id]));
  }

  /** From every reachable state in which nothing but a run is pending, its outcome takes effect on the job if it is still
      running: there are steps after which the session is stored, or the job has ended as delivered and a notification of
      it is pending, and the slot of the run is free. */
  lemma RunEndsTheJob(config: Config, run: seq<Event>, t: TaskId, id: JobId, mode: Mode, op: Op)
    requires Valid(Init(config), run) && OnlyRuns(Exec(Init(config), run), t, id, mode) && Outcome(op, mode)
    requires id in Exec(Init(config), run).disk.store && Exec(Init(config), run).disk.store[id].status == Running
    ensures var s := Exec(Init(config), run);
            exists s': State, t': TaskId ::
              && Leads(s, s') && id in s'.disk.store && HasEffect(op, s.disk.store[id], s'.disk.store[id])
              && id !in s'.inFlight && (!op.SetSession? ==> t' in s'.tasks && s'.tasks[t'] == Notifying(id))
  {
    ReachedIdle(config, run);
    hide Inv, Owned, OnlyRuns, Outcome, HasEffect, Leads, Exec, Valid;
    var s', t' := EndPath(Exec(Init(config), run), t, id, mode, op);
  }

  // ----- a notification is recorded -----

  // The outcome is the last of the history, which keeps ten.
  predicate Records(before: Job, after: Job, data: nat) {
    var notice := Notice(data, |before.notifyHistory|);
    var history := if |before.notifyHistory| < 10 then before.notifyHistory
                   else before.notifyHistory[|before.notifyHistory| - 9..];
    after == before.(notifyOutcome := Some(notice), notifyHistory := history + [notice])
  }

  lemma NoticeRecorded(job: Job, data: nat)
    requires Readable(job)
    ensures Records(job, WithNotice(job, data), data) && Readable(WithNotice(job, data))
    ensures WithNotice(job, data).notifyOutcome.Some? && WithNotice(job, data).id == job.id
  {
    hide IntactExecution;
    var notice := Notice(data, |job.notifyHistory|);
    if |job.notifyHistory| >= 10 {
      assert (job.notifyHistory + [notice])[|job.notifyHistory| - 9..] == job.notifyHistory[|job.notifyHistory| - 9..] + [notice];
    }
  }

  lemma EnterNotify(from: State, s: State, t: TaskId, id: JobId, data: nat) returns (s': State)
    requires Leads(from, s) && s.serving && id !in s.locks.persists && t !in s.tasks
    requires id in s.disk.store && Terminal(s.disk.store[id].status)
    ensures Leads(from, s') && s' == TakePersist(SetTask(s, t, PersistReading(id, data)), t, id)
  {
    hide Leads;
    var s1 := Then(from, s, NotifyStart(t, id));
    s' := ThenPersist(from, s1, t, data);
    assert s1.tasks[t := PersistReading(id, data)] == s.tasks[t := PersistReading(id, data)];
  }

  lemma ThenPersist(from: State, s: State, t: TaskId, data: nat) returns (s': State)
    requires Leads(from, s) && CanPersistEnter(s, t)
    ensures Leads(from, s') && s' == DoPersistEnter(s, t, data)
  {
    hide Leads;
    s' := Then(from, s, PersistEnter(t, data));
  }

  lemma ReadNotified(from: State, s: State, t: TaskId, id: JobId, data: nat) returns (s': State)
    requires Leads(from, s) && t in s.tasks && s.tasks[t] == PersistReading(id, data) && id in s.disk.store
    ensures Leads(from, s')
    ensures s' == SetTask(s, t, Saving(PersistPurpose(s.disk.store[id]), WithNotice(s.disk.store[id], data), false))
  {
    hide Leads, WithNotice;
    s' := Then(from, s, PersistRead(t));
  }

  lemma SaveNotified(from: State, s: State, t: TaskId, latest: Job, job: Job) returns (s': State)
    requires Leads(from, s) && t in s.tasks && s.tasks[t] == Saving(PersistPurpose(latest), job, false)
    requires job.id !in s.locks.jobs && Readable(job) && job.notifyOutcome.Some?
    ensures Leads(from, s') && s'.disk.store == s.disk.store[job.id := job]
  {
    hide Leads, Readable;
    s' := ThenSave(from, s, t);
  }

  lemma NotifyPath(s: State, id: JobId, data: nat) returns (s': State)
    requires Inv(s) && Owned(s) && Idle(s) && id in s.disk.store && Terminal(s.disk.store[id].status)
    ensures Leads(s, s') && id in s'.disk.store && Records(s.disk.store[id], s'.disk.store[id], data)
    ensures s'.disk.store == s.disk.store[id := s'.disk.store[id]]
  {
    var t := Fresh(s.tasks.Keys);
    var job := s.disk.store[id];
    IdleIsFree(s);
    Here(s);
    StoredIsReadable(s, id);
    StoreNamed(s);
    NoticeRecorded(job, data);
    hide Inv, Owned, Leads, WithNotice, Readable, Records;
    var s1 := EnterNotify(s, s, t, id, data);
    var s2 := ReadNotified(s, s1, t, id, data);
    s' := SaveNotified(s, s2, t, job, WithNotice(job, data));
  }

  /** From every reachable state in which nothing is pending, the outcome of a notification for a job that has ended is
      recorded: there are steps after which it is the job's outcome and the last of its history, and nothing else of the
      store has changed. */
  lemma OutcomeIsRecorded(config: Config, run: seq<Event>, id: JobId, data: nat)
    requires Valid(Init(config), run) && Idle(Exec(Init(config), run))
    requires id in Exec(Init(config), run).disk.store
    requires var status := Exec(Init(config), run).disk.store[id].status; status != Queued && status != Running
    ensures var s := Exec(Init(config), run);
            exists s': State ::
              && Leads(s, s') && id in s'.disk.store && Records(s.disk.store[id], s'.disk.store[id], data)
              && s'.disk.store == s.disk.store[id := s'.disk.store[id]]
  {
    ReachedIdle(config, run);
    hide Inv, Owned, Idle, Leads, Exec, Valid, Records;
    var s' := NotifyPath(Exec(Init(config), run), id, data);
  }

  // ----- a restart comes to serve -----

  /** The process does not serve yet, and nothing is pending but clean-ups that have nothing left to do. */
  ghost predicate Waking(s: State) {
    && !s.serving && s.locks == FREE && (forall t :: t in s.tasks ==> s.tasks[t] == Deleting({}))
    && forall id :: id in s.disk.store ==> Readable(s.disk.store[id])
  }

  // The jobs that a restart must end: running, but not in a live session.
  function Interrupted(store: map<JobId, Job>): set<JobId> {
    set id | id in store && store[id].status == Running
             && !(store[id].mode == TmuxMode && store[id].session.Some? && store[id].session.value.status == Live)
  }

  lemma RecoverOne(from: State, s: State, id: JobId) returns (s': State)
    requires Leads(from, s) && Waking(s) && id in Interrupted(s.disk.store)
    ensures Leads(from, s') && Waking(s') && s'.disk.store == s.disk.store[id := Update(Recover(0), s.disk.store[id])]
  {
    var t := Fresh(s.tasks.Keys);
    UpdateShape(Recover(0), s.disk.store[id]);
    var s1 := BeginRecovery(from, s, t, id);
    hide Leads, Update, Readable, Interrupted, Waking;
    s' := RecoverOn(from, s1, t);
    assert s'.tasks == s.tasks;
    StillWaking(s, s', id);
  }

  lemma StillWaking(s: State, s': State, id: JobId)
    requires Waking(s) && s'.tasks == s.tasks && s'.locks == s.locks && s'.serving == s.serving && id in s.disk.store
    requires s'.disk.store == s.disk.store[id := Update(Recover(0), s.disk.store[id])]
    requires Readable(Update(Recover(0), s.disk.store[id]))
    ensures Waking(s')
  {
    hide Update, Readable;
  }

  lemma RecoverOn(from: State, s: State, t: TaskId) returns (s': State)
    requires Leads(from, s) && CanCasLock(s, t) && s.tasks[t].role.Outside? && s.tasks[t].op.Recover?
    requires Applies(s, s.tasks[t].id, s.tasks[t].op)
    ensures Leads(from, s') && s'.tasks == s.tasks - {t} && s'.locks == s.locks && s'.serving == s.serving
    ensures s'.disk.store == s.disk.store[s.tasks[t].id := Update(s.tasks[t].op, s.disk.store[s.tasks[t].id])]
  {
    hide Leads, Update, Readable, Expected;
    var t' := Fresh(s.tasks.Keys);
    var s1 := ThenTransition(from, s, t);
    s' := ThenReturn(from, s1, t, t');
    assert s'.tasks == s.tasks - {t};
  }

  lemma BeginRecovery(from: State, s: State, t: TaskId, id: JobId) returns (s': State)
    requires Leads(from, s) && Waking(s) && id in Interrupted(s.disk.store) && t !in s.tasks
    ensures Leads(from, s') && s' == SetTask(s, t, Cas(id, Recover(0), Outside, Waiting))
  {
    hide Leads, Readable;
    s' := Then(from, s, RecoverJob(t, id, Recover(0)));
  }

  lemma BeginService(from: State, s: State) returns (s': State)
    requires Leads(from, s) && Waking(s) && Interrupted(s.disk.store) == {}
    ensures Leads(from, s') && s'.serving && s'.disk == s.disk
  {
    hide Leads, Readable;
    forall id | id in s.disk.store && s.disk.store[id].status == Running ensures Survives(s.disk.store[id]) {
      assert id !in Interrupted(s.disk.store);
    }
    s' := Then(from, s, ServeStart);
  }

  // What recovery has made of the store.
  ghost predicate Recovered(store: map<JobId, Job>, store': map<JobId, Job>) {
    && store'.Keys == store.Keys
    && forall id :: id in store ==>
         if id in Interrupted(store) then exists now :: DeliversRecovery(now, store[id], store'[id]) else store'[id] == store[id]
  }

  lemma RecoveredStep(store: map<JobId, Job>, id: JobId, store': map<JobId, Job>)
    requires id in Interrupted(store) && Recovered(store[id := Update(Recover(0), store[id])], store')
    ensures Recovered(store, store')
    ensures Interrupted(store[id := Update(Recover(0), store[id])]) == Interrupted(store) - {id}
  {
    var next := Update(Recover(0), store[id]);
    var mid := store[id := next];
    UpdateDelivers(Recover(0), store[id]);
    assert DeliversRecovery(0, store[id], next);
    assert Interrupted(mid) == Interrupted(store) - {id};
    hide Update, DeliversRecovery, Interrupted;
    forall j | j in store && j in Interrupted(store) ensures exists now :: DeliversRecovery(now, store[j], store'[j]) {
      if j == id {
        assert store'[id] == next;
      } else {
        assert mid[j] == store[j];
      }
    }
  }

  lemma {:induction false} RecoverAll(from: State, s: State) returns (s': State)
    requires Leads(from, s) && Waking(s)
    ensures Leads(from, s') && s'.serving && Recovered(s.disk.store, s'.disk.store)
    decreases |Interrupted(s.disk.store)|
  {
    hide Leads, Waking;
    if Interrupted(s.disk.store) == {} {
      s' := BeginService(from, s);
    } else {
      var id :| id in Interrupted(s.disk.store);
      var s1 := RecoverOne(from, s, id);
      FewerInterrupted(s.disk.store, id);
      s' := RecoverAll(from, s1);
      RecoveredStep(s.disk.store, id, s'.disk.store);
    }
  }

  lemma FewerInterrupted(store: map<JobId, Job>, id: JobId)
    requires id in Interrupted(store)
    ensures |Interrupted(store[id := Update(Recover(0), store[id])])| < |Interrupted(store)|
  {
    assert Interrupted(store[id := Update(Recover(0), store[id])]) == Interrupted(store) - {id};
  }

  /** From every reachable state in which the process does not serve yet and nothing is pending, it comes to serve: there are
      steps after which it does, every interrupted job has ended by recovery, and every other job is as it was. */
  lemma RestartComesToServe(config: Config, run: seq<Event>)
    requires Valid(Init(config), run) && !Exec(Init(config), run).serving
    requires forall t :: t in Exec(Init(config), run).tasks ==> Exec(Init(config), run).tasks[t] == Deleting({})
    ensures var s := Exec(Init(config), run);
            exists s': State :: Leads(s, s') && s'.serving && Recovered(s.disk.store, s'.disk.store)
  {
    var s := Exec(Init(config), run);
    ReachedIdle(config, run);
    IdleIsFree(s);
    Here(s);
    forall id | id in s.disk.store ensures Readable(s.disk.store[id]) {
      StoredIsReadable(s, id);
    }
    assert Waking(s);
    hide Inv, Owned, Waking, Leads, Exec, Valid, Recovered;
    var s' := RecoverAll(s, s);
  }

  // ----- clean-up removes what it has chosen -----

  lemma ThenDeleteOne(from: State, s: State, t: TaskId, id: JobId) returns (s': State)
    requires Leads(from, s) && CanDeleteOne(s, t, id)
    ensures Leads(from, s') && s' == DoDeleteOne(s, t, id)
  {
    hide Leads;
    s' := Then(from, s, DeleteOne(t, id));
  }

  lemma {:induction false} ThenDeleteAll(from: State, s: State, t: TaskId) returns (s': State)
    requires Leads(from, s) && t in s.tasks && s.tasks[t].Deleting?
    ensures Leads(from, s') && s'.disk.store == s.disk.store - s.tasks[t].ids
    decreases if t in s.tasks && s.tasks[t].Deleting? then s.tasks[t].ids else {}
  {
    hide Leads;
    var ids := s.tasks[t].ids;
    if ids == {} {
      s' := s;
    } else {
      var id :| id in ids;
      var s1 := ThenDeleteOne(from, s, t, id);
      s' := ThenDeleteAll(from, s1, t);
      assert s.disk.store - {id} - (ids - {id}) == s.disk.store - ids;
    }
  }

  lemma ListForCleanup(s: State, t: TaskId) returns (s': State)
    requires t !in s.tasks
    ensures Leads(s, s') && s'.disk == s.disk && t in s'.tasks && s'.tasks[t] == Listing(CleanupGoal, {}, s.disk.store)
  {
    Here(s);
    hide Leads;
    var s1 := Then(s, s, CleanupStart(t));
    s' := ThenListAll(s, s1, t);
  }

  lemma ThenPickDeletions(from: State, s: State, t: TaskId, ids: set<JobId>) returns (s': State)
    requires Leads(from, s) && CanCleanupPick(s, t, ids)
    ensures Leads(from, s') && s' == SetTask(s, t, Deleting(ids))
  {
    hide Leads;
    s' := Then(from, s, CleanupPick(t, ids));
  }

  /** From every state, a clean-up that has chosen among the jobs that have ended removes exactly these. */
  lemma CleanupRemoves(s: State, ids: set<JobId>) returns (s': State)
    requires forall id :: id in ids ==>
               id in s.disk.store && s.disk.store[id].status != Queued && s.disk.store[id].status != Running
    ensures Leads(s, s') && s'.disk.store == s.disk.store - ids
  {
    var t := Fresh(s.tasks.Keys);
    hide Leads;
    var s1 := ListForCleanup(s, t);
    var s2 := ThenPickDeletions(s, s1, t, ids);
    s' := ThenDeleteAll(s, s2, t);
  }
}

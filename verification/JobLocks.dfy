/** The locks of the protocol are promise locks: where the job locks and the persist locks are handed out in the order of
    `KeyedLock`, the lock maps of the protocol are the running calls of a run of `KeyedLock`, a call that may go ahead
    finds its lock free, and some call always can. */
module JobLocks {
  import KeyedLock
  import opened Wrappers
  import opened JobModel
  import opened JobProtocol
  import opened JobInvariants
  import opened JobStarts
  import opened JobTheorems
  import opened JobProgress

  datatype Kind = JobLock | PersistLock

  /** What a task wants of one kind of lock. */
  datatype Need = Nothing | Wants(id: JobId) | Has(id: JobId)

  function NeedOf(kind: Kind, task: Task): Need {
    match kind
    case JobLock => JobNeed(task)
    case PersistLock => PersistNeed(task)
  }

  function JobNeed(task: Task): Need {
    match task
    case Saving(_, job, held) => if held then Has(job.id) else Wants(job.id)
    case Cas(id, _, _, phase) =>
      if phase.Waiting? then Wants(id) else if phase.Returned? then Nothing else Has(id)
    case _ => Nothing
  }

  function PersistNeed(task: Task): Need {
    match task
    case Notifying(id) => Wants(id)
    case PersistReading(id, _) => Has(id)
    case Saving(purpose, job, _) => if purpose.PersistPurpose? then Has(job.id) else Nothing
    case _ => Nothing
  }

  function NeedAt(kind: Kind, s: State, t: TaskId): Need {
    if t in s.tasks then NeedOf(kind, s.tasks[t]) else Nothing
  }

  function LocksOf(kind: Kind, s: State): map<JobId, TaskId> {
    match kind
    case JobLock => s.locks.jobs
    case PersistLock => s.locks.persists
  }

  predicate Takes(kind: Kind, e: Event) {
    match kind
    case JobLock => e.SaveLock? || e.CasLock?
    case PersistLock => e.PersistEnter?
  }

  // The task whose need an event may change; a return may leave a notification behind.
  function Mover(kind: Kind, e: Event): TaskId
    requires !e.Shutdown? && !e.Crash? && !e.ServeStart?
  {
    if e.CasReturn? && kind.PersistLock? then e.t' else e.t
  }

  // A need goes from nothing over wanting to having and back.
  predicate NeedStep(before: Need, after: Need, takes: bool) {
    if takes then before.Wants? && after == Has(before.id)
    else before == after || (before.Nothing? && after.Wants?) || (before.Has? && after.Nothing?)
  }

  ghost predicate NeedMove(kind: Kind, s: State, e: Event, s': State, t: TaskId) {
    && (forall u :: u != t ==> NeedAt(kind, s', u) == NeedAt(kind, s, u))
    && NeedStep(NeedAt(kind, s, t), NeedAt(kind, s', t), Takes(kind, e))
  }

  lemma CreateNeeds(kind: Kind, s: State, e: Event)
    requires Enabled(s, e) && (e.CreateEnter? || e.FindEnd? || e.CountEnd?)
    ensures NeedMove(kind, s, e, Apply(s, e), e.t)
  {
    hide ActiveIds;
  }

  lemma ListNeeds(kind: Kind, s: State, e: Event)
    requires Enabled(s, e) && (e.ListBegin? || e.ListRead? || e.CleanupPick? || e.DeleteOne?)
    ensures NeedMove(kind, s, e, Apply(s, e), e.t)
  {
  }

  lemma SaveNeeds(kind: Kind, s: State, e: Event)
    requires Enabled(s, e) && (e.SaveLock? || e.SaveWrite?)
    ensures NeedMove(kind, s, e, Apply(s, e), e.t)
  {
    hide Written, Saved;
  }

  lemma CasNeeds(kind: Kind, s: State, e: Event)
    requires Enabled(s, e) && (e.CasLock? || e.CasRead? || e.CasWrite?)
    ensures NeedMove(kind, s, e, Apply(s, e), e.t)
  {
    hide Expected, Update, Replaced;
  }

  lemma ClaimReturnNeeds(kind: Kind, s: State, t: TaskId, t': TaskId)
    requires CanCasReturn(s, t, t') && (s.tasks[t].role.Claiming? || s.tasks[t].role.ClaimRequeue?)
    ensures NeedMove(kind, s, CasReturn(t, t'), DoCasReturn(s, t, t'), Mover(kind, CasReturn(t, t')))
  {
  }

  lemma EndReturnNeeds(kind: Kind, s: State, t: TaskId, t': TaskId)
    requires CanCasReturn(s, t, t') && !s.tasks[t].role.Claiming? && !s.tasks[t].role.ClaimRequeue?
    ensures NeedMove(kind, s, CasReturn(t, t'), DoCasReturn(s, t, t'), Mover(kind, CasReturn(t, t')))
  {
    hide Announced;
  }

  lemma ReturnNeeds(kind: Kind, s: State, t: TaskId, t': TaskId)
    requires CanCasReturn(s, t, t')
    ensures NeedMove(kind, s, CasReturn(t, t'), DoCasReturn(s, t, t'), Mover(kind, CasReturn(t, t')))
  {
    hide NeedMove, DoCasReturn;
    if s.tasks[t].role.Claiming? || s.tasks[t].role.ClaimRequeue? {
      ClaimReturnNeeds(kind, s, t, t');
    } else {
      EndReturnNeeds(kind, s, t, t');
    }
  }

  lemma ClaimNeeds(kind: Kind, s: State, e: Event)
    requires Enabled(s, e) && (e.ClaimEnter? || e.ClaimPick?)
    ensures NeedMove(kind, s, e, Apply(s, e), e.t)
  {
    hide SortedListing, RunningIds, FirstClaimable;
  }

  lemma RunNeeds(kind: Kind, s: State, e: Event)
    requires Enabled(s, e) && (e.RunRead? || e.RunDecide? || e.RunOutcome? || e.RunEnd?)
    ensures NeedMove(kind, s, e, Apply(s, e), e.t)
  {
  }

  // The events with which a task begins.
  predicate Arrives(e: Event) {
    e.CreateArrive? || e.Tick? || e.OutsideOp? || e.NotifyStart? || e.CleanupStart? || e.RecoverJob?
  }

  lemma ArrivalNeeds(kind: Kind, s: State, e: Event)
    requires Arrives(e) && Enabled(s, e)
    ensures NeedMove(kind, s, e, Apply(s, e), e.t)
  {
    hide Survives;
  }

  lemma PersistEnterNeeds(kind: Kind, s: State, t: TaskId, data: nat)
    requires CanPersistEnter(s, t)
    ensures NeedMove(kind, s, PersistEnter(t, data), DoPersistEnter(s, t, data), t)
  {
  }

  lemma PersistReadNeeds(kind: Kind, s: State, t: TaskId)
    requires CanPersistRead(s, t) && NamedById(s.disk.store)
    ensures NeedMove(kind, s, PersistRead(t), DoPersistRead(s, t), t)
  {
    hide LastTen;
  }

  lemma EventNeeds(kind: Kind, s: State, e: Event)
    requires !e.Shutdown? && !e.Crash? && !e.ServeStart? && Core(s) && Enabled(s, e)
    ensures NeedMove(kind, s, e, Apply(s, e), Mover(kind, e))
  {
    StoreNamed(s);
    hide Core, NeedMove;
    if e.CasReturn? {
      ReturnNeeds(kind, s, e.t, e.t');
    } else if e.PersistRead? {
      PersistReadNeeds(kind, s, e.t);
    } else if e.PersistEnter? {
      PersistEnterNeeds(kind, s, e.t, e.data);
    } else {
      hide Enabled, Apply;
      if Arrives(e) {
        ArrivalNeeds(kind, s, e);
      } else if e.CreateEnter? || e.FindEnd? || e.CountEnd? {
        CreateNeeds(kind, s, e);
      } else if e.ListBegin? || e.ListRead? || e.CleanupPick? || e.DeleteOne? {
        ListNeeds(kind, s, e);
      } else if e.SaveLock? || e.SaveWrite? {
        SaveNeeds(kind, s, e);
      } else if e.CasLock? || e.CasRead? || e.CasWrite? {
        CasNeeds(kind, s, e);
      } else if e.ClaimEnter? || e.ClaimPick? {
        ClaimNeeds(kind, s, e);
      } else {
        RunNeeds(kind, s, e);
      }
    }
  }

  // ----- a line for every job -----

  /** A run of the promise lock, the call of each task that waits or holds, and the task that made each call. */
  datatype Line = Line(events: seq<KeyedLock.Event>, tickets: map<TaskId, KeyedLock.Ticket>, who: seq<TaskId>)
  {
    function Calls(): seq<KeyedLock.Call> {
      KeyedLock.Run(events).calls
    }

    predicate MayStart(t: TaskId) {
      t in tickets && KeyedLock.Enabled(KeyedLock.Run(events), KeyedLock.Start(tickets[t]))
    }
  }

  const NOBODY := Line([], map[], [])

  /** A task that begins to want a lock makes a call, one that gets it starts, and one that drops it leaves. */
  function Advanced(line: Line, t: TaskId, before: Need, after: Need): Line {
    if before.Nothing? && after.Wants? then
      Line(line.events + [KeyedLock.Enter(after.id)], line.tickets[t := |line.who|], line.who + [t])
    else if before.Wants? && after.Has? && t in line.tickets then
      line.(events := line.events + [KeyedLock.Start(line.tickets[t])])
    else if before.Has? && after.Nothing? && t in line.tickets then
      Line(line.events + [KeyedLock.Leave(line.tickets[t], false)], line.tickets - {t}, line.who)
    else line
  }

  predicate Fits(call: KeyedLock.Call, need: Need) {
    match need
    case Nothing => false
    case Wants(id) => call.key == id && call.phase.Waiting?
    case Has(id) => call.key == id && call.phase.Running?
  }

  /** The calls that are not done are those of the tasks that want or have a lock, each at its stage. */
  ghost predicate Linked(kind: Kind, s: State, line: Line) {
    && |line.who| == |line.Calls()|
    && (forall t :: NeedAt(kind, s, t) != Nothing ==> t in line.tickets)
    && (forall t :: t in line.tickets ==>
          && line.tickets[t] < |line.who| && line.who[line.tickets[t]] == t
          && Fits(line.Calls()[line.tickets[t]], NeedAt(kind, s, t)))
    && (forall k :: 0 <= k < |line.who| && !line.Calls()[k].phase.Done? ==>
          line.who[k] in line.tickets && line.tickets[line.who[k]] == k)
  }

  lemma RunSnoc(events: seq<KeyedLock.Event>, e: KeyedLock.Event)
    requires KeyedLock.Enabled(KeyedLock.Run(events), e)
    ensures KeyedLock.Run(events + [e]) == KeyedLock.Step(KeyedLock.Run(events), e)
  {
    assert (events + [e])[..|events|] == events;
  }

  lemma EnterLinked(kind: Kind, s: State, s': State, t: TaskId, line: Line)
    requires Linked(kind, s, line) && NeedAt(kind, s, t).Nothing? && NeedAt(kind, s', t).Wants?
    requires forall u :: u != t ==> NeedAt(kind, s', u) == NeedAt(kind, s, u)
    ensures Linked(kind, s', Advanced(line, t, NeedAt(kind, s, t), NeedAt(kind, s', t)))
  {
    RunSnoc(line.events, KeyedLock.Enter(NeedAt(kind, s', t).id));
    hide KeyedLock.Run, NeedAt;
  }

  lemma StartLinked(kind: Kind, s: State, s': State, t: TaskId, line: Line)
    requires Linked(kind, s, line) && line.MayStart(t)
    requires NeedAt(kind, s, t).Wants? && NeedAt(kind, s', t) == Has(NeedAt(kind, s, t).id)
    requires forall u :: u != t ==> NeedAt(kind, s', u) == NeedAt(kind, s, u)
    ensures Linked(kind, s', Advanced(line, t, NeedAt(kind, s, t), NeedAt(kind, s', t)))
  {
    RunSnoc(line.events, KeyedLock.Start(line.tickets[t]));
    hide KeyedLock.Run, NeedAt;
  }

  lemma LeaveLinked(kind: Kind, s: State, s': State, t: TaskId, line: Line)
    requires Linked(kind, s, line) && NeedAt(kind, s, t).Has? && NeedAt(kind, s', t).Nothing?
    requires forall u :: u != t ==> NeedAt(kind, s', u) == NeedAt(kind, s, u)
    ensures Linked(kind, s', Advanced(line, t, NeedAt(kind, s, t), NeedAt(kind, s', t)))
  {
    RunSnoc(line.events, KeyedLock.Leave(line.tickets[t], false));
    var next := Advanced(line, t, NeedAt(kind, s, t), NeedAt(kind, s', t));
    assert next.Calls() == line.Calls()[line.tickets[t] := next.Calls()[line.tickets[t]]];
    assert next.Calls()[line.tickets[t]].phase.Done?;
    hide KeyedLock.Run, NeedAt, Line.Calls;
  }

  // An event takes a lock only when the promise of the call before has been resolved.
  predicate InTurn(kind: Kind, e: Event, line: Line) {
    Takes(kind, e) ==> line.MayStart(Mover(kind, e))
  }

  function NextLine(kind: Kind, s: State, e: Event, line: Line): Line
    requires Enabled(s, e)
  {
    if e.Crash? then NOBODY
    else if e.Shutdown? || e.ServeStart? then line
    else Advanced(line, Mover(kind, e), NeedAt(kind, s, Mover(kind, e)), NeedAt(kind, Apply(s, e), Mover(kind, e)))
  }

  lemma MoveLinked(kind: Kind, s: State, e: Event, s': State, t: TaskId, line: Line)
    requires Linked(kind, s, line) && NeedMove(kind, s, e, s', t) && (Takes(kind, e) ==> line.MayStart(t))
    ensures Linked(kind, s', Advanced(line, t, NeedAt(kind, s, t), NeedAt(kind, s', t)))
  {
    var before, after := NeedAt(kind, s, t), NeedAt(kind, s', t);
    if before == after {
      hide NeedAt, KeyedLock.Run;
    } else {
      hide NeedAt, Linked;
      if before.Nothing? {
        EnterLinked(kind, s, s', t, line);
      } else if before.Wants? {
        StartLinked(kind, s, s', t, line);
      } else {
        LeaveLinked(kind, s, s', t, line);
      }
    }
  }

  lemma LinkedKept(kind: Kind, s: State, e: Event, line: Line)
    requires Core(s) && Linked(kind, s, line) && Enabled(s, e) && InTurn(kind, e, line)
    ensures Linked(kind, Apply(s, e), NextLine(kind, s, e, line))
  {
    if e.Crash? || e.Shutdown? || e.ServeStart? {
      LifecycleLinked(kind, s, e, line);
    } else {
      EventNeeds(kind, s, e);
      hide Core, Linked, NeedMove, NeedAt, Enabled, Apply, Advanced;
      MoveLinked(kind, s, e, Apply(s, e), Mover(kind, e), line);
    }
  }

  lemma LifecycleLinked(kind: Kind, s: State, e: Event, line: Line)
    requires Linked(kind, s, line) && Enabled(s, e) && (e.Crash? || e.Shutdown? || e.ServeStart?)
    ensures Linked(kind, Apply(s, e), NextLine(kind, s, e, line))
  {
    if !e.Crash? {
      assert forall t :: NeedAt(kind, Apply(s, e), t) == NeedAt(kind, s, t);
    }
  }

  // ----- every run with locks in turn -----

  /** Every lock that the run takes is taken in turn. */
  ghost predicate TurnsKept(s: State, run: seq<Event>, jobs: Line, persists: Line)
    requires Valid(s, run)
    decreases |run|
  {
    run == [] ||
    (InTurn(JobLock, run[0], jobs) && InTurn(PersistLock, run[0], persists)
     && TurnsKept(Apply(s, run[0]), run[1..], NextLine(JobLock, s, run[0], jobs), NextLine(PersistLock, s, run[0], persists)))
  }

  function LineAfter(kind: Kind, s: State, run: seq<Event>, line: Line): Line
    requires Valid(s, run)
    decreases |run|
  {
    if run == [] then line else LineAfter(kind, Apply(s, run[0]), run[1..], NextLine(kind, s, run[0], line))
  }

  lemma {:induction false} LinkedRun(s: State, run: seq<Event>, jobs: Line, persists: Line)
    requires Inv(s) && Valid(s, run) && TurnsKept(s, run, jobs, persists)
    requires Linked(JobLock, s, jobs) && Linked(PersistLock, s, persists)
    ensures Linked(JobLock, Exec(s, run), LineAfter(JobLock, s, run, jobs))
    ensures Linked(PersistLock, Exec(s, run), LineAfter(PersistLock, s, run, persists))
    decreases |run|
  {
    hide Core, Linked, InTurn, NextLine, Enabled, Apply;
    if run != [] {
      var s' := Apply(s, run[0]);
      LinkedKept(JobLock, s, run[0], jobs);
      LinkedKept(PersistLock, s, run[0], persists);
      InvKept(s, run[0]);
      LinkedRun(s', run[1..], NextLine(JobLock, s, run[0], jobs), NextLine(PersistLock, s, run[0], persists));
    }
  }

  // What holds in a state that a run with locks in turn has reached.
  ghost predicate InLine(s: State, jobs: Line, persists: Line) {
    Inv(s) && Owned(s) && Linked(JobLock, s, jobs) && Linked(PersistLock, s, persists)
  }

  lemma LinesAtFirst(config: Config)
    ensures InLine(Init(config), NOBODY, NOBODY)
  {
    InvInit(config);
  }

  lemma LinesReached(config: Config, run: seq<Event>)
    requires Valid(Init(config), run) && TurnsKept(Init(config), run, NOBODY, NOBODY)
    ensures InLine(Exec(Init(config), run), LineAfter(JobLock, Init(config), run, NOBODY),
                   LineAfter(PersistLock, Init(config), run, NOBODY))
  {
    LinesAtFirst(config);
    hide Inv, Owned, Linked;
    InvRun(Init(config), run);
    OwnedRun(Init(config), run);
    LinkedRun(Init(config), run, NOBODY, NOBODY);
  }

  // The task that a running call belongs to holds the lock, and the other way round.
  lemma HoldersRun(kind: Kind, s: State, line: Line, t: TaskId, id: JobId)
    requires Core(s) && Owned(s) && Linked(kind, s, line)
    ensures Holds(LocksOf(kind, s), t, id) <==> NeedAt(kind, s, t) == Has(id)
    ensures NeedAt(kind, s, t) == Has(id) <==>
              t in line.tickets && line.tickets[t] < |line.Calls()|
              && line.Calls()[line.tickets[t]].key == id && line.Calls()[line.tickets[t]].phase.Running?
  {
    TaskHolds(s, t);
    hide Core, Owned, KeyedLock.Run;
  }

  /** The lock maps are the running calls: where locks are taken in turn, a task holds a job lock or a persist lock
      exactly when its call is running in the promise lock. */
  lemma LocksAreCalls(config: Config, run: seq<Event>, kind: Kind, t: TaskId, id: JobId)
    requires Valid(Init(config), run) && TurnsKept(Init(config), run, NOBODY, NOBODY)
    ensures var line := LineAfter(kind, Init(config), run, NOBODY);
            Holds(LocksOf(kind, Exec(Init(config), run)), t, id) <==>
              t in line.tickets && line.tickets[t] < |line.Calls()|
              && line.Calls()[line.tickets[t]].key == id && line.Calls()[line.tickets[t]].phase.Running?
  {
    LinesReached(config, run);
    hide Tokens, Linked, Owned;
    HoldersRun(kind, Exec(Init(config), run), LineAfter(kind, Init(config), run, NOBODY), t, id);
  }

  // A call that may start is alone with its key.
  lemma StartIsFree(kind: Kind, s: State, line: Line, t: TaskId)
    requires Core(s) && Owned(s) && Linked(kind, s, line) && line.MayStart(t)
    ensures NeedAt(kind, s, t).Wants? && NeedAt(kind, s, t).id !in LocksOf(kind, s)
  {
    var id := NeedAt(kind, s, t).id;
    if id in LocksOf(kind, s) {
      var u := LocksOf(kind, s)[id];
      HoldersRun(kind, s, line, u, id);
      var k, j := line.tickets[t], line.tickets[u];
      KeyedLock.StartsWhenFirst(line.events, k);
      if k < j {
        KeyedLock.MutualExclusionInOrder(line.events, k, j);
      }
    }
  }

  // The event by which a task takes the lock that it wants.
  function Taking(kind: Kind, s: State, t: TaskId): Event
    requires t in s.tasks
  {
    match kind
    case JobLock => if s.tasks[t].Saving? then SaveLock(t) else CasLock(t)
    case PersistLock => PersistEnter(t, 0)
  }

  lemma FreeIsEnabled(kind: Kind, s: State, t: TaskId)
    requires NeedAt(kind, s, t).Wants? && NeedAt(kind, s, t).id !in LocksOf(kind, s)
    ensures t in s.tasks && Enabled(s, Taking(kind, s, t)) && Continues(Taking(kind, s, t), t)
  {
  }

  /** Whenever the promise lock lets a call go ahead, the protocol lets its task take the lock: the order that the
      promises impose is one of those that the protocol covers. */
  lemma TurnIsFree(config: Config, run: seq<Event>, kind: Kind, t: TaskId)
    requires Valid(Init(config), run) && TurnsKept(Init(config), run, NOBODY, NOBODY)
    requires LineAfter(kind, Init(config), run, NOBODY).MayStart(t)
    ensures var s := Exec(Init(config), run); t in s.tasks && Enabled(s, Taking(kind, s, t))
  {
    LinesReached(config, run);
    hide Tokens, Linked, Owned, Enabled;
    StartIsFree(kind, Exec(Init(config), run), LineAfter(kind, Init(config), run, NOBODY), t);
    FreeIsEnabled(kind, Exec(Init(config), run), t);
  }

  // ----- in turn, too, nobody is stuck -----

  ghost predicate StepsInTurn(s: State, t: TaskId, jobs: Line, persists: Line) {
    t in s.tasks && exists e :: Continues(e, t) && Enabled(s, e) && InTurn(JobLock, e, jobs) && InTurn(PersistLock, e, persists)
  }

  /** Task `t` waits for something that task `u` holds, or for a lock that `u` wants too. */
  predicate Behind(s: State, t: TaskId, u: TaskId) {
    && t in s.tasks && u in s.tasks
    && (WaitsFor(s, t) == Some(u)
        || (JobNeed(s.tasks[t]).Wants? && JobNeed(s.tasks[u]) == JobNeed(s.tasks[t]))
        || (PersistNeed(s.tasks[t]).Wants? && PersistNeed(s.tasks[u]) == PersistNeed(s.tasks[t])))
  }

  // The first of a line may take the lock or has it.
  lemma FrontOfLine(kind: Kind, s: State, line: Line, t: TaskId) returns (u: TaskId)
    requires Core(s) && Owned(s) && Linked(kind, s, line) && NeedAt(kind, s, t).Wants?
    ensures u in s.tasks && Behind(s, t, u)
    ensures (line.MayStart(u) && NeedAt(kind, s, u) == NeedAt(kind, s, t)) || NeedAt(kind, s, u) == Has(NeedAt(kind, s, t).id)
  {
    var id := NeedAt(kind, s, t).id;
    assert line.Calls()[line.tickets[t]].key == id;
    var k := KeyedLock.NeverStuck(line.events, id);
    u := line.who[k];
    HoldersRun(kind, s, line, u, id);
  }

  lemma StepsWith(s: State, t: TaskId, jobs: Line, persists: Line, e: Event)
    requires t in s.tasks && Continues(e, t) && Enabled(s, e) && InTurn(JobLock, e, jobs) && InTurn(PersistLock, e, persists)
    ensures StepsInTurn(s, t, jobs, persists)
  {
  }

  lemma TakerWants(kind: Kind, s: State, e: Event)
    requires Takes(kind, e) && Enabled(s, e)
    ensures NeedAt(kind, s, e.t).Wants? && WaitsFor(s, e.t).None?
  {
  }

  // A task that wants neither kind of lock takes none.
  lemma FreeStep(s: State, t: TaskId, jobs: Line, persists: Line)
    requires Core(s) && t in s.tasks && WaitsFor(s, t).None? && !Finished(s.tasks[t])
    requires !JobNeed(s.tasks[t]).Wants? && !PersistNeed(s.tasks[t]).Wants?
    ensures StepsInTurn(s, t, jobs, persists)
  {
    NextStep(s, t);
    hide Core, WaitsFor, Enabled;
    var e :| Continues(e, t) && Enabled(s, e);
    if Takes(JobLock, e) {
      TakerWants(JobLock, s, e);
    }
    if Takes(PersistLock, e) {
      TakerWants(PersistLock, s, e);
    }
    StepsWith(s, t, jobs, persists, e);
  }

  lemma TakingStep(kind: Kind, s: State, t: TaskId, jobs: Line, persists: Line)
    requires Core(s) && Owned(s)
    requires Linked(kind, s, if kind.JobLock? then jobs else persists)
    requires (if kind.JobLock? then jobs else persists).MayStart(t)
    ensures StepsInTurn(s, t, jobs, persists)
  {
    StartIsFree(kind, s, if kind.JobLock? then jobs else persists, t);
    FreeIsEnabled(kind, s, t);
    hide Core, Owned, Linked, Enabled;
    StepsWith(s, t, jobs, persists, Taking(kind, s, t));
  }

  // The front of the line for a job lock.
  lemma JobFront(s: State, jobs: Line, persists: Line, t: TaskId) returns (u: TaskId)
    requires Core(s) && Owned(s) && Linked(JobLock, s, jobs) && NeedAt(JobLock, s, t).Wants?
    ensures Behind(s, t, u) && StepsInTurn(s, u, jobs, persists)
  {
    u := FrontOfLine(JobLock, s, jobs, t);
    hide Core, Owned, Linked, StepsInTurn;
    if jobs.MayStart(u) && NeedAt(JobLock, s, u).Wants? {
      TakingStep(JobLock, s, u, jobs, persists);
    } else {
      FreeStep(s, u, jobs, persists);
    }
  }

  /** Task `u` is task `t`, or is ahead of it, or is ahead of one that is. */
  ghost predicate AheadOf(s: State, t: TaskId, u: TaskId) {
    t == u || Behind(s, t, u) || exists v :: Behind(s, t, v) && Behind(s, v, u)
  }

  lemma PersistFront(s: State, jobs: Line, persists: Line, t: TaskId) returns (u: TaskId)
    requires InLine(s, jobs, persists) && NeedAt(PersistLock, s, t).Wants?
    ensures AheadOf(s, t, u) && StepsInTurn(s, u, jobs, persists)
  {
    hide Tokens, Linked, Owned, StepsInTurn, Core;
    var v := FrontOfLine(PersistLock, s, persists, t);
    if persists.MayStart(v) && NeedAt(PersistLock, s, v).Wants? {
      TakingStep(PersistLock, s, v, jobs, persists);
      u := v;
    } else if NeedAt(JobLock, s, v).Wants? {
      u := JobFront(s, jobs, persists, v);
    } else {
      FreeStep(s, v, jobs, persists);
      u := v;
    }
  }

  // Whoever holds a mutex waits for a job lock at most.
  lemma MutexHolder(s: State, t: TaskId)
    requires Owned(s) && t in s.tasks && !JobNeed(s.tasks[t]).Wants? && !PersistNeed(s.tasks[t]).Wants? && WaitsFor(s, t).Some?
    ensures var u := WaitsFor(s, t).value;
            && u in s.tasks && !Finished(s.tasks[u]) && !PersistNeed(s.tasks[u]).Wants?
            && (WaitsFor(s, u).Some? ==> JobNeed(s.tasks[u]).Wants?)
  {
    assert Entitled(s.locks, WaitsFor(s, t).value, TaskAt(s, WaitsFor(s, t).value));
  }

  lemma InLineSteps(s: State, jobs: Line, persists: Line, t: TaskId) returns (u: TaskId)
    requires InLine(s, jobs, persists) && t in s.tasks && !Finished(s.tasks[t])
    ensures AheadOf(s, t, u) && StepsInTurn(s, u, jobs, persists)
  {
    hide Tokens, Linked, Owned, StepsInTurn, Core;
    if NeedAt(JobLock, s, t).Wants? {
      u := JobFront(s, jobs, persists, t);
    } else if NeedAt(PersistLock, s, t).Wants? {
      u := PersistFront(s, jobs, persists, t);
    } else if WaitsFor(s, t).None? {
      FreeStep(s, t, jobs, persists);
      u := t;
    } else {
      var v := WaitsFor(s, t).value;
      MutexHolder(s, t);
      if JobNeed(s.tasks[v]).Wants? {
        u := JobFront(s, jobs, persists, v);
      } else {
        FreeStep(s, v, jobs, persists);
        u := v;
      }
    }
  }

  /** Taking turns blocks nobody: in every state that such a run reaches, a pending task can take its next step in turn, or
      one that is ahead of it in at most two lines can. */
  lemma NobodyIsStuckInLine(config: Config, run: seq<Event>, t: TaskId)
    requires Valid(Init(config), run) && TurnsKept(Init(config), run, NOBODY, NOBODY)
    requires t in Exec(Init(config), run).tasks && !Finished(Exec(Init(config), run).tasks[t])
    ensures exists u :: AheadOf(Exec(Init(config), run), t, u)
                        && StepsInTurn(Exec(Init(config), run), u, LineAfter(JobLock, Init(config), run, NOBODY),
                                       LineAfter(PersistLock, Init(config), run, NOBODY))
  {
    LinesReached(config, run);
    hide InLine, AheadOf, StepsInTurn;
    var u := InLineSteps(Exec(Init(config), run), LineAfter(JobLock, Init(config), run, NOBODY),
                         LineAfter(PersistLock, Init(config), run, NOBODY), t);
  }
}

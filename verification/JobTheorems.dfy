/** What holds over every run: any number of requests, callbacks, cancellations, claims, tmux
    collections, notifications, cleanups, shutdowns, crashes and restarts, interleaved in any order. */
module JobTheorems {
  import opened Wrappers
  import opened JobModel
  import opened JobProtocol
  import opened JobInvariants
  import opened JobStarts
  import opened JobLoad
  import opened JobOrder
  import opened JobKeys
  import opened JobRuns
  import opened Sequences

  ghost predicate Inv(s: State) {
    Core(s) && Tokens(s) && LoadOk(s) && ViewsFresh(s)
  }

  lemma InvInit(config: Config)
    ensures Inv(Init(config)) && KeysOk(Init(config)) && CopiesStored(Init(config))
  {
  }

  lemma InvKept(s: State, e: Event)
    requires Inv(s) && Enabled(s, e)
    ensures Inv(Apply(s, e))
  {
    CoreKept(s, e);
    TokensKept(s, e);
    LoadKept(s, e);
    FreshKept(s, e);
  }

  lemma {:induction false} InvRun(s: State, run: seq<Event>)
    requires Inv(s) && Valid(s, run)
    ensures Inv(Exec(s, run))
    decreases |run|
  {
    hide Inv, Enabled, Apply;
    if run != [] {
      InvKept(s, run[0]);
      InvRun(Apply(s, run[0]), run[1..]);
    }
  }

  // ----- execution -----

  /** No job's execution begins twice. */
  lemma AtMostOneStart(config: Config, run: seq<Event>)
    requires Valid(Init(config), run)
    ensures var starts := Exec(Init(config), run).starts;
            forall i, j :: 0 <= i < j < |starts| ==> starts[i] != starts[j]
  {
    InvInit(config);
    InvRun(Init(config), run);
  }

  function StatusOf(s: State, id: JobId): Option<Status> {
    if id in s.disk.store then Some(s.disk.store[id].status) else None
  }

  /** The event writes a callback with an explicit null into the file of job `id`, which no reader then accepts. */
  predicate SpoilsJob(s: State, e: Event, id: JobId) {
    e.CasWrite? && e.t in s.tasks && s.tasks[e.t].Cas? && s.tasks[e.t].id == id && Spoils(s.tasks[e.t].op)
  }

  // The moves that one step may make with the status of job `id`, as readers see it.
  ghost predicate LifeStep(s: State, e: Event, s': State, id: JobId) {
    var before := StatusOf(s, id);
    var after := StatusOf(s', id);
    || before == after
    || (before == None && after == Some(Queued) && id !in s.disk.stored)
    || (before == None && id in s.disk.reports && after == Some(s.disk.reports[id].status))
    || (before == Some(Queued) && after == Some(Running) && ClaimWrites(s, e))
    || (before == Some(Running) && after == Some(Queued) && s.shuttingDown && id !in s'.starts)
    || (before.Some? && Active(before.value) && after.Some? && Terminal(after.value))
    || (before.Some? && Active(before.value) && after == None && SpoilsJob(s, e, id))
    || (before.Some? && Terminal(before.value) && after == None)
  }

  // A move that no transition makes.
  lemma PlainStep(s: State, e: Event, s': State, id: JobId)
    requires DiskOk(s.disk) && Move(s, e, s.disk, s'.disk, id)
    requires !(e.CasWrite? && e.t in s.tasks && s.tasks[e.t].Cas? && s.tasks[e.t].id == id)
    ensures LifeStep(s, e, s', id)
  {
    hide Readable, Spoils, RoleFits, Expected, Update, LastTen, LastNotice, IndexesOk;
    assert id in s.disk.store ==> JobOk(s.disk, id, s.disk.store[id]);
  }

  lemma InvStep(s: State, e: Event, id: JobId)
    requires Inv(s) && Enabled(s, e)
    ensures LifeStep(s, e, Apply(s, e), id)
  {
    if e.CasWrite? && s.tasks[e.t].id == id {
      StepByCas(s, e.t);
    } else {
      hide DiskOk, TasksOk, QuietOk, Tokens, LoadOk, ViewsFresh, Apply, Move, LifeStep;
      MoveLegal(s, e, id);
      PlainStep(s, e, Apply(s, e), id);
    }
  }

  lemma StepByCas(s: State, t: TaskId)
    requires Inv(s) && CanCasWrite(s, t)
    ensures var id := s.tasks[t].id; var s' := DoCasWrite(s, t);
            && id in s.disk.store && Active(s.disk.store[id].status)
            && (id in s'.disk.store <==> !Spoils(s.tasks[t].op))
            && (id in s'.disk.store ==>
                  && (s'.disk.store[id].status == Running ==>
                        s.disk.store[id].status == Running || (s.disk.store[id].status == Queued && s.tasks[t].op.Claim?))
                  && (s'.disk.store[id].status == Queued ==>
                        s.disk.store[id].status == Running && s.shuttingDown && id !in s'.starts))
  {
    hide Update, Spoils, Readable, LastTen, LastNotice, ReportOf, QuietOk, LoadOk, ViewsFresh;
    WriterReads(s, t);
    assert TaskOk(s.disk, s.locks, t, s.tasks[t]) && TokenOk(s, s.tasks[t]);
    UpdateShape(s.tasks[t].op, s.tasks[t].phase.seen);
  }

  /** The life of a job, step by step from every reachable state: it is created queued, becomes running
      only by a claim, goes back to queued only during shutdown and only if it was never started, and is gone
      only once terminal or spoilt by a callback; nothing leads from a terminal status to another one. */
  lemma StepByStep(config: Config, run: seq<Event>, e: Event, id: JobId)
    requires Valid(Init(config), run) && Enabled(Exec(Init(config), run), e)
    ensures var s := Exec(Init(config), run); LifeStep(s, e, Apply(s, e), id)
  {
    InvInit(config);
    InvRun(Init(config), run);
    hide Inv, LifeStep;
    InvStep(Exec(Init(config), run), e, id);
  }

  // ----- the terminal result -----

  ghost predicate ReportsKept(s: State, s': State) {
    forall id :: id in s.disk.reports ==> id in s'.disk.reports && s'.disk.reports[id] == s.disk.reports[id]
  }

  lemma ReportsStep(s: State, e: Event)
    requires Enabled(s, e)
    ensures ReportsKept(s, Apply(s, e))
  {
    if !Writes(e) {
      OnlyWritesTouchFiles(s, e);
    }
  }

  lemma {:induction false} ReportsRun(s: State, run: seq<Event>)
    requires Valid(s, run)
    ensures ReportsKept(s, Exec(s, run))
    decreases |run|
  {
    hide Enabled, Apply;
    if run != [] {
      ReportsStep(s, run[0]);
      ReportsRun(Apply(s, run[0]), run[1..]);
    }
  }

  /** The first terminal write decides: from then on the job is absent or has exactly its status, output, exit code,
      execution record, session and finish time. */
  lemma TerminalResultIsFinal(config: Config, run: seq<Event>, more: seq<Event>, id: JobId)
    requires Valid(Init(config), run) && Valid(Exec(Init(config), run), more)
    requires id in Exec(Init(config), run).disk.store
    requires var status := Exec(Init(config), run).disk.store[id].status; status != Queued && status != Running
    ensures var s := Exec(Init(config), run); var s' := Exec(s, more);
            id in s'.disk.store ==>
              var before := s.disk.store[id]; var after := s'.disk.store[id];
              && after.status == before.status && after.stdout == before.stdout && after.stderr == before.stderr
              && after.exitCode == before.exitCode && after.execution == before.execution
              && after.session == before.session && after.finishedAt == before.finishedAt
  {
    var s := Exec(Init(config), run);
    InvInit(config);
    InvRun(Init(config), run);
    InvRun(s, more);
    ReportsRun(s, more);
    hide Inv, Valid, Exec;
    EndedIsReported(s, id);
    StoredReport(Exec(s, more), id);
  }

  lemma EndedIsReported(s: State, id: JobId)
    requires Inv(s) && id in s.disk.store && s.disk.store[id].status != Queued && s.disk.store[id].status != Running
    ensures id in s.disk.reports && s.disk.reports[id] == ReportOf(s.disk.store[id])
  {
    assert JobOk(s.disk, id, s.disk.store[id]);
  }

  ghost predicate LostKept(s: State, s': State) {
    s.disk.lost <= s'.disk.lost
  }

  lemma LostStep(s: State, e: Event)
    requires Enabled(s, e)
    ensures LostKept(s, Apply(s, e))
  {
    if !Writes(e) {
      OnlyWritesTouchFiles(s, e);
    }
  }

  lemma {:induction false} LostRun(s: State, run: seq<Event>)
    requires Valid(s, run)
    ensures LostKept(s, Exec(s, run))
    decreases |run|
  {
    hide Enabled, Apply;
    if run != [] {
      LostStep(s, run[0]);
      LostRun(Apply(s, run[0]), run[1..]);
    }
  }

  /** A job that was written unreadable, by its creation or by a callback, is never written again: what moves
      such a file away, at whatever time, does not take a readable one. */
  lemma LostForGood(config: Config, run: seq<Event>, more: seq<Event>, id: JobId)
    requires Valid(Init(config), run) && Valid(Exec(Init(config), run), more)
    requires id in Exec(Init(config), run).disk.lost
    ensures id !in Exec(Exec(Init(config), run), more).disk.store
  {
    InvInit(config);
    InvRun(Init(config), run);
    InvRun(Exec(Init(config), run), more);
    LostRun(Exec(Init(config), run), more);
    hide Enabled, Apply;
    assert DiskOk(Exec(Exec(Init(config), run), more).disk);
  }

  /** A job whose request holds an explicit null is out of sight from the moment it is stored. */
  lemma NullRequestIsLost(config: Config, run: seq<Event>, t: TaskId, more: seq<Event>)
    requires Valid(Init(config), run) && CreatesUnreadable(Exec(Init(config), run), t)
    requires Valid(DoSaveWrite(Exec(Init(config), run), t), more)
    ensures var s := Exec(Init(config), run); s.tasks[t].job.id !in Exec(DoSaveWrite(s, t), more).disk.store
  {
    var s := Exec(Init(config), run);
    hide Inv, LostKept, Enabled, Apply, DoSaveWrite, Exec, Valid;
    InvInit(config);
    InvRun(Init(config), run);
    SaveLoses(s, t);
    InvRun(DoSaveWrite(s, t), more);
    LostRun(DoSaveWrite(s, t), more);
    LostIsGone(DoSaveWrite(s, t), Exec(DoSaveWrite(s, t), more), s.tasks[t].job.id);
  }

  predicate CreatesUnreadable(s: State, t: TaskId) {
    CanSaveWrite(s, t) && s.tasks[t].purpose.CreatePurpose? && !Readable(s.tasks[t].job)
  }

  lemma SaveLoses(s: State, t: TaskId)
    requires Inv(s) && CreatesUnreadable(s, t)
    ensures Inv(DoSaveWrite(s, t)) && s.tasks[t].job.id in DoSaveWrite(s, t).disk.lost
  {
    hide Inv, Readable;
    InvKept(s, SaveWrite(t));
  }

  lemma LostIsGone(s: State, s': State, id: JobId)
    requires LostKept(s, s') && Inv(s') && id in s.disk.lost
    ensures id !in s'.disk.store
  {
    hide Tokens, LoadOk, ViewsFresh, TasksOk, QuietOk, JobOk;
  }

  function FileOf(s: State, id: JobId): Option<Job> {
    if id in s.disk.store then Some(s.disk.store[id]) else None
  }

  /** A callback that was stored is recognised as a replay in a later state exactly when the job is still there
      and the body is replayable; right after the first delivery only the body matters. With an explicit null in
      its execution part the job is never there again. */
  lemma AcceptedCallbackIsIdempotent(config: Config, run: seq<Event>, t: TaskId, more: seq<Event>)
    requires Valid(Init(config), run)
    requires var s := Exec(Init(config), run);
             CanCasWrite(s, t) && s.tasks[t].op.Callback? && Valid(DoCasWrite(s, t), more)
    ensures var s := Exec(Init(config), run); var s' := Exec(DoCasWrite(s, t), more);
            var id := s.tasks[t].id; var seen := s.tasks[t].phase.seen; var input := s.tasks[t].op.input;
            && (Recognised(FileOf(s', id), input) <==> id in s'.disk.store && Replayable(seen, input))
            && (!NullFree(input) ==> id !in s'.disk.store)
            && (more == [] ==> (Recognised(FileOf(s', id), input) <==> Replayable(seen, input)))
  {
    InvInit(config);
    InvRun(Init(config), run);
    hide Inv, Valid, Exec, CanCasWrite, Recognised, Replayable, NullFree, DoCasWrite, FileOf;
    InvCallback(Exec(Init(config), run), t, more);
  }

  lemma InvCallback(s: State, t: TaskId, more: seq<Event>)
    requires Inv(s) && CanCasWrite(s, t) && s.tasks[t].op.Callback? && Valid(DoCasWrite(s, t), more)
    ensures var s' := Exec(DoCasWrite(s, t), more);
            var id := s.tasks[t].id; var seen := s.tasks[t].phase.seen; var input := s.tasks[t].op.input;
            && (Recognised(FileOf(s', id), input) <==> id in s'.disk.store && Replayable(seen, input))
            && (!NullFree(input) ==> id !in s'.disk.store)
            && (more == [] ==> (Recognised(FileOf(s', id), input) <==> Replayable(seen, input)))
  {
    CallbackWritten(s, t);
    hide EquivalentReplay, Replayable, NullFree, Recognised, DoCasWrite, ReportOf, Inv, FileOf, Exec, Valid;
    InvWrite(s, t);
    RecognisedLater(DoCasWrite(s, t), more, s.tasks[t].id, s.tasks[t].op.input);
  }

  lemma InvWrite(s: State, t: TaskId)
    requires Inv(s) && CanCasWrite(s, t)
    ensures Inv(DoCasWrite(s, t))
  {
    hide Inv, DoCasWrite;
    InvKept(s, CasWrite(t));
  }

  // What the first terminal write and the readers' view say now, they say later.
  lemma RecognisedLater(s: State, more: seq<Event>, id: JobId, input: CallbackInput)
    requires Inv(s) && Valid(s, more) && id in s.disk.reports
    ensures var s' := Exec(s, more);
            && (Recognised(FileOf(s', id), input) <==> id in s'.disk.store && EquivalentReplay(s.disk.reports[id], input))
            && (id in s.disk.lost ==> id !in s'.disk.store) && (more == [] ==> s' == s)
  {
    hide EquivalentReplay, ReportOf, Inv, Enabled, Apply;
    InvRun(s, more);
    ReportsRun(s, more);
    LostRun(s, more);
    StoredReport(Exec(s, more), id);
  }

  lemma StoredReport(s: State, id: JobId)
    requires Inv(s)
    ensures id in s.disk.store && id in s.disk.reports ==>
              ReportOf(s.disk.store[id]) == s.disk.reports[id] && Terminal(s.disk.store[id].status)
    ensures id in s.disk.lost ==> id !in s.disk.store
  {
    assert id in s.disk.store ==> JobOk(s.disk, id, s.disk.store[id]);
  }

  lemma CallbackWritten(s: State, t: TaskId)
    requires Inv(s) && CanCasWrite(s, t) && s.tasks[t].op.Callback?
    ensures var task := s.tasks[t]; var d := DoCasWrite(s, t).disk;
            && task.id in d.reports
            && (if NullFree(task.op.input)
                then task.id in d.store && (EquivalentReplay(d.reports[task.id], task.op.input)
                                            <==> Replayable(task.phase.seen, task.op.input))
                else task.id in d.lost && !Replayable(task.phase.seen, task.op.input))
  {
    hide Tokens, LoadOk, ViewsFresh, DiskOk, QuietOk, Update, EquivalentReplay, Replayable, NullFree, ReportOf;
    var task := s.tasks[t];
    WriterReads(s, t);
    CallbackReplaces(s.disk, task.id, task.phase.seen, task.op);
  }

  lemma CallbackReplaces(d: Disk, id: JobId, seen: Job, op: Op)
    requires JobOk(d, id, seen) && op.Callback? && seen.status in Expected(op)
    ensures var d' := Replaced(d, id, Update(op, seen));
            && id in d'.reports
            && (if NullFree(op.input)
                then id in d'.store && (EquivalentReplay(d'.reports[id], op.input) <==> Replayable(seen, op.input))
                else id in d'.lost && !Replayable(seen, op.input))
  {
    hide EquivalentReplay, Replayable, NullFree, LastTen, LastNotice;
    AcceptedCallbackReplays(seen, op.input, op.now);
    UpdateShape(op, seen);
  }

  // ----- the two limits -----

  /** Beyond the load found when the process began to serve, running or in-flight jobs never exceed
      `maxConcurrency`, active jobs never exceed `maxActiveJobs`, and the runs in progress are of
      distinct jobs in flight. */
  lemma LimitsHold(config: Config, run: seq<Event>)
    requires Valid(Init(config), run)
    ensures var s := Exec(Init(config), run);
            && WithinLimits(s)
            && (forall t :: t in s.tasks && RunOf(s.tasks[t]).Some? ==> RunOf(s.tasks[t]).value in s.inFlight)
            && (forall t, u :: t in s.tasks && u in s.tasks && t != u && RunOf(s.tasks[t]).Some? ==>
                  RunOf(s.tasks[u]) != RunOf(s.tasks[t]))
  {
    InvInit(config);
    InvRun(Init(config), run);
    var s := Exec(Init(config), run);
    forall t | t in s.tasks && RunOf(s.tasks[t]).Some? ensures RunOf(s.tasks[t]).value in s.inFlight {
      assert TokenOk(s, s.tasks[t]);
    }
    forall t, u | t in s.tasks && u in s.tasks && t != u && RunOf(s.tasks[t]).Some?
      ensures RunOf(s.tasks[u]) != RunOf(s.tasks[t])
    {
      assert Apart(s.tasks[t], s.tasks[u]);
    }
  }

  predicate KeepsConfig(config: Config, run: seq<Event>) {
    forall i :: 0 <= i < |run| && run[i].Crash? ==> run[i].config == config
  }

  ghost predicate FixedLimits(config: Config, s: State) {
    && s.config == config
    && s.baseRunning <= config.maxConcurrency && s.baseActive <= config.maxActiveJobs
    && |Occupied(s)| <= config.maxConcurrency && |ActiveIds(s.disk.store)| <= config.maxActiveJobs
  }

  lemma QuietOccupied(s: State)
    requires Core(s) && !s.serving
    ensures Occupied(s) == RunningIds(s.disk.store)
  {
    assert ClaimedIds(s.tasks) == {} by {
      forall t | t in s.tasks ensures !Claimed(s.tasks[t]) {
        assert Background(s.tasks[t]);
      }
    }
  }

  ghost predicate SameService(s: State, s': State) {
    && s'.config == s.config && s'.serving == s.serving && s'.baseRunning == s.baseRunning && s'.baseActive == s.baseActive
    && s.starts <= s'.starts
  }

  lemma ReturnConfig(s: State, t: TaskId, t': TaskId)
    requires CanCasReturn(s, t, t')
    ensures SameService(s, DoCasReturn(s, t, t'))
  {
    hide Announced;
  }

  lemma ClaimConfig(s: State, t: TaskId, listing: seq<Job>, now: nat)
    requires CanClaimPick(s, t, listing)
    ensures SameService(s, DoClaimPick(s, t, listing, now))
  {
    hide FirstClaimable, RunningIds, SortedListing;
  }

  lemma CreateConfig(s: State, e: Event)
    requires Enabled(s, e)
    requires e.CreateArrive? || e.CreateEnter? || e.FindEnd? || e.CountEnd? || e.ListBegin? || e.ListRead? || e.SaveLock?
    ensures SameService(s, Apply(s, e))
  {
    hide ActiveIds;
  }

  lemma CasConfig(s: State, e: Event)
    requires Enabled(s, e)
    requires e.Tick? || e.ClaimEnter? || e.CasLock? || e.CasRead? || e.CasWrite? || e.RunRead? || e.RunDecide?
             || e.RunOutcome? || e.RunEnd?
    ensures SameService(s, Apply(s, e))
  {
    hide RunNext, Expected, Update, Replaced;
  }

  lemma ConfigStep(s: State, e: Event)
    requires Enabled(s, e) && !e.Crash? && !e.ServeStart?
    ensures SameService(s, Apply(s, e))
  {
    hide RunNext, ActiveIds, WithNotice, Survives, CanClaimPick, DoClaimPick, DoCasReturn, DoCasWrite, Update;
    if e.CasReturn? {
      ReturnConfig(s, e.t, e.t');
    } else if e.ClaimPick? {
      ClaimConfig(s, e.t, e.listing, e.now);
    } else if e.CreateArrive? || e.CreateEnter? || e.FindEnd? || e.CountEnd? || e.ListBegin? || e.ListRead? || e.SaveLock? {
      hide *;
      CreateConfig(s, e);
    } else if e.Tick? || e.ClaimEnter? || e.CasLock? || e.CasRead? || e.CasWrite? || e.RunRead? || e.RunDecide?
              || e.RunOutcome? || e.RunEnd? {
      hide *;
      CasConfig(s, e);
    }
  }

  lemma LifecycleLimits(config: Config, s: State, e: Event)
    requires Inv(s) && FixedLimits(config, s) && Enabled(s, e)
    requires e.ServeStart? || (e.Crash? && e.config == config)
    ensures FixedLimits(config, Apply(s, e))
  {
    var s' := Apply(s, e);
    if e.Crash? {
      assert Occupied(s') <= Occupied(s);
      SubsetSize(Occupied(s'), Occupied(s));
    } else {
      QuietOccupied(s);
      assert Occupied(s') == Occupied(s);
    }
  }

  // Between a restart and the service nothing is claimed or created.
  lemma QuietLimits(s: State, s': State)
    requires Core(s) && Core(s') && !s.serving && !s'.serving
    requires RunningIds(s'.disk.store) <= RunningIds(s.disk.store) && ActiveIds(s'.disk.store) <= ActiveIds(s.disk.store)
    ensures |Occupied(s')| <= |Occupied(s)| && |ActiveIds(s'.disk.store)| <= |ActiveIds(s.disk.store)|
  {
    QuietOccupied(s);
    QuietOccupied(s');
    hide Core, Occupied;
    SubsetSize(RunningIds(s'.disk.store), RunningIds(s.disk.store));
    SubsetSize(ActiveIds(s'.disk.store), ActiveIds(s.disk.store));
  }

  lemma FixedLimitsKept(config: Config, s: State, e: Event)
    requires Inv(s) && FixedLimits(config, s) && Enabled(s, e) && (e.Crash? ==> e.config == config)
    ensures FixedLimits(config, Apply(s, e))
  {
    if e.Crash? || e.ServeStart? {
      LifecycleLimits(config, s, e);
    } else {
      hide Core, Tokens, ViewsFresh, Occupied, RunningIds, ActiveIds, Enabled, Apply;
      InvKept(s, e);
      ConfigStep(s, e);
      if !s.serving {
        QuietStep(s, e);
        QuietLimits(s, Apply(s, e));
      }
    }
  }

  lemma QuietStep(s: State, e: Event)
    requires Core(s) && !s.serving && Enabled(s, e)
    ensures RunningIds(Apply(s, e).disk.store) <= RunningIds(s.disk.store)
    ensures ActiveIds(Apply(s, e).disk.store) <= ActiveIds(s.disk.store)
  {
    if e.CasWrite? || e.SaveWrite? {
      assert TaskOk(s.disk, s.locks, e.t, s.tasks[e.t]) && Background(s.tasks[e.t]);
    }
    NoNewRunning(s, e);
    NoNewActive(s, e);
  }

  lemma {:induction false} FixedLimitsRun(config: Config, s: State, run: seq<Event>)
    requires Inv(s) && FixedLimits(config, s) && Valid(s, run) && KeepsConfig(config, run)
    ensures FixedLimits(config, Exec(s, run))
    decreases |run|
  {
    hide Inv, FixedLimits, Enabled, Apply;
    if run != [] {
      assert run[0].Crash? ==> run[0].config == config;
      FixedLimitsKept(config, s, run[0]);
      InvKept(s, run[0]);
      assert forall i :: 0 <= i < |run[1..]| ==> run[1..][i] == run[i + 1];
      FixedLimitsRun(config, Apply(s, run[0]), run[1..]);
    }
  }

  /** With an unchanged configuration both limits hold in every state of every run, restarts included. */
  lemma LimitsHoldAcrossRestarts(config: Config, run: seq<Event>)
    requires Valid(Init(config), run) && KeepsConfig(config, run)
    ensures var s := Exec(Init(config), run);
            && |s.inFlight + set id | id in s.disk.store && s.disk.store[id].status == Running| <= config.maxConcurrency
            && |set id | id in s.disk.store && (s.disk.store[id].status == Queued || s.disk.store[id].status == Running)|
               <= config.maxActiveJobs
  {
    InvInit(config);
    FixedLimitsRun(config, Init(config), run);
    SetsCounted(Exec(Init(config), run));
  }

  // The slots and the active jobs, spelled out.
  lemma SetsCounted(s: State)
    ensures |s.inFlight + set id | id in s.disk.store && s.disk.store[id].status == Running| <= |Occupied(s)|
    ensures ActiveIds(s.disk.store)
         == set id | id in s.disk.store && (s.disk.store[id].status == Queued || s.disk.store[id].status == Running)
  {
    SubsetSize(s.inFlight + (set id | id in s.disk.store && s.disk.store[id].status == Running), Occupied(s));
  }

  /** Whatever the configurations were: a serving process began to serve with some step, and beyond the load which that step
      found, running or in-flight jobs never exceed `maxConcurrency` and active jobs never exceed `maxActiveJobs`. */
  lemma LimitsHoldSinceStart(config: Config, run: seq<Event>) returns (k: nat)
    requires Valid(Init(config), run) && Exec(Init(config), run).serving
    ensures k < |run| && run[k].ServeStart? && Valid(Init(config), run[..k])
    ensures var s := Exec(Init(config), run); var found := Exec(Init(config), run[..k]).disk.store;
            && |s.inFlight + set id | id in s.disk.store && s.disk.store[id].status == Running|
               <= Max(s.config.maxConcurrency, |set id | id in found && found[id].status == Running|)
            && |set id | id in s.disk.store && (s.disk.store[id].status == Queued || s.disk.store[id].status == Running)|
               <= Max(s.config.maxActiveJobs,
                      |set id | id in found && (found[id].status == Queued || found[id].status == Running)|)
  {
    LimitsHold(config, run);
    SetsCounted(Exec(Init(config), run));
    k := ServedSince(config, run);
    hide Exec, Valid, Inv, Occupied;
  }

  lemma {:induction false} ServedSince(config: Config, run: seq<Event>) returns (k: nat)
    requires Valid(Init(config), run) && Exec(Init(config), run).serving
    ensures k < |run| && run[k].ServeStart? && Valid(Init(config), run[..k])
    ensures var s := Exec(Init(config), run); var found := Exec(Init(config), run[..k]).disk.store;
            && s.baseRunning == |set id | id in found && found[id].status == Running|
            && s.baseActive == |set id | id in found && (found[id].status == Queued || found[id].status == Running)|
    decreases |run|
  {
    var last := |run| - 1;
    Prefix(Init(config), run, last);
    assert run[..last + 1] == run;
    var s := Exec(Init(config), run[..last]);
    if run[last].ServeStart? {
      k := last;
      StartFinds(s);
    } else {
      ServiceStep(s, run[last]);
      hide Enabled, Apply;
      k := ServedSince(config, run[..last]);
      assert run[..last][..k] == run[..k];
    }
  }

  lemma StartFinds(s: State)
    requires CanServeStart(s)
    ensures DoServeStart(s).baseRunning == |set id | id in s.disk.store && s.disk.store[id].status == Running|
    ensures DoServeStart(s).baseActive
         == |set id | id in s.disk.store && (s.disk.store[id].status == Queued || s.disk.store[id].status == Running)|
  {
    assert RunningIds(s.disk.store) == set id | id in s.disk.store && s.disk.store[id].status == Running;
    SetsCounted(s);
  }

  lemma ServiceStep(s: State, e: Event)
    requires Enabled(s, e) && !e.ServeStart? && Apply(s, e).serving
    ensures s.serving && Apply(s, e).baseRunning == s.baseRunning && Apply(s, e).baseActive == s.baseActive
  {
    if !e.Crash? {
      ConfigStep(s, e);
    }
  }

  /** In every reachable state outside shutdown a claimer goes for the queued job that precedes every
      other queued job it has listed. */
  lemma ClaimsGoInOrder(config: Config, run: seq<Event>, t: TaskId, listing: seq<Job>, now: nat, id: JobId)
    requires Valid(Init(config), run)
    requires var s := Exec(Init(config), run);
             && !s.shuttingDown && CanClaimPick(s, t, listing)
             && TaskAt(DoClaimPick(s, t, listing, now), t) == Some(Cas(id, Claim(now), Claiming, Waiting))
    ensures var seen := Exec(Init(config), run).tasks[t].seen;
            && id in seen && seen[id].status == Queued
            && forall q :: q in seen && seen[q].status == Queued && q != id ==>
                 && seen[id].queueOrder <= seen[q].queueOrder
                 && (seen[id].queueOrder == seen[q].queueOrder ==> seen[id].createdAt <= seen[q].createdAt)
                 && (seen[id].queueOrder == seen[q].queueOrder && seen[id].createdAt == seen[q].createdAt ==> id < q)
  {
    InvInit(config);
    InvRun(Init(config), run);
    SeenById(Exec(Init(config), run), t);
    hide Core, Tokens, LoadOk, ViewsFresh, DoClaimPick, CanClaimPick;
    ClaimsInOrder(Exec(Init(config), run), t, listing, now, id);
  }

  lemma SeenById(s: State, t: TaskId)
    requires Core(s)
    ensures t in s.tasks && s.tasks[t].Listing? ==> forall id :: id in s.tasks[t].seen ==> s.tasks[t].seen[id].id == id
  {
    hide DiskOk, QuietOk;
    if t in s.tasks {
      assert TaskOk(s.disk, s.locks, t, s.tasks[t]);
    }
  }

  // ----- what a stored job holds -----

  /** In every reachable state a queued or running job holds no output, exit code or finish time yet, a start time exactly when
      it runs, and a job that has ended has a finish time. */
  lemma FieldsFollowStatus(config: Config, run: seq<Event>, id: JobId)
    requires Valid(Init(config), run) && id in Exec(Init(config), run).disk.store
    ensures var job := Exec(Init(config), run).disk.store[id];
            if job.status == Queued || job.status == Running
            then job.finishedAt == None && job.exitCode == None && job.stdout == "" && job.stderr == ""
                 && (job.startedAt.Some? <==> job.status == Running)
            else job.finishedAt.Some?
  {
    InvInit(config);
    InvRun(Init(config), run);
    assert JobOk(Exec(Init(config), run).disk, id, Exec(Init(config), run).disk.store[id]);
  }

  // ----- notifications and retention -----

  /** No notification outcome is lost: the stored history is the last ten persisted, the stored
      outcome the last one, and each carries its index, capped at ten. */
  lemma HistoryIsComplete(config: Config, run: seq<Event>, id: JobId)
    requires Valid(Init(config), run) && id in Exec(Init(config), run).disk.store
    ensures var d := Exec(Init(config), run).disk; var log := if id in d.notices then d.notices[id] else [];
            && d.store[id].notifyHistory == (if |log| <= 10 then log else log[|log| - 10..])
            && d.store[id].notifyOutcome == (if log == [] then None else Some(log[|log| - 1]))
            && forall k :: 0 <= k < |log| ==> log[k].attemptIndex == if k <= 10 then k else 10
  {
    InvInit(config);
    InvRun(Init(config), run);
    var d := Exec(Init(config), run).disk;
    assert JobOk(d, id, d.store[id]);
    assert id in d.notices ==> IndexesOk(d.notices[id]);
  }

  /** Cleanup works on a stale listing and takes no lock, yet it never unlinks an active job: one step makes an
      active job disappear exactly when it writes a callback that spoils its file. */
  lemma ActiveJobsAreKept(config: Config, run: seq<Event>, e: Event, id: JobId)
    requires Valid(Init(config), run) && Enabled(Exec(Init(config), run), e)
    requires StatusOf(Exec(Init(config), run), id).Some? && Active(StatusOf(Exec(Init(config), run), id).value)
    ensures var s := Exec(Init(config), run); id in Apply(s, e).disk.store <==> !SpoilsJob(s, e, id)
  {
    InvInit(config);
    InvRun(Init(config), run);
    hide Inv, Valid, Exec;
    ActiveStep(Exec(Init(config), run), e, id);
  }

  lemma ActiveStep(s: State, e: Event, id: JobId)
    requires Inv(s) && Enabled(s, e) && StatusOf(s, id).Some? && Active(StatusOf(s, id).value)
    ensures id in Apply(s, e).disk.store <==> !SpoilsJob(s, e, id)
  {
    if SpoilsJob(s, e, id) {
      StepByCas(s, e.t);
    } else {
      hide Inv, Enabled, Apply, SpoilsJob;
      InvStep(s, e, id);
    }
  }

  // ----- one job per request -----

  /** No step of the run writes back a job whose key is taken. */
  ghost predicate NoClash(s: State, run: seq<Event>)
    requires Valid(s, run)
    decreases |run|
  {
    run == [] || (!Clashes(s, run[0]) && NoClash(Apply(s, run[0]), run[1..]))
  }

  /** The keys of stored jobs and pending creations are in order in every state of the run. */
  ghost predicate KeysAlong(s: State, run: seq<Event>)
    requires Valid(s, run)
    decreases |run|
  {
    KeysOk(s) && (run == [] || KeysAlong(Apply(s, run[0]), run[1..]))
  }

  lemma {:induction false} KeysRun(s: State, run: seq<Event>)
    requires Inv(s) && KeysOk(s) && Valid(s, run)
    ensures KeysAlong(s, run) <==> NoClash(s, run)
    decreases |run|
  {
    hide Core, Tokens, LoadOk, ViewsFresh, KeysOk, Clashes, Enabled, Apply;
    if run != [] {
      KeysExact(s, run[0]);
      if KeysOk(Apply(s, run[0])) {
        InvKept(s, run[0]);
        KeysRun(Apply(s, run[0]), run[1..]);
      }
    }
  }

  // The creating tasks behind whose back a job was written back, each with that job.
  type Missed = set<(TaskId, JobId)>

  function Missing(s: State, e: Event, missed: Missed): Missed {
    missed + set t | t in s.tasks && e.SaveWrite? && e.t in s.tasks && s.tasks[e.t].Saving?
                     && WritesPast(s, e, t, s.tasks[e.t].job.id) :: (t, s.tasks[e.t].job.id)
  }

  /** A save makes two jobs of one key: it writes a deleted job back beside a stored one, or it creates a job beside
      one that was written back after its creator had searched. */
  ghost predicate Collides(s: State, e: Event, missed: Missed) {
    && e.SaveWrite? && e.t in s.tasks && s.tasks[e.t].Saving? && Readable(s.tasks[e.t].job)
    && exists other: JobId :: Rivals(s, s.tasks[e.t].job, other) && (WritesBack(s, e) || (e.t, other) in missed)
  }

  /** No step of the run collides. */
  ghost predicate NoCollision(s: State, run: seq<Event>, missed: Missed)
    requires Valid(s, run)
    decreases |run|
  {
    run == [] || (!Collides(s, run[0], missed)
                  && NoCollision(Apply(s, run[0]), run[1..], Missing(s, run[0], missed)))
  }

  // Only what is in `missed` escapes a search.
  ghost predicate Covered(s: State, missed: Missed) {
    forall t: TaskId, id: JobId :: Escapes(s, t, id) ==> (t, id) in missed
  }

  lemma CoveredKept(s: State, e: Event, missed: Missed)
    requires Core(s) && Covered(s, missed) && Enabled(s, e)
    ensures Covered(Apply(s, e), Missing(s, e, missed))
  {
    hide Core, Enabled, Apply, Escapes, WritesBack, PastSearch;
    forall t: TaskId, id: JobId | Escapes(Apply(s, e), t, id) ensures (t, id) in Missing(s, e, missed) {
      EscapeStep(s, e, t, id);
      if WritesPast(s, e, t, id) {
        PastIsBack(s, e, t, id);
      }
    }
  }

  lemma PastIsBack(s: State, e: Event, t: TaskId, id: JobId)
    requires WritesPast(s, e, t, id)
    ensures t in s.tasks && e.SaveWrite? && e.t in s.tasks && s.tasks[e.t].Saving? && s.tasks[e.t].job.id == id
  {
  }

  lemma CollisionDoubles(s: State, e: Event, missed: Missed)
    requires Core(s) && UniqueKeys(s.disk.store) && Covered(s, missed) && Enabled(s, e)
    ensures Doubles(s, e) <==> Collides(s, e, missed)
  {
    if e.SaveWrite? && s.tasks[e.t].job.id in s.disk.store {
      hide Covered, Readable, Apply;
      StoredAlone(s, e.t);
    } else if e.SaveWrite? {
      hide Core, UniqueKeys, Readable, Apply;
      forall other: JobId | Rivals(s, s.tasks[e.t].job, other) ensures WritesBack(s, e) || (e.t, other) in missed {
        if !WritesBack(s, e) {
          assert Escapes(s, e.t, other);
        }
      }
    }
  }

  // A notification saved into a stored job leaves its key alone.
  lemma StoredAlone(s: State, t: TaskId)
    requires Core(s) && UniqueKeys(s.disk.store) && CanSaveWrite(s, t) && s.tasks[t].job.id in s.disk.store
    ensures forall other: JobId :: !Rivals(s, s.tasks[t].job, other)
  {
    hide LastTen, QuietOk;
    assert TaskOk(s.disk, s.locks, t, s.tasks[t]);
    assert s.disk.store[s.tasks[t].job.id].key == s.tasks[t].job.key;
  }

  /** In every state of the run no two stored jobs have the same request key. */
  ghost predicate UniqueAlong(s: State, run: seq<Event>)
    requires Valid(s, run)
    decreases |run|
  {
    UniqueKeys(s.disk.store) && (run == [] || UniqueAlong(Apply(s, run[0]), run[1..]))
  }

  lemma {:induction false} UniqueRun(s: State, run: seq<Event>, missed: Missed)
    requires Inv(s) && UniqueKeys(s.disk.store) && Covered(s, missed) && Valid(s, run)
    ensures UniqueAlong(s, run) <==> NoCollision(s, run, missed)
    decreases |run|
  {
    hide Core, Tokens, LoadOk, ViewsFresh, UniqueKeys, Doubles, Collides, Covered, Missing, Enabled, Apply;
    if run != [] {
      UniqueExact(s, run[0]);
      CollisionDoubles(s, run[0], missed);
      if UniqueKeys(Apply(s, run[0]).disk.store) {
        InvKept(s, run[0]);
        CoveredKept(s, run[0], missed);
        UniqueRun(Apply(s, run[0]), run[1..], Missing(s, run[0], missed));
      }
    }
  }

  lemma {:induction false} AlongUnique(s: State, run: seq<Event>)
    requires Valid(s, run) && KeysAlong(s, run)
    ensures UniqueAlong(s, run) && UniqueKeys(Exec(s, run).disk.store)
    decreases |run|
  {
    hide Enabled, Apply;
    if run != [] {
      AlongUnique(Apply(s, run[0]), run[1..]);
    }
  }

  /** Over every run: the keys are in order throughout exactly when no step writes back a job whose key
      is taken; stored keys are unique throughout exactly when no save writes back a job beside a stored one of its
      key and none creates one beside a job that was written back behind its back; the first is enough for the second. */
  lemma KeysOverRuns(config: Config, run: seq<Event>)
    requires Valid(Init(config), run)
    ensures KeysAlong(Init(config), run) <==> NoClash(Init(config), run)
    ensures UniqueAlong(Init(config), run) <==> NoCollision(Init(config), run, {})
    ensures NoClash(Init(config), run) ==> UniqueAlong(Init(config), run)
  {
    InvInit(config);
    KeysRun(Init(config), run);
    UniqueRun(Init(config), run, {});
    if KeysAlong(Init(config), run) {
      AlongUnique(Init(config), run);
    }
  }

  predicate SparesAll(s: State, run: seq<Event>)
    requires Valid(s, run)
    decreases |run|
  {
    run == [] || (Spares(s, run[0]) && SparesAll(Apply(s, run[0]), run[1..]))
  }

  lemma NoCopyClashes(s: State, e: Event)
    requires CopiesStored(s)
    ensures !Clashes(s, e)
  {
  }

  lemma {:induction false} SparedRun(s: State, run: seq<Event>)
    requires Inv(s) && KeysOk(s) && CopiesStored(s) && Valid(s, run) && SparesAll(s, run)
    ensures NoClash(s, run)
    decreases |run|
  {
    hide Core, Tokens, LoadOk, ViewsFresh, KeysOk, Clashes, CopiesStored, Enabled, Apply;
    if run != [] {
      NoCopyClashes(s, run[0]);
      KeysExact(s, run[0]);
      CopiesKept(s, run[0]);
      InvKept(s, run[0]);
      SparedRun(Apply(s, run[0]), run[1..]);
    }
  }

  /** While cleanup never deletes a job whose notification is being persisted, no step clashes and no two
      stored jobs have the same source and request id. */
  lemma OneJobPerRequest(config: Config, run: seq<Event>)
    requires Valid(Init(config), run) && SparesAll(Init(config), run)
    ensures NoClash(Init(config), run) && UniqueKeys(Exec(Init(config), run).disk.store)
  {
    InvInit(config);
    SparedRun(Init(config), run);
    KeysRun(Init(config), run);
    AlongUnique(Init(config), run);
  }
}

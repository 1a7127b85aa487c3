/** Executions, told by the steps that begin them: no two steps of a run begin the execution of the same job. */
module JobExecutions {
  import opened Wrappers
  import opened JobModel
  import opened JobProtocol
  import opened JobStarts
  import opened JobTheorems
  import opened JobOutcomes
  import opened JobRuns

  /** Step `k` of the run begins the execution of job `id`. */
  ghost predicate BeginsAt(config: Config, run: seq<Event>, k: nat, id: JobId) {
    && k < |run| && Valid(Init(config), run[..k]) && Valid(Init(config), run[..k + 1])
    && Begins(Exec(Init(config), run[..k]), Exec(Init(config), run[..k + 1]), id)
  }

  // Some task has begun to execute job `id`.
  ghost predicate Begins(s: State, s': State, id: JobId) {
    exists t, mode :: TaskAt(s', t) == Some(Executing(id, mode)) && TaskAt(s, t) != TaskAt(s', t)
  }

  lemma StartsStep(s: State, e: Event)
    requires Enabled(s, e)
    ensures s.starts <= Apply(s, e).starts
  {
    if !e.Crash? && !e.ServeStart? {
      ConfigStep(s, e);
    }
  }

  lemma {:induction false} StartsRun(s: State, run: seq<Event>)
    requires Valid(s, run)
    ensures s.starts <= Exec(s, run).starts
    decreases |run|
  {
    hide Enabled, Apply;
    if run != [] {
      StartsStep(s, run[0]);
      StartsRun(Apply(s, run[0]), run[1..]);
    }
  }

  lemma {:induction false} Segment(s: State, run: seq<Event>, i: nat, j: nat)
    requires i <= j <= |run| && Valid(s, run[..i]) && Valid(s, run[..j])
    ensures Valid(Exec(s, run[..i]), run[i..j]) && Exec(Exec(s, run[..i]), run[i..j]) == Exec(s, run[..j])
    decreases i
  {
    hide Enabled, Apply;
    if i == 0 {
      assert run[0..j] == run[..j];
    } else {
      assert run[..i][1..] == run[1..][..i - 1] && run[..j][1..] == run[1..][..j - 1];
      assert run[i..j] == run[1..][i - 1..j - 1];
      Segment(Apply(s, run[0]), run[1..], i - 1, j - 1);
    }
  }

  // Only a decision to run makes a task execute.
  lemma ExecutesStep(s: State, e: Event, t: TaskId)
    requires Enabled(s, e) && t in Apply(s, e).tasks && Apply(s, e).tasks[t].Executing?
    ensures TaskAt(s, t) == TaskAt(Apply(s, e), t) || (e.RunDecide? && e.t == t)
  {
    if Brings(e) {
      BroughtTask(s, e, t);
    } else {
      hide Enabled, Apply;
      QuietContends(s, e);
    }
  }

  lemma BroughtTask(s: State, e: Event, t: TaskId)
    requires Brings(e) && Enabled(s, e) && t in Apply(s, e).tasks && Apply(s, e).tasks[t].Executing?
    ensures TaskAt(s, t) == TaskAt(Apply(s, e), t) || (e.RunDecide? && e.t == t)
  {
    hide Survives;
  }

  lemma DecideStep(s: State, t: TaskId, now: nat, id: JobId, mode: Mode)
    requires CanRunDecide(s, t) && TaskAt(DoRunDecide(s, t, now), t) == Some(Executing(id, mode))
    ensures DoRunDecide(s, t, now).starts == s.starts + [id]
  {
  }

  lemma BeginStep(s: State, e: Event, id: JobId)
    requires Enabled(s, e) && Begins(s, Apply(s, e), id)
    ensures Apply(s, e).starts == s.starts + [id]
  {
    var t, mode :| TaskAt(Apply(s, e), t) == Some(Executing(id, mode)) && TaskAt(s, t) != TaskAt(Apply(s, e), t);
    ExecutesStep(s, e, t);
    DecideStep(s, t, e.now, id, mode);
  }

  lemma Begun(config: Config, run: seq<Event>, k: nat, id: JobId)
    requires Valid(Init(config), run) && BeginsAt(config, run, k, id)
    ensures Exec(Init(config), run[..k + 1]).starts == Exec(Init(config), run[..k]).starts + [id]
  {
    Prefix(Init(config), run, k);
    hide Enabled, Apply, Begins;
    BeginStep(Exec(Init(config), run[..k]), run[k], id);
  }

  /** Over every interleaving, crash and restart, only one step of a run can begin the execution of a job. */
  lemma OneStepBegins(config: Config, run: seq<Event>, i: nat, j: nat, id: JobId)
    requires Valid(Init(config), run) && BeginsAt(config, run, i, id) && BeginsAt(config, run, j, id)
    ensures i == j
  {
    if i < j {
      BegunOnce(config, run, i, j, id);
    } else if j < i {
      BegunOnce(config, run, j, i, id);
    }
  }

  lemma BegunOnce(config: Config, run: seq<Event>, i: nat, j: nat, id: JobId)
    requires Valid(Init(config), run) && BeginsAt(config, run, i, id) && BeginsAt(config, run, j, id)
    ensures i >= j
  {
    if i < j {
      Begun(config, run, i, id);
      Begun(config, run, j, id);
      Segment(Init(config), run, i + 1, j);
      StartsRun(Exec(Init(config), run[..i + 1]), run[i + 1..j]);
      AtMostOneStart(config, run[..j + 1]);
      hide BeginsAt, Valid, Exec;
      Twice(Exec(Init(config), run[..i]).starts, Exec(Init(config), run[..j]).starts, id);
    }
  }

  lemma Twice(before: seq<JobId>, later: seq<JobId>, id: JobId)
    requires before + [id] <= later
    ensures exists m, n :: 0 <= m < n < |later + [id]| && (later + [id])[m] == (later + [id])[n]
  {
    assert later[|before|] == (before + [id])[|before|];
    assert (later + [id])[|before|] == (later + [id])[|later|];
  }
}

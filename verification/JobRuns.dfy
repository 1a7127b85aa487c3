/** Runs of the protocol taken apart: prefixes, one step more, and what can be reached from a state. */
module JobRuns {
  import opened JobModel
  import opened JobProtocol

  /** The steps before the `k`-th, and the state that they lead to. */
  lemma {:induction false} Prefix(s: State, run: seq<Event>, k: nat)
    requires Valid(s, run) && k < |run|
    ensures Valid(s, run[..k]) && Enabled(Exec(s, run[..k]), run[k]) && Valid(s, run[..k + 1])
    ensures Exec(s, run[..k + 1]) == Apply(Exec(s, run[..k]), run[k])
    decreases k
  {
    hide Enabled, Apply;
    if k == 0 {
      assert run[..1][1..] == [];
    } else {
      Prefix(Apply(s, run[0]), run[1..], k - 1);
      assert run[..k][1..] == run[1..][..k - 1] && run[..k + 1][1..] == run[1..][..k];
      assert run[1..][k - 1] == run[k];
    }
  }

  lemma {:induction false} RunAppend(s: State, run: seq<Event>, e: Event)
    requires Valid(s, run) && Enabled(Exec(s, run), e)
    ensures Valid(s, run + [e]) && Exec(s, run + [e]) == Apply(Exec(s, run), e)
    decreases |run|
  {
    hide Enabled, Apply;
    if run == [] {
      assert run + [e] == [e];
      assert [e][1..] == [];
    } else {
      assert (run + [e])[0] == run[0] && (run + [e])[1..] == run[1..] + [e];
      RunAppend(Apply(s, run[0]), run[1..], e);
    }
  }

  /** The process is neither asked to stop nor does it crash. */
  predicate Undisturbed(run: seq<Event>) {
    forall i :: 0 <= i < |run| ==> !run[i].Crash? && !run[i].Shutdown?
  }

  /** Some steps of an undisturbed process lead from one state to the other. */
  ghost predicate Leads(from: State, to: State) {
    exists run :: Valid(from, run) && Undisturbed(run) && Exec(from, run) == to
  }

  lemma Here(s: State)
    ensures Leads(s, s)
  {
    assert Valid(s, []) && Undisturbed([]) && Exec(s, []) == s;
  }

  lemma Then(from: State, s: State, e: Event) returns (s': State)
    requires Leads(from, s) && Enabled(s, e) && !e.Crash? && !e.Shutdown?
    ensures s' == Apply(s, e) && Leads(from, s')
  {
    hide Enabled, Apply;
    var run :| Valid(from, run) && Undisturbed(run) && Exec(from, run) == s;
    RunAppend(from, run, e);
    s' := Apply(s, e);
    assert Undisturbed(run + [e]);
  }

  // ----- single steps -----

  lemma ThenList(from: State, s: State, t: TaskId) returns (s': State)
    requires Leads(from, s) && CanListBegin(s, t)
    ensures s' == DoListBegin(s, t) && Leads(from, s')
  {
    s' := Then(from, s, ListBegin(t));
  }

  lemma ThenCount(from: State, s: State, t: TaskId, id: JobId, queueOrder: nat, now: nat) returns (s': State)
    requires Leads(from, s) && CanCountEnd(s, t, id)
    ensures s' == DoCountEnd(s, t, id, queueOrder, now) && Leads(from, s')
  {
    s' := Then(from, s, CountEnd(t, id, queueOrder, now));
  }

  lemma ThenFind(from: State, s: State, t: TaskId) returns (s': State)
    requires Leads(from, s) && CanFindEnd(s, t)
    ensures s' == DoFindEnd(s, t) && Leads(from, s')
  {
    s' := Then(from, s, FindEnd(t));
  }

  lemma ThenRead(from: State, s: State, t: TaskId, id: JobId) returns (s': State)
    requires Leads(from, s) && CanListRead(s, t, id)
    ensures s' == DoListRead(s, t, id) && Leads(from, s')
  {
    s' := Then(from, s, ListRead(t, id));
  }

  lemma ThenSave(from: State, s: State, t: TaskId) returns (s': State)
    requires Leads(from, s) && CanSaveLock(s, t)
    ensures s' == DoSaveWrite(DoSaveLock(s, t), t) && Leads(from, s')
  {
    hide DoSaveWrite, Readable;
    var s1 := Then(from, s, SaveLock(t));
    s' := Then(from, s1, SaveWrite(t));
  }
}

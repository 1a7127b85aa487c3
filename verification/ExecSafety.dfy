/** What `execute` may do and when, over every order of events. */
module ExecSafety {
  import OutputCapture
  import opened Ascii
  import opened ExecMachine
  import opened Sequences
  import opened Wrappers

  predicate HasSettled(log: seq<Action>) {
    exists a :: a in log && a.Settled?
  }

  predicate HasClosed(log: seq<Action>) {
    exists a :: a in log && a.Closed?
  }

  /** The result says that the command was stopped on request or for its time. */
  predicate Stopped(r: Report) {
    r.status.Cancelled? || r.errorType == Some(TimedOut)
  }

  /** When an action may follow what was done before. */
  predicate Allowed(c: Config, past: seq<Action>, action: Action) {
    match action
    // Only while the group is owned and the command runs, first politely and then once more.
    case Attempted(signal) =>
      && c.hasPid && Released !in past && !HasSettled(past)
      && Attempted(SIGKILL) !in past && (signal == SIGKILL <==> Attempted(SIGTERM) in past)
    case Released => c.hasPid && Released !in past
    // Once; and with a stopped result only after the child closed and its group was seen gone or sent the deadly signal,
    // unless there was no group to ask about.
    case Settled(r) =>
      && !HasSettled(past)
      && (Stopped(r) ==> HasClosed(past) && (c.win32 || !c.hasPid || GroupGone in past || Attempted(SIGKILL) in past))
    case _ => true
  }

  predicate Orderly(c: Config, log: seq<Action>) {
    log == [] || (Orderly(c, log[..|log| - 1]) && Allowed(c, log[..|log| - 1], log[|log| - 1]))
  }

  lemma OrderlySnoc(c: Config, log: seq<Action>, a: Action)
    ensures Orderly(c, log + [a]) <==> Orderly(c, log) && Allowed(c, log, a)
    ensures HasSettled(log + [a]) <==> HasSettled(log) || a.Settled?
    ensures HasClosed(log + [a]) <==> HasClosed(log) || a.Closed?
    ensures forall x :: x in log + [a] <==> x in log || x == a
  {
    assert (log + [a])[..|log|] == log;
    if a.Settled? || a.Closed? {
      assert a in log + [a];
    }
    forall x | x in log ensures x in log + [a] {}
  }

  // The flags of the state say what the log says.
  predicate Consistent(c: Config, s: State) {
    && Orderly(c, s.log)
    && (s.settled <==> HasSettled(s.log))
    && (s.childClosed <==> HasClosed(s.log))
    && (s.owned <==> c.hasPid && Released !in s.log)
    && (Attempted(SIGKILL) in s.log ==> !s.owned)
    && (Attempted(SIGTERM) in s.log ==> s.terminationStarted)
    && (s.cancelled || s.timedOut <==> s.terminationStarted)
    && (!s.owned && !s.settled ==> !c.hasPid || GroupGone in s.log || Attempted(SIGKILL) in s.log)
  }

  // A running command that was asked to end has its kill timer running as long as its group is owned, and a settled one
  // has no timer left.
  predicate TimersFit(s: State) {
    && (s.settled ==> !s.owned && !s.timeoutArmed && !s.abortArmed)
    && (s.killArmed <==> s.owned && s.terminationStarted)
    && (s.killArmed ==> Attempted(SIGTERM) in s.log)
    && (s.pollArmed ==> s.owned && s.childClosed && s.terminationStarted)
  }

  predicate Inv(c: Config, s: State) {
    Consistent(c, s) && TimersFit(s)
  }

  lemma DidKeeps(c: Config, s: State, a: Action)
    requires Orderly(c, s.log) && Allowed(c, s.log, a)
    ensures Orderly(c, s.Did(a).log)
    ensures HasSettled(s.Did(a).log) <==> HasSettled(s.log) || a.Settled?
    ensures HasClosed(s.Did(a).log) <==> HasClosed(s.log) || a.Closed?
    ensures forall x :: x in s.Did(a).log <==> x in s.log || x == a
  {
    OrderlySnoc(c, s.log, a);
  }

  // Why a group that is no longer owned may be left alone.
  predicate Done(c: Config, s: State) {
    !c.hasPid || GroupGone in s.log || Attempted(SIGKILL) in s.log
  }

  // The same as `Consistent`, between an attempt with the deadly signal and giving up the group.
  predicate Releasing(c: Config, s: State) {
    && Orderly(c, s.log)
    && (s.settled <==> HasSettled(s.log))
    && (s.childClosed <==> HasClosed(s.log))
    && (s.owned <==> c.hasPid && Released !in s.log)
    && (Attempted(SIGTERM) in s.log ==> s.terminationStarted)
    && (s.cancelled || s.timedOut <==> s.terminationStarted)
    && (s.settled ==> !s.owned && !s.timeoutArmed && !s.abortArmed)
  }

  lemma ClearKeeps(c: Config, s: State)
    requires Releasing(c, s) && (s.settled || Done(c, s))
    ensures Inv(c, s.OwnershipCleared()) && !s.OwnershipCleared().owned
  {
    hide Orderly, HasSettled, HasClosed, OutputCapture.Render, OutputCapture.Append, AbortMessage, SignalMessage;
    assert s.log + [] == s.log;
    OrderlySnoc(c, s.log, Released);
  }

  lemma ClearReleases(c: Config, s: State)
    requires Releasing(c, s)
    ensures var s' := s.OwnershipCleared(); Releasing(c, s') && !s'.owned && !s'.killArmed && !s'.pollArmed
    ensures HasClosed(s.log) ==> HasClosed(s.OwnershipCleared().log)
    ensures Done(c, s) ==> Done(c, s.OwnershipCleared())
  {
    hide Orderly, HasSettled, HasClosed;
    assert s.log + [] == s.log;
    OrderlySnoc(c, s.log, Released);
  }

  lemma FinishKeeps(c: Config, s: State, status: Status, errorType: Option<ErrorType>)
    requires Releasing(c, s) && !s.owned && !s.killArmed && !s.pollArmed
    requires Stopped(s.Outcome(c, status, errorType)) ==> HasClosed(s.log) && (c.win32 || Done(c, s))
    ensures Inv(c, s.Finished(c, status, errorType))
  {
    hide Orderly, HasSettled, HasClosed, OutputCapture.Render;
    OrderlySnoc(c, s.log, Settled(s.Outcome(c, status, errorType)));
  }

  lemma SettleKeeps(c: Config, s: State, status: Status, errorType: Option<ErrorType>)
    requires Releasing(c, s)
    requires Stopped(s.Outcome(c, status, errorType)) ==> HasClosed(s.log) && (c.win32 || Done(c, s))
    ensures Inv(c, s.OwnershipCleared().Finished(c, status, errorType))
  {
    hide Orderly, HasSettled, HasClosed, OutputCapture.Render, Releasing, Inv, State.OwnershipCleared, State.Finished;
    ClearReleases(c, s);
    FinishKeeps(c, s.OwnershipCleared(), status, errorType);
  }

  lemma TerminatedKeeps(c: Config, s: State)
    requires Inv(c, s) && (s.settled || !s.childClosed || c.win32 || Done(c, s))
    ensures Inv(c, s.FinishedTerminated(c))
  {
    if s.childClosed && !s.settled {
      if s.cancelled {
        SettleKeeps(c, s, Cancelled, Some(CancelledByCaller));
      } else {
        SettleKeeps(c, s, Failed, Some(TimedOut));
      }
    }
  }

  // A command that has just been cancelled or run out of time, before its group hears of it.
  predicate Doomed(c: Config, s: State) {
    && Consistent(c, s.(cancelled := s.terminationStarted, timedOut := s.terminationStarted)) && TimersFit(s)
    && (s.cancelled || s.timedOut) && !s.settled
  }

  lemma AttemptTerminates(c: Config, s: State)
    requires Doomed(c, s) && !s.terminationStarted && s.owned
    ensures var tried := s.(terminationStarted := true).Did(Attempted(SIGTERM));
            Releasing(c, tried) && tried.owned && Inv(c, tried.(killArmed := true))
  {
    hide Orderly, HasSettled, HasClosed;
    assert Attempted(SIGTERM) !in s.log && Attempted(SIGKILL) !in s.log;
    DidKeeps(c, s.(terminationStarted := true), Attempted(SIGTERM));
  }

  lemma DoomedKeeps(c: Config, s: State)
    requires Doomed(c, s) && (s.terminationStarted || !s.owned)
    ensures Inv(c, s.(terminationStarted := true))
  {
    hide Orderly, HasSettled, HasClosed;
  }

  lemma TerminateKeeps(c: Config, s: State, answer: SignalAnswer)
    requires Doomed(c, s)
    ensures Inv(c, s.Terminated(c, answer))
  {
    hide Inv, Releasing, OutputCapture.Append, SignalMessage, State.OwnershipCleared, State.Finished;
    if s.terminationStarted || !s.owned {
      DoomedKeeps(c, s);
    } else {
      var tried := s.(terminationStarted := true).Did(Attempted(SIGTERM));
      AttemptTerminates(c, s);
      match answer
      case Delivered =>
      case NoSuchProcess =>
        GoneKeeps(c, tried);
        ClearKeeps(c, tried.Did(GroupGone));
      case Refused(message) =>
        var stderr := OutputCapture.Append(tried.stderr, SignalMessage(message), c.limit);
        RefusedSettles(c, tried, stderr);
    }
  }

  lemma ClosedReleases(c: Config, s: State, code: Option<int>)
    requires Inv(c, s) && !s.childClosed
    ensures var closed := s.(childClosed := true, exitCode := code).Did(Closed(code));
            Inv(c, closed) && Releasing(c, closed) && HasClosed(closed.log)
  {
    hide Orderly, HasSettled, HasClosed;
    DidKeeps(c, s.(childClosed := true, exitCode := code), Closed(code));
  }

  lemma AskedKeeps(c: Config, s: State, alive: bool)
    requires Inv(c, s)
    ensures var asked := s.Asked(c, alive);
            Inv(c, asked) && (s.GroupAlive(c, alive) || asked.settled || c.win32 || Done(c, asked))
    ensures s.childClosed && s.terminationStarted && s.owned && !s.settled ==> Inv(c, s.(pollArmed := true))
  {
    hide Orderly, HasSettled, HasClosed;
    DidKeeps(c, s, GroupGone);
  }

  lemma ObservedKeeps(c: Config, s: State, alive: bool)
    requires Inv(c, s)
    ensures Inv(c, s.Observed(c, alive))
  {
    hide Inv, State.FinishedTerminated;
    AskedKeeps(c, s, alive);
    if !s.GroupAlive(c, alive) {
      TerminatedKeeps(c, s.Asked(c, alive));
    }
  }

  predicate Undisturbed(s: State) {
    !s.cancelled && !s.timedOut
  }

  lemma CloseKeeps(c: Config, s: State, code: Option<int>, alive: bool, stillAlive: bool)
    requires Inv(c, s) && !s.childClosed
    ensures Inv(c, s.AfterClose(c, code, alive, stillAlive))
  {
    hide Orderly, Releasing, HasSettled, HasClosed, State.FinishedTerminated, State.Observed, State.Finished,
      State.OwnershipCleared;
    var closed := s.(childClosed := true, exitCode := code).Did(Closed(code));
    ClosedReleases(c, s, code);
    if !Undisturbed(s) {
      AskedKeeps(c, closed, alive);
      if closed.GroupAlive(c, alive) {
        ObservedKeeps(c, closed.(pollArmed := true), stillAlive);
      } else {
        TerminatedKeeps(c, closed.Asked(c, alive));
      }
    } else if s.stdinWriteFailed {
      SettleKeeps(c, closed, Failed, Some(ExecutionError));
    } else if code == Some(0) {
      SettleKeeps(c, closed, Succeeded, None);
    } else {
      SettleKeeps(c, closed, Failed, Some(NonZeroExit));
    }
  }

  lemma AttemptKills(c: Config, s: State)
    requires Inv(c, s) && s.killArmed
    ensures var tried := s.(killArmed := false).Did(Attempted(SIGKILL));
            Releasing(c, tried) && Done(c, tried) && tried.owned && Allowed(c, tried.log, GroupGone)
  {
    hide Orderly, HasSettled, HasClosed;
    DidKeeps(c, s.(killArmed := false), Attempted(SIGKILL));
  }

  lemma GoneKeeps(c: Config, s: State)
    requires Releasing(c, s)
    ensures Releasing(c, s.Did(GroupGone)) && Done(c, s.Did(GroupGone))
  {
    hide Orderly, HasSettled, HasClosed;
    DidKeeps(c, s, GroupGone);
  }

  lemma KillReleases(c: Config, s: State, answer: SignalAnswer)
    requires Inv(c, s) && s.killArmed
    ensures var after := s.(killArmed := false).Signalled(c, SIGKILL, answer);
            Releasing(c, after) && (after.settled || Done(c, after))
  {
    hide Releasing, Inv, OutputCapture.Append, SignalMessage, State.OwnershipCleared, State.Finished;
    AttemptKills(c, s);
    var tried := s.(killArmed := false).Did(Attempted(SIGKILL));
    match answer
    case Delivered =>
    case NoSuchProcess =>
      GoneKeeps(c, tried);
      ClearKeeps(c, tried.Did(GroupGone));
      InvReleases(c, tried.Did(GroupGone).OwnershipCleared());
    case Refused(message) =>
      var noted := tried.(stderr := OutputCapture.Append(tried.stderr, SignalMessage(message), c.limit));
      RefusedSettles(c, tried, noted.stderr);
  }

  lemma RefusedSettles(c: Config, s: State, stderr: OutputCapture.Captured)
    requires Releasing(c, s)
    ensures var after := s.(stderr := stderr).OwnershipCleared().Finished(c, Failed, Some(ExecutionError));
            Inv(c, after) && Releasing(c, after) && after.settled
  {
    hide Orderly, HasSettled, HasClosed, OutputCapture.Render;
    SettleKeeps(c, s.(stderr := stderr), Failed, Some(ExecutionError));
  }

  lemma InvReleases(c: Config, s: State)
    requires Inv(c, s)
    ensures Releasing(c, s) && (s.owned || s.settled || Done(c, s))
  {
    hide Orderly, HasSettled, HasClosed;
  }

  lemma KillKeeps(c: Config, s: State, answer: SignalAnswer)
    requires Inv(c, s) && s.killArmed
    ensures Inv(c, s.(killArmed := false).Signalled(c, SIGKILL, answer).OwnershipCleared().FinishedTerminated(c))
  {
    hide Inv, Releasing, State.FinishedTerminated, State.Signalled, State.OwnershipCleared;
    var after := s.(killArmed := false).Signalled(c, SIGKILL, answer);
    KillReleases(c, s, answer);
    ClearKeeps(c, after);
    InvReleases(c, after.OwnershipCleared());
    TerminatedKeeps(c, after.OwnershipCleared());
  }

  // What was captured does not matter.
  lemma CaptureIrrelevant(c: Config, s: State, stdout: OutputCapture.Captured, stderr: OutputCapture.Captured, failed: bool)
    requires Inv(c, s)
    ensures Inv(c, s.(stdout := stdout, stderr := stderr, stdinWriteFailed := failed))
  {
    hide Orderly, HasSettled, HasClosed;
  }

  lemma TimeoutKeeps(c: Config, s: State, answer: SignalAnswer)
    requires Inv(c, s)
    ensures Inv(c, Handle(c, s, Timeout(answer)))
  {
    hide Orderly, HasSettled, HasClosed, State.Noted, State.Terminated;
    if s.timeoutArmed {
      NotedShape(c, s.(timeoutArmed := false, timedOut := true), c.timeoutMessage);
      TerminateKeeps(c, s.(timeoutArmed := false, timedOut := true).Noted(c, c.timeoutMessage), answer);
    }
  }

  lemma AbortKeeps(c: Config, s: State, answer: SignalAnswer)
    requires Inv(c, s)
    ensures Inv(c, Handle(c, s, Abort(answer)))
  {
    hide Orderly, HasSettled, HasClosed, State.Noted, State.Terminated, AbortMessage;
    if s.abortArmed {
      NotedShape(c, s.(abortArmed := false, cancelled := true), AbortMessage());
      TerminateKeeps(c, s.(abortArmed := false, cancelled := true).Noted(c, AbortMessage()), answer);
    }
  }

  lemma NotedReleases(c: Config, s: State, message: Text)
    requires Releasing(c, s)
    ensures var s' := s.Noted(c, message);
            Releasing(c, s') && s'.owned == s.owned && s'.killArmed == s.killArmed && s'.pollArmed == s.pollArmed
  {
    hide Orderly, HasSettled, HasClosed, OutputCapture.Append;
    if s.stderr.length == 0 {
      assert s.Noted(c, message) == s.(stderr := OutputCapture.Append(s.stderr, message, c.limit));
    } else {
      assert s.Noted(c, message) == s;
    }
  }

  lemma ChildErrorKeeps(c: Config, s: State, message: Text)
    requires Inv(c, s)
    ensures Inv(c, Handle(c, s, ChildError(message)))
  {
    hide Inv, Releasing, OutputCapture.Append, OutputCapture.Render, State.Noted, State.OwnershipCleared, State.Finished;
    InvReleases(c, s);
    ClearReleases(c, s);
    NotedReleases(c, s.OwnershipCleared(), message);
    FinishKeeps(c, s.OwnershipCleared().Noted(c, message), Failed, Some(SpawnError));
  }

  lemma StreamKeeps(c: Config, s: State, e: Event)
    requires Inv(c, s) && (e.StdinError? || e.Data?)
    ensures Inv(c, Handle(c, s, e))
  {
    hide Inv, OutputCapture.Append, State.Noted;
    match e
    case StdinError(message) =>
      NotedShape(c, s.(stdinWriteFailed := true), message);
      CaptureIrrelevant(c, s, s.stdout, s.(stdinWriteFailed := true).Noted(c, message).stderr, true);
    case Data(Stdout, chunk) =>
      CaptureIrrelevant(c, s, OutputCapture.Append(s.stdout, chunk, c.limit), s.stderr, s.stdinWriteFailed);
    case Data(Stderr, chunk) =>
      CaptureIrrelevant(c, s, s.stdout, OutputCapture.Append(s.stderr, chunk, c.limit), s.stdinWriteFailed);
  }

  lemma NotedShape(c: Config, s: State, message: Text)
    ensures s.Noted(c, message) == s.(stderr := s.Noted(c, message).stderr)
  {
    hide OutputCapture.Append;
    if s.stderr.length == 0 {
      assert s.Noted(c, message) == s.(stderr := OutputCapture.Append(s.stderr, message, c.limit));
    } else {
      assert s.Noted(c, message) == s;
    }
  }

  lemma HandleKeeps(c: Config, s: State, e: Event)
    requires Inv(c, s)
    ensures Inv(c, Handle(c, s, e))
  {
    hide Inv, State.FinishedTerminated, State.Observed, State.Terminated, State.Signalled, State.AfterClose, State.Noted;
    match e
    case ChildError(message) => ChildErrorKeeps(c, s, message);
    case Close(code, alive, stillAlive) =>
      if !s.childClosed {
        CloseKeeps(c, s, code, alive, stillAlive);
      }
    case Timeout(answer) => TimeoutKeeps(c, s, answer);
    case Abort(answer) => AbortKeeps(c, s, answer);
    case KillTimer(answer) =>
      if s.killArmed {
        KillKeeps(c, s, answer);
      }
    case Poll(alive) => ObservedKeeps(c, s, alive);
    case _ => StreamKeeps(c, s, e);
  }

  lemma {:induction false} RunKeeps(c: Config, events: seq<Event>)
    ensures Inv(c, Run(c, events))
  {
    hide Handle;
    if events != [] {
      RunKeeps(c, events[..|events| - 1]);
      HandleKeeps(c, Run(c, events[..|events| - 1]), events[|events| - 1]);
    }
  }

  lemma {:induction false} OrderlyAt(c: Config, log: seq<Action>, i: nat)
    requires Orderly(c, log) && i < |log|
    ensures Allowed(c, log[..i], log[i])
  {
    if i < |log| - 1 {
      OrderlyAt(c, log[..|log| - 1], i);
      assert log[..|log| - 1][..i] == log[..i];
    }
  }

  /** A command settles at most once. */
  lemma SettlesOnce(c: Config, events: seq<Event>, i: nat, j: nat)
    requires i < j < |Run(c, events).log| && Run(c, events).log[i].Settled?
    ensures !Run(c, events).log[j].Settled?
  {
    var log := Run(c, events).log;
    RunKeeps(c, events);
    OrderlyAt(c, log, j);
    assert log[..j][i] == log[i];
  }

  function Signals(log: seq<Action>): seq<Signal> {
    if log == [] then []
    else Signals(log[..|log| - 1]) + if log[|log| - 1].Attempted? then [log[|log| - 1].signal] else []
  }

  lemma {:induction false} SignalsOrderly(c: Config, log: seq<Action>)
    requires Orderly(c, log)
    ensures Signals(log) == (if Attempted(SIGTERM) in log then [SIGTERM] else [])
                          + (if Attempted(SIGKILL) in log then [SIGKILL] else [])
    ensures Attempted(SIGKILL) in log ==> Attempted(SIGTERM) in log
  {
    if log != [] {
      var init := log[..|log| - 1];
      assert log == init + [log[|log| - 1]];
      SignalsOrderly(c, init);
    }
  }

  /** Whatever happens, the signals attempted are a prefix of the polite one and the deadly one; none is attempted after
      the command settled or gave up its group. */
  lemma SignalsAreOrderly(c: Config, events: seq<Event>)
    ensures var log := Run(c, events).log;
            && Signals(log) <= [SIGTERM, SIGKILL]
            && forall i, j :: 0 <= i < j < |log| && log[j].Attempted? ==> !log[i].Settled? && log[i] != Released
  {
    var log := Run(c, events).log;
    RunKeeps(c, events);
    SignalsOrderly(c, log);
    forall i, j | 0 <= i < j < |log| && log[j].Attempted? ensures !log[i].Settled? && log[i] != Released {
      OrderlyAt(c, log, j);
      assert log[..j][i] == log[i];
    }
  }

  /** A command is reported as cancelled or timed out only after its child closed and its group was seen gone or was sent
      the deadly signal, where there is a group to ask about. */
  lemma StoppedMeansGone(c: Config, events: seq<Event>, i: nat)
    requires i < |Run(c, events).log| && Run(c, events).log[i].Settled? && Stopped(Run(c, events).log[i].report)
    ensures var past := Run(c, events).log[..i];
            HasClosed(past) && (c.win32 || !c.hasPid || GroupGone in past || Attempted(SIGKILL) in past)
  {
    RunKeeps(c, events);
    OrderlyAt(c, Run(c, events).log, i);
  }

  /** After settling nothing is left to run: the group is given up and every timer is off. */
  lemma SettledIsQuiet(c: Config, events: seq<Event>)
    requires Run(c, events).settled
    ensures var s := Run(c, events);
            !s.owned && !s.timeoutArmed && !s.abortArmed && !s.killArmed && !s.pollArmed
  {
    RunKeeps(c, events);
  }

  // ----- progress -----

  // A command whose child has closed is settled, or both its group is being watched and the deadly signal is due.
  predicate Watched(s: State) {
    s.childClosed && !s.settled ==> s.pollArmed && s.killArmed
  }

  // What a step does to the flags of a command that only settles.
  predicate OnlySettles(s: State, after: State) {
    && after.childClosed == s.childClosed
    && (after.settled || (after.settled == s.settled && after.pollArmed == s.pollArmed && after.killArmed == s.killArmed))
  }

  lemma TerminatedSettles(c: Config, s: State)
    ensures OnlySettles(s, s.FinishedTerminated(c)) && (s.childClosed ==> s.FinishedTerminated(c).settled)
  {
    hide OutputCapture.Render;
  }

  lemma ObservedSettles(c: Config, s: State, alive: bool)
    ensures OnlySettles(s, s.Observed(c, alive))
    ensures s.childClosed && !s.GroupAlive(c, alive) ==> s.Observed(c, alive).settled
  {
    hide State.FinishedTerminated;
    TerminatedSettles(c, s.Asked(c, alive));
  }

  lemma CloseWatched(c: Config, s: State, code: Option<int>, alive: bool, stillAlive: bool)
    requires Inv(c, s) && !s.childClosed
    ensures Watched(s.AfterClose(c, code, alive, stillAlive)) && s.AfterClose(c, code, alive, stillAlive).childClosed
  {
    hide OutputCapture.Render, State.FinishedTerminated, State.Observed, Orderly, HasSettled, HasClosed;
    var closed := s.(childClosed := true, exitCode := code).Did(Closed(code));
    if !Undisturbed(s) {
      if closed.GroupAlive(c, alive) {
        ObservedSettles(c, closed.Asked(c, alive).(pollArmed := true), stillAlive);
      } else {
        TerminatedSettles(c, closed.Asked(c, alive));
      }
    }
  }

  lemma FlagsKept(c: Config, s: State, status: Status, errorType: Option<ErrorType>)
    ensures s.OwnershipCleared().childClosed == s.childClosed && s.Finished(c, status, errorType).childClosed == s.childClosed
    ensures s.OwnershipCleared().settled == s.settled && s.Finished(c, status, errorType).settled
  {
    hide OutputCapture.Render;
  }

  lemma RefusedClosed(c: Config, s: State, signal: Signal, message: Text)
    requires s.owned
    ensures s.Signalled(c, signal, Refused(message)).childClosed == s.childClosed
  {
    hide OutputCapture.Append, SignalMessage, State.OwnershipCleared, State.Finished;
    var noted := s.Did(Attempted(signal)).(stderr := OutputCapture.Append(s.stderr, SignalMessage(message), c.limit));
    FlagsKept(c, noted, Failed, None);
    FlagsKept(c, noted.OwnershipCleared(), Failed, Some(ExecutionError));
  }

  lemma UnrefusedClosed(c: Config, s: State, signal: Signal, answer: SignalAnswer)
    requires !s.owned || !answer.Refused?
    ensures s.Signalled(c, signal, answer).childClosed == s.childClosed
  {
    hide OutputCapture.Append, SignalMessage, State.OwnershipCleared, State.Finished;
    FlagsKept(c, s.Did(Attempted(signal)).Did(GroupGone), Failed, None);
  }

  lemma SignalledClosed(c: Config, s: State, signal: Signal, answer: SignalAnswer)
    ensures s.Signalled(c, signal, answer).childClosed == s.childClosed
  {
    hide State.Signalled;
    if s.owned && answer.Refused? {
      RefusedClosed(c, s, signal, answer.message);
    } else {
      UnrefusedClosed(c, s, signal, answer);
    }
  }

  // A kill timer that fires after the child has closed settles the command, whatever the system answers.
  lemma KillSettles(c: Config, s: State, answer: SignalAnswer)
    requires s.killArmed
    ensures Handle(c, s, KillTimer(answer)).childClosed == s.childClosed
    ensures s.childClosed ==> Handle(c, s, KillTimer(answer)).settled
  {
    hide State.Signalled, State.FinishedTerminated, State.OwnershipCleared;
    var after := s.(killArmed := false).Signalled(c, SIGKILL, answer);
    SignalledClosed(c, s.(killArmed := false), SIGKILL, answer);
    FlagsKept(c, after, Failed, None);
    TerminatedSettles(c, after.OwnershipCleared());
  }

  // A command that was asked to end is not asked again.
  lemma AskedWatched(c: Config, s: State, message: Text, answer: SignalAnswer)
    requires TimersFit(s) && Watched(s) && !s.settled
    ensures var after := s.Noted(c, message).Terminated(c, answer); Watched(after) && after.childClosed == s.childClosed
  {
    hide OutputCapture.Append, State.Noted, State.Signalled;
    NotedShape(c, s, message);
    SignalledClosed(c, s.Noted(c, message).(terminationStarted := true), SIGTERM, answer);
  }

  lemma ChildErrorSettles(c: Config, s: State, message: Text)
    ensures var after := Handle(c, s, ChildError(message)); after.settled && after.childClosed == s.childClosed
  {
    hide State.OwnershipCleared, State.Noted, State.Finished;
    FlagsKept(c, s, Failed, None);
    NotedShape(c, s.OwnershipCleared(), message);
    FlagsKept(c, s.OwnershipCleared().Noted(c, message), Failed, Some(SpawnError));
  }

  lemma HandleWatched(c: Config, s: State, e: Event)
    requires Inv(c, s) && Watched(s)
    ensures Watched(Handle(c, s, e)) && (Handle(c, s, e).childClosed <==> s.childClosed || e.Close?)
  {
    hide OutputCapture.Render, OutputCapture.Append, State.FinishedTerminated, State.Observed, State.AfterClose,
      State.Signalled, State.Terminated, State.Noted, State.Finished, State.OwnershipCleared, Consistent, AbortMessage;
    match e
    case Close(code, alive, stillAlive) =>
      if !s.childClosed {
        CloseWatched(c, s, code, alive, stillAlive);
      }
    case KillTimer(answer) =>
      if s.killArmed {
        KillSettles(c, s, answer);
      }
    case Poll(alive) => ObservedSettles(c, s, alive);
    case Timeout(answer) =>
      if s.timeoutArmed {
        AskedWatched(c, s.(timeoutArmed := false, timedOut := true), c.timeoutMessage, answer);
      }
    case Abort(answer) =>
      if s.abortArmed {
        AskedWatched(c, s.(abortArmed := false, cancelled := true), AbortMessage(), answer);
      }
    case ChildError(message) => ChildErrorSettles(c, s, message);
    case StdinError(message) => NotedShape(c, s.(stdinWriteFailed := true), message);
    case Data(_, _) =>
  }

  lemma {:induction false} RunWatched(c: Config, events: seq<Event>)
    ensures Watched(Run(c, events))
  {
    hide Handle, Inv, Watched;
    if events == [] {
      WatchedAtFirst(c);
    } else {
      RunWatched(c, events[..|events| - 1]);
      RunKeeps(c, events[..|events| - 1]);
      HandleWatched(c, Run(c, events[..|events| - 1]), events[|events| - 1]);
    }
  }

  lemma WatchedAtFirst(c: Config)
    ensures Watched(Initial(c))
  {
  }

  /** No command hangs once its child has closed: it is settled, or its group is polled and the kill timer is running; then
      the timer settles it whatever the system answers, and so does a poll that finds the group gone. */
  lemma ClosedGetsSettled(c: Config, events: seq<Event>)
    requires Run(c, events).childClosed && !Run(c, events).settled
    ensures var s := Run(c, events);
            && s.pollArmed && s.killArmed && Handle(c, s, Poll(false)).settled
            && forall answer :: Handle(c, s, KillTimer(answer)).settled
  {
    hide State.Observed, State.Signalled, State.FinishedTerminated;
    var s := Run(c, events);
    RunWatched(c, events);
    ObservedSettles(c, s, false);
    forall answer ensures Handle(c, s, KillTimer(answer)).settled {
      KillSettles(c, s, answer);
    }
  }

  /** From every reachable state two events are enough to settle a command: the close of its child and its kill timer. */
  lemma CloseAndKillSettle(c: Config, events: seq<Event>, code: Option<int>, alive: bool, stillAlive: bool, answer: SignalAnswer)
    ensures var closed := Handle(c, Run(c, events), Close(code, alive, stillAlive));
            closed.settled || Handle(c, closed, KillTimer(answer)).settled
  {
    var close := Close(code, alive, stillAlive);
    RunWatched(c, events);
    RunKeeps(c, events);
    HandleWatched(c, Run(c, events), close);
    hide Handle;
    if !Handle(c, Run(c, events), close).settled {
      KillSettles(c, Handle(c, Run(c, events), close), answer);
    }
  }
}

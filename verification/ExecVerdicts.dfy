/** What a command reports, told by the events alone: the verdict, the exit code and both outputs are functions of what had
    happened when it settled. */
module ExecVerdicts {
  import OutputCapture
  import opened Ascii
  import opened ExecMachine
  import opened ExecSafety
  import opened ExecReports
  import opened Sequences
  import opened Wrappers

  // ----- what happened -----

  predicate Aborted(events: seq<Event>) {
    exists i :: 0 <= i < |events| && events[i].Abort?
  }

  predicate RanOutOfTime(events: seq<Event>) {
    exists i :: 0 <= i < |events| && events[i].Timeout?
  }

  predicate StdinFailed(events: seq<Event>) {
    exists i :: 0 <= i < |events| && events[i].StdinError?
  }

  /** The code of the first close. */
  function ClosedWith(events: seq<Event>): Option<Option<int>> {
    if events == [] then None
    else
      var last := events[|events| - 1];
      var before := ClosedWith(events[..|events| - 1]);
      if before.Some? then before else if last.Close? then Some(last.code) else None
  }

  /** What the caller is told when the last event settles the command: a spawn error and a refused signal come first; then
      the caller's wish to stop, before the time limit; otherwise the command ended by itself. */
  function Verdict(events: seq<Event>): (Status, Option<ErrorType>)
    requires events != []
  {
    var last := events[|events| - 1];
    if last.ChildError? then (Failed, Some(SpawnError))
    else if SignalRefused(last) then (Failed, Some(ExecutionError))
    else if Aborted(events) then (Cancelled, Some(CancelledByCaller))
    else if RanOutOfTime(events) then (Failed, Some(TimedOut))
    else if StdinFailed(events) then (Failed, Some(ExecutionError))
    else if ClosedWith(events) == Some(Some(0)) then (Succeeded, None)
    else (Failed, Some(NonZeroExit))
  }

  /** What an event adds to stderr: a chunk of the command, or a message of the bridge where nothing had come before; the time
      limit and the caller's wish speak once. */
  function Adds(c: Config, before: seq<Event>, e: Event, silent: bool): seq<Text> {
    match e
    case Data(Stderr, chunk) => [chunk]
    case StdinError(message) => if silent then [message] else []
    case ChildError(message) => if silent then [message] else []
    case Timeout(_) => if silent && !RanOutOfTime(before) then [c.timeoutMessage] else []
    case Abort(_) => if silent && !Aborted(before) then [AbortMessage()] else []
    case _ => []
  }

  /** What had come to stderr. */
  function Told(c: Config, events: seq<Event>): seq<Text> {
    if events == [] then []
    else
      var before, last := events[..|events| - 1], events[|events| - 1];
      var past := Told(c, before);
      past + Adds(c, before, last, Flatten(past) == [])
  }

  // The complaint about a refused signal, which settles the command.
  function Complaint(e: Event): seq<Text> {
    if SignalRefused(e) then [SignalMessage(e.answer.message)] else []
  }

  lemma Happened(before: seq<Event>, e: Event)
    ensures var events := before + [e];
            && (Aborted(events) <==> Aborted(before) || e.Abort?)
            && (RanOutOfTime(events) <==> RanOutOfTime(before) || e.Timeout?)
            && (StdinFailed(events) <==> StdinFailed(before) || e.StdinError?)
  {
    var events := before + [e];
    assert events[|before|] == e;
    forall i | 0 <= i < |before| ensures events[i] == before[i] {}
    if i :| 0 <= i < |before| && before[i].Abort? { assert events[i].Abort?; }
    if i :| 0 <= i < |before| && before[i].Timeout? { assert events[i].Timeout?; }
    if i :| 0 <= i < |before| && before[i].StdinError? { assert events[i].StdinError?; }
  }

  // ----- what one handler changes -----

  /** The flags after one event. */
  ghost predicate Flags(s: State, e: Event, after: State) {
    && after.timedOut == (s.timedOut || (e.Timeout? && s.timeoutArmed))
    && after.cancelled == (s.cancelled || (e.Abort? && s.abortArmed))
    && after.stdinWriteFailed == (s.stdinWriteFailed || e.StdinError?)
    && after.exitCode == (if e.Close? && !s.childClosed then e.code else s.exitCode)
    && (after.settled || (after.timeoutArmed == (s.timeoutArmed && !e.Timeout?) && after.abortArmed == (s.abortArmed && !e.Abort?)))
  }

  // A step that keeps the two listeners unless it settles.
  predicate KeepsListeners(s: State, after: State) {
    after.settled || (after.timeoutArmed == s.timeoutArmed && after.abortArmed == s.abortArmed)
  }

  lemma FinishListeners(c: Config, s: State, status: Status, errorType: Option<ErrorType>)
    ensures s.Finished(c, status, errorType).settled && KeepsListeners(s, s.OwnershipCleared())
  {
    hide OutputCapture.Render;
  }

  lemma TerminatedListeners(c: Config, s: State)
    ensures KeepsListeners(s, s.FinishedTerminated(c))
  {
    hide OutputCapture.Render, State.Finished;
    FinishListeners(c, s.OwnershipCleared(), Cancelled, Some(CancelledByCaller));
    FinishListeners(c, s.OwnershipCleared(), Failed, Some(TimedOut));
  }

  lemma ObservedListeners(c: Config, s: State, alive: bool)
    ensures KeepsListeners(s, s.Observed(c, alive))
  {
    hide State.FinishedTerminated;
    TerminatedListeners(c, s.Asked(c, alive));
  }

  lemma CloseListeners(c: Config, s: State, code: Option<int>, alive: bool, stillAlive: bool)
    ensures KeepsListeners(s, s.AfterClose(c, code, alive, stillAlive))
  {
    hide State.FinishedTerminated, State.Observed, State.Finished, State.OwnershipCleared;
    var closed := s.(childClosed := true, exitCode := code).Did(Closed(code));
    if Undisturbed(s) {
      FinishListeners(c, closed.OwnershipCleared(), Succeeded, None);
      FinishListeners(c, closed.OwnershipCleared(), Failed, Some(ExecutionError));
      FinishListeners(c, closed.OwnershipCleared(), Failed, Some(NonZeroExit));
    } else {
      TerminatedListeners(c, closed.Asked(c, alive));
      TerminatedListeners(c, closed);
      ObservedListeners(c, closed.Asked(c, alive).(pollArmed := true), stillAlive);
    }
  }

  // A signal is refused exactly when that settles the command.
  lemma SignalledListeners(c: Config, s: State, signal: Signal, answer: SignalAnswer)
    requires !s.settled
    ensures var after := s.Signalled(c, signal, answer);
            KeepsListeners(s, after) && (after.settled <==> s.owned && answer.Refused?)
  {
    hide State.Signalled;
    if s.owned && answer.Refused? {
      RefusedListeners(c, s, signal, answer.message);
    } else {
      UnrefusedListeners(c, s, signal, answer);
    }
  }

  lemma RefusedListeners(c: Config, s: State, signal: Signal, message: Text)
    requires s.owned
    ensures s.Signalled(c, signal, Refused(message)).settled
  {
    hide OutputCapture.Append, SignalMessage, State.Finished, State.OwnershipCleared;
    var noted := s.Did(Attempted(signal)).(stderr := OutputCapture.Append(s.stderr, SignalMessage(message), c.limit));
    FinishListeners(c, noted.OwnershipCleared(), Failed, Some(ExecutionError));
  }

  lemma UnrefusedListeners(c: Config, s: State, signal: Signal, answer: SignalAnswer)
    requires !s.settled && (!s.owned || !answer.Refused?)
    ensures KeepsListeners(s, s.Signalled(c, signal, answer)) && !s.Signalled(c, signal, answer).settled
  {
    hide OutputCapture.Append, SignalMessage, State.Finished, State.OwnershipCleared;
    FinishListeners(c, s.Did(Attempted(signal)).Did(GroupGone), Failed, None);
    FlagsKept(c, s.Did(Attempted(signal)).Did(GroupGone), Failed, None);
  }

  lemma StoppedListeners(c: Config, s: State, message: Text, answer: SignalAnswer)
    requires !s.settled
    ensures var after := s.Noted(c, message).Terminated(c, answer);
            KeepsListeners(s, after) && (after.settled <==> Refusal(s, !s.terminationStarted, answer) != [])
  {
    hide State.Noted, State.Signalled, SignalMessage;
    NotedShape(c, s, message);
    SignalledListeners(c, s.Noted(c, message).(terminationStarted := true), SIGTERM, answer);
  }

  lemma KillListeners(c: Config, s: State, answer: SignalAnswer)
    requires TimersFit(s) && !s.settled && s.killArmed
    ensures KeepsListeners(s, Handle(c, s, KillTimer(answer)))
    ensures Handle(c, s, KillTimer(answer)).settled && answer.Refused? ==> Refusal(s, true, answer) != []
    ensures Refusal(s, true, answer) != [] ==> Handle(c, s, KillTimer(answer)).settled
  {
    hide State.Signalled, State.FinishedTerminated, State.OwnershipCleared, SignalMessage;
    var after := s.(killArmed := false).Signalled(c, SIGKILL, answer);
    SignalledListeners(c, s.(killArmed := false), SIGKILL, answer);
    FinishListeners(c, after, Failed, None);
    FlagsKept(c, after, Failed, None);
    TerminatedListeners(c, after.OwnershipCleared());
    TerminatedSettles(c, after.OwnershipCleared());
  }

  lemma StoppedFacts(c: Config, s: State, alive: bool)
    requires Resolving(s)
    ensures SameFacts(s, s.FinishedTerminated(c)) && SameFacts(s, s.Observed(c, alive))
  {
    hide SettledAs, State.FinishedTerminated, State.Observed, SameFacts;
    TerminatedReports(c, s);
    ObservedReports(c, s, alive);
  }

  lemma FactsThen(a: State, b: State, after: State)
    requires SameFacts(a, b)
    ensures SameFacts(b, after) ==> SameFacts(a, after)
  {
  }

  lemma AskedAlone(c: Config, s: State, alive: bool)
    ensures var asked := s.Asked(c, alive);
            SameFacts(s, asked) && SameFacts(s, asked.(pollArmed := true)) && asked.settled == s.settled && asked.resolved == s.resolved
  {
    if !c.win32 && s.owned && !alive {
      assert s.Asked(c, alive) == s.Did(GroupGone);
    } else {
      assert s.Asked(c, alive) == s;
    }
  }

  lemma AskedFacts(c: Config, s: State, alive: bool, stillAlive: bool)
    requires Resolving(s)
    ensures var asked := s.Asked(c, alive);
            SameFacts(s, asked) && SameFacts(s, asked.FinishedTerminated(c)) && SameFacts(s, s.FinishedTerminated(c))
            && SameFacts(s, asked.(pollArmed := true).Observed(c, stillAlive))
  {
    hide SameFacts, State.Asked, State.FinishedTerminated, State.Observed;
    var asked := s.Asked(c, alive);
    AskedAlone(c, s, alive);
    StoppedFacts(c, s, alive);
    StoppedFacts(c, asked, alive);
    StoppedFacts(c, asked.(pollArmed := true), stillAlive);
    FactsThen(s, asked, asked.FinishedTerminated(c));
    FactsThen(s, asked.(pollArmed := true), asked.(pollArmed := true).Observed(c, stillAlive));
  }

  lemma AwaitedFacts(c: Config, s: State, alive: bool, stillAlive: bool)
    requires Resolving(s)
    ensures SameFacts(s, s.AwaitedGroup(c, alive, stillAlive))
  {
    AskedFacts(c, s, alive, stillAlive);
    hide SameFacts, State.Asked, State.FinishedTerminated, State.Observed;
    assert SameFacts(s, s) by { ItsFacts(s); }
  }

  lemma ItsFacts(s: State)
    ensures SameFacts(s, s)
  {
  }

  lemma AskedCloseFlags(c: Config, s: State, code: Option<int>, alive: bool, stillAlive: bool)
    requires Resolving(s) && !s.childClosed && !Undisturbed(s)
    ensures var closed := s.(childClosed := true, exitCode := code).Did(Closed(code));
            SameFacts(closed, s.AfterClose(c, code, alive, stillAlive))
  {
    hide State.AwaitedGroup;
    AwaitedFacts(c, s.(childClosed := true, exitCode := code).Did(Closed(code)), alive, stillAlive);
  }

  lemma UnaskedCloseFlags(c: Config, s: State, code: Option<int>, alive: bool, stillAlive: bool)
    requires Resolving(s) && !s.childClosed && Undisturbed(s)
    ensures var closed := s.(childClosed := true, exitCode := code).Did(Closed(code));
            SameFacts(closed, s.AfterClose(c, code, alive, stillAlive))
  {
    hide State.Finished, State.OwnershipCleared;
    var closed := s.(childClosed := true, exitCode := code).Did(Closed(code));
    FinishReports(c, closed, Succeeded, None);
    FinishReports(c, closed, Failed, Some(ExecutionError));
    FinishReports(c, closed, Failed, Some(NonZeroExit));
  }

  lemma CloseFlags(c: Config, s: State, code: Option<int>, alive: bool, stillAlive: bool)
    requires Resolving(s) && !s.childClosed
    ensures Flags(s, Close(code, alive, stillAlive), s.AfterClose(c, code, alive, stillAlive))
  {
    hide State.AfterClose;
    CloseListeners(c, s, code, alive, stillAlive);
    if Undisturbed(s) {
      UnaskedCloseFlags(c, s, code, alive, stillAlive);
    } else {
      AskedCloseFlags(c, s, code, alive, stillAlive);
    }
  }

  lemma StopFlags(c: Config, s: State, e: Event)
    requires Inv(c, s) && Resolving(s) && !s.settled && (e.Timeout? || e.Abort?)
    ensures Flags(s, e, Handle(c, s, e))
  {
    hide State.Noted, State.Terminated, AbortMessage, Consistent;
    if e.Timeout? && s.timeoutArmed {
      var s1 := s.(timeoutArmed := false, timedOut := true);
      StoppedListeners(c, s1, c.timeoutMessage, e.answer);
      NotedShape(c, s1, c.timeoutMessage);
      TerminateReports(c, s1.Noted(c, c.timeoutMessage), e.answer);
    } else if e.Abort? && s.abortArmed {
      var s1 := s.(abortArmed := false, cancelled := true);
      StoppedListeners(c, s1, AbortMessage(), e.answer);
      NotedShape(c, s1, AbortMessage());
      TerminateReports(c, s1.Noted(c, AbortMessage()), e.answer);
    }
  }

  lemma KillFlags(c: Config, s: State, answer: SignalAnswer)
    requires Inv(c, s) && Resolving(s) && !s.settled && s.killArmed
    ensures Flags(s, KillTimer(answer), Handle(c, s, KillTimer(answer)))
  {
    KillListeners(c, s, answer);
    hide OutputCapture.Render, State.Signalled, State.OwnershipCleared, State.FinishedTerminated, Inv;
    var after := s.(killArmed := false).Signalled(c, SIGKILL, answer);
    SignalledReports(c, s.(killArmed := false), SIGKILL, answer);
    ClearReports(after);
    TerminatedReports(c, after.OwnershipCleared());
  }

  lemma ErrorFlags(c: Config, s: State, message: Text)
    requires Resolving(s) && !s.settled
    ensures Flags(s, ChildError(message), Handle(c, s, ChildError(message)))
  {
    hide OutputCapture.Render, State.OwnershipCleared, State.Noted, State.Finished;
    ClearReports(s);
    NotedReports(c, s.OwnershipCleared(), message);
    FinishedReports(c, s.OwnershipCleared().Noted(c, message), Failed, Some(SpawnError));
  }

  lemma QuietFlags(c: Config, s: State, e: Event)
    requires !s.settled && ((e.KillTimer? && !s.killArmed) || (e.Close? && s.childClosed))
    ensures Flags(s, e, Handle(c, s, e))
  {
    hide State.Signalled, State.AfterClose, State.FinishedTerminated;
  }

  lemma DataFlags(c: Config, s: State, target: Stream, chunk: Text)
    ensures !s.settled ==> Flags(s, Data(target, chunk), Handle(c, s, Data(target, chunk)))
  {
    hide OutputCapture.Append;
    match target
    case Stdout => assert Handle(c, s, Data(Stdout, chunk)) == s.(stdout := OutputCapture.Append(s.stdout, chunk, c.limit));
    case Stderr => assert Handle(c, s, Data(Stderr, chunk)) == s.(stderr := OutputCapture.Append(s.stderr, chunk, c.limit));
  }

  lemma StdinErrorFlags(c: Config, s: State, message: Text)
    ensures !s.settled ==> Flags(s, StdinError(message), Handle(c, s, StdinError(message)))
  {
    hide State.Noted;
    NotedShape(c, s.(stdinWriteFailed := true), message);
  }

  lemma PollFlags(c: Config, s: State, alive: bool)
    requires Resolving(s) && !s.settled
    ensures Flags(s, Poll(alive), Handle(c, s, Poll(alive)))
  {
    hide OutputCapture.Render, State.Observed;
    ObservedReports(c, s, alive);
    ObservedListeners(c, s, alive);
  }

  lemma HandleFlags(c: Config, s: State, e: Event)
    requires Inv(c, s) && Resolving(s) && !s.settled
    ensures Flags(s, e, Handle(c, s, e))
  {
    if e.Close? && !s.childClosed {
      assert Handle(c, s, e) == s.AfterClose(c, e.code, e.alive, e.stillAlive);
      hide Inv, Flags, Handle, State.AfterClose;
      CloseFlags(c, s, e.code, e.alive, e.stillAlive);
    } else {
      hide Inv, Flags, Handle;
      match e
      case Timeout(_) => StopFlags(c, s, e);
      case Abort(_) => StopFlags(c, s, e);
      case Poll(alive) => PollFlags(c, s, alive);
      case ChildError(message) => ErrorFlags(c, s, message);
      case KillTimer(answer) =>
        if s.killArmed {
          KillFlags(c, s, answer);
        } else {
          QuietFlags(c, s, e);
        }
      case Close(_, _, _) => QuietFlags(c, s, e);
      case Data(target, chunk) => DataFlags(c, s, target, chunk);
      case StdinError(message) => StdinErrorFlags(c, s, message);
    }
  }

  // ----- every run -----

  /** The flags of a command that has not settled, or settles right now, say what has happened. */
  ghost predicate Tells(s: State, events: seq<Event>) {
    && s.timedOut == RanOutOfTime(events) && s.cancelled == Aborted(events) && s.stdinWriteFailed == StdinFailed(events)
    && s.childClosed == ClosedWith(events).Some? && s.exitCode == ClosedWith(events).GetOr(None)
  }

  ghost predicate Listens(s: State, events: seq<Event>) {
    s.timeoutArmed == !RanOutOfTime(events) && s.abortArmed == !Aborted(events)
  }

  lemma TellsStep(c: Config, s: State, before: seq<Event>, e: Event)
    requires Inv(c, s) && Resolving(s) && Watched(s) && !s.settled && Tells(s, before) && Listens(s, before)
    ensures Tells(Handle(c, s, e), before + [e])
    ensures !Handle(c, s, e).settled ==> Listens(Handle(c, s, e), before + [e])
  {
    HandleFlags(c, s, e);
    HandleWatched(c, s, e);
    Happened(before, e);
    hide Handle, Inv, Aborted, RanOutOfTime, StdinFailed;
    assert (before + [e])[..|before|] == before;
  }

  lemma RunStep(c: Config, before: seq<Event>, e: Event)
    ensures Run(c, before + [e]) == Handle(c, Run(c, before), e)
    ensures (before + [e])[..|before + [e]| - 1] == before
  {
    hide Handle;
    assert (before + [e])[..|before|] == before;
  }

  lemma TellsAtFirst(c: Config)
    ensures Tells(Run(c, []), []) && Listens(Run(c, []), []) && !Run(c, []).settled
  {
  }

  lemma TellsNext(c: Config, before: seq<Event>, e: Event)
    requires !Run(c, before).settled && Tells(Run(c, before), before) && Listens(Run(c, before), before)
    ensures Tells(Run(c, before + [e]), before + [e])
    ensures !Run(c, before + [e]).settled ==> Listens(Run(c, before + [e]), before + [e])
  {
    hide Run, Handle, Inv, Tells, Listens, Watched, Resolving;
    RunStep(c, before, e);
    RunReports(c, before);
    RunKeeps(c, before);
    RunWatched(c, before);
    TellsStep(c, Run(c, before), before, e);
  }

  lemma {:induction false} RunTells(c: Config, events: seq<Event>)
    requires events != [] ==> !Run(c, events[..|events| - 1]).settled
    ensures Tells(Run(c, events), events)
    ensures !Run(c, events).settled ==> Listens(Run(c, events), events)
  {
    hide Run, Tells, Listens;
    if events == [] {
      TellsAtFirst(c);
    } else {
      var before, e := events[..|events| - 1], events[|events| - 1];
      if before != [] && Run(c, before[..|before| - 1]).settled {
        SettledStays(c, before);
      }
      RunTells(c, before);
      TellsNext(c, before, e);
      assert before + [e] == events;
    }
  }

  lemma SettledStays(c: Config, events: seq<Event>)
    requires events != [] && Run(c, events[..|events| - 1]).settled
    ensures Run(c, events).settled
  {
    hide Handle, Inv;
    var before := events[..|events| - 1];
    RunReports(c, before);
    RunKeeps(c, before);
    HandleReports(c, Run(c, before), events[|events| - 1]);
  }

  // ----- stderr -----

  lemma ToldSnoc(c: Config, before: seq<Event>, e: Event)
    ensures Told(c, before + [e]) == Told(c, before) + Adds(c, before, e, Flatten(Told(c, before)) == [])
  {
    hide Adds, Flatten;
    assert (before + [e])[..|before|] == before;
  }

  // What an event that does not settle the command adds, and what the one that does adds on top.
  lemma SaidIsAdded(c: Config, s: State, before: seq<Event>, e: Event, silent: bool)
    requires Inv(c, s) && Resolving(s) && !s.settled && Tells(s, before) && Listens(s, before)
    ensures Said(c, s, !silent, e) == Adds(c, before, e, silent) + if Handle(c, s, e).settled then Complaint(e) else []
  {
    SaidRefusal(c, s, e);
    hide Inv, Handle, SignalMessage, AbortMessage, RanOutOfTime, Aborted, StdinFailed, ClosedWith, Refusal, Complaint;
    match e
    case ChildError(_) => assert Complaint(e) == [] by { NoComplaint(e); }
    case Data(_, _) => assert Complaint(e) == [] by { NoComplaint(e); }
    case StdinError(_) => assert Complaint(e) == [] by { NoComplaint(e); }
    case Close(_, _, _) => assert Complaint(e) == [] by { NoComplaint(e); }
    case Poll(_) => assert Complaint(e) == [] by { NoComplaint(e); }
    case _ =>
  }

  lemma NoComplaint(e: Event)
    ensures !e.Timeout? && !e.Abort? && !e.KillTimer? ==> Complaint(e) == []
  {
  }

  lemma SaidIsTold(c: Config, s: State, before: seq<Event>, e: Event)
    requires Inv(c, s) && Resolving(s) && !s.settled && Tells(s, before) && Listens(s, before)
    ensures var silent := Flatten(Told(c, before)) == [];
            Told(c, before) + Said(c, s, !silent, e) == Told(c, before + [e]) + if Handle(c, s, e).settled then Complaint(e) else []
  {
    hide Inv, Handle, Tells, Listens, Said, Adds, Told, Complaint;
    ToldSnoc(c, before, e);
    SaidIsAdded(c, s, before, e, Flatten(Told(c, before)) == []);
  }

  // The refusals that count are those that settle.
  lemma SaidRefusal(c: Config, s: State, e: Event)
    requires Inv(c, s) && !s.settled
    ensures e.Timeout? && s.timeoutArmed ==>
              Refusal(s, !s.terminationStarted && !s.settled, e.answer) == if Handle(c, s, e).settled then Complaint(e) else []
    ensures e.Abort? && s.abortArmed ==>
              Refusal(s, !s.terminationStarted && !s.settled, e.answer) == if Handle(c, s, e).settled then Complaint(e) else []
    ensures e.KillTimer? ==> Refusal(s, s.killArmed, e.answer) == if Handle(c, s, e).settled then Complaint(e) else []
    ensures (e.Timeout? && !s.timeoutArmed) || (e.Abort? && !s.abortArmed) ==> !Handle(c, s, e).settled
  {
    hide Consistent, SignalMessage, AbortMessage, State.Noted, State.Terminated, State.Signalled, State.FinishedTerminated;
    match e
    case Timeout(answer) => StoppedListeners(c, s.(timeoutArmed := false, timedOut := true), c.timeoutMessage, answer);
    case Abort(answer) => StoppedListeners(c, s.(abortArmed := false, cancelled := true), AbortMessage(), answer);
    case KillTimer(answer) =>
      if s.killArmed {
        KillListeners(c, s, answer);
      }
    case _ =>
  }

  lemma {:induction false} PiecesAreTold(c: Config, events: seq<Event>)
    requires events != [] ==> !Run(c, events[..|events| - 1]).settled
    ensures StderrPieces(c, events)
         == Told(c, events) + if Run(c, events).settled then Complaint(events[|events| - 1]) else []
  {
    hide Run, Complaint, Told, StderrPieces;
    if events == [] {
      NoPieces(c);
    } else {
      var before, e := events[..|events| - 1], events[|events| - 1];
      if before != [] && Run(c, before[..|before| - 1]).settled {
        SettledStays(c, before);
      }
      PiecesAreTold(c, before);
      assert Told(c, before) + [] == Told(c, before);
      PiecesStep(c, before, e);
      assert before + [e] == events;
    }
  }

  lemma NoPieces(c: Config)
    ensures StderrPieces(c, []) == [] && Told(c, []) == [] && !Run(c, []).settled
  {
  }

  lemma PiecesSnoc(c: Config, before: seq<Event>, e: Event)
    ensures StderrPieces(c, before + [e])
         == StderrPieces(c, before) + Said(c, Run(c, before), Flatten(StderrPieces(c, before)) != [], e)
  {
    hide Said, Flatten, Run;
    assert (before + [e])[..|before|] == before;
  }

  lemma PiecesStep(c: Config, before: seq<Event>, e: Event)
    requires before != [] ==> !Run(c, before[..|before| - 1]).settled
    requires !Run(c, before).settled && StderrPieces(c, before) == Told(c, before)
    ensures StderrPieces(c, before + [e])
         == Told(c, before + [e]) + if Run(c, before + [e]).settled then Complaint(e) else []
  {
    PiecesSnoc(c, before, e);
    hide Run, Handle, Inv, Tells, Listens, Said, Complaint, Told, Flatten, StderrPieces;
    RunStep(c, before, e);
    RunReports(c, before);
    RunKeeps(c, before);
    RunTells(c, before);
    SaidIsTold(c, Run(c, before), before, e);
  }

  // ----- the verdict -----

  lemma ClosedSnoc(before: seq<Event>, e: Event)
    ensures ClosedWith(before + [e])
         == if ClosedWith(before).Some? then ClosedWith(before) else if e.Close? then Some(e.code) else None
  {
    assert (before + [e])[..|before|] == before;
  }

  lemma VerdictOf(s: State, before: seq<Event>, e: Event, after: State, r: Report)
    requires Tells(s, before) && Tells(after, before + [e]) && Explained(s, e, after, r)
    requires e.Close? ==> !s.childClosed
    ensures (r.status, r.errorType) == Verdict(before + [e])
    ensures r.exitCode == ClosedWith(before + [e]).GetOr(None) && (r.timedOut <==> RanOutOfTime(before + [e]))
  {
    Happened(before, e);
    ClosedSnoc(before, e);
    hide Aborted, RanOutOfTime, StdinFailed, ClosedWith;
    assert (before + [e])[|before|] == e;
  }

  lemma VerdictNow(c: Config, before: seq<Event>, e: Event, r: Report)
    requires !Run(c, before).settled && Run(c, before + [e]).settled
    requires Explained(Run(c, before), e, Run(c, before + [e]), r)
    ensures (r.status, r.errorType) == Verdict(before + [e])
    ensures r.exitCode == ClosedWith(before + [e]).GetOr(None) && (r.timedOut <==> RanOutOfTime(before + [e]))
  {
    hide Handle, Tells, Listens, Explained, Verdict, RanOutOfTime, ClosedWith;
    var events := before + [e];
    assert events[..|before|] == before;
    if before != [] && Run(c, before[..|before| - 1]).settled {
      SettledStays(c, before);
    }
    RunTells(c, before);
    RunTells(c, events);
    if e.Close? && Run(c, before).childClosed {
      CloseIsFirst(c, Run(c, before), e);
    }
    VerdictOf(Run(c, before), before, e, Run(c, events), r);
  }

  // A second close settles nothing.
  lemma CloseIsFirst(c: Config, s: State, e: Event)
    requires e.Close? && s.childClosed
    ensures Handle(c, s, e).settled == s.settled
  {
  }

  /** The event at `k` settles the command and the report `r` is what had happened by then. */
  ghost predicate SettlesAt(c: Config, events: seq<Event>, k: nat, r: Report) {
    && k < |events| && !Run(c, events[..k]).settled && Run(c, events[..k + 1]).settled
    && var past := events[..k + 1];
       var stdout, stderr := Chunks(events[..k], Stdout), Told(c, past) + Complaint(events[k]);
       && (r.status, r.errorType) == Verdict(past)
       && r.exitCode == ClosedWith(past).GetOr(None) && (r.timedOut <==> RanOutOfTime(past))
       && r.stdout == OutputCapture.Render(OutputCapture.AppendAll(stdout, c.limit), c.limit)
       && r.stderr == OutputCapture.Render(OutputCapture.AppendAll(stderr, c.limit), c.limit)
       && (r.outputTruncated <==> Overflows(stdout, c.limit) || Overflows(stderr, c.limit))
  }

  lemma ReportSettles(c: Config, events: seq<Event>, k: nat, r: Report)
    requires ReportedAt(c, events, k, r)
    ensures SettlesAt(c, events, k, r)
  {
    hide Run, Explained, Verdict, StderrPieces, Told, Complaint, Chunks, Overflows, RanOutOfTime, ClosedWith;
    hide OutputCapture.Render, OutputCapture.AppendAll;
    var past := events[..k + 1];
    assert past == events[..k] + [events[k]] && past[..|past| - 1] == events[..k];
    VerdictNow(c, events[..k], events[k], r);
    PiecesAreTold(c, past);
  }

  /** The report of a settled command is told by the events: by the one that settled it and by what had happened until then,
      whatever the answers of the system, and whatever happens later. */
  lemma ReportFollowsEvents(c: Config, events: seq<Event>)
    requires Run(c, events).settled
    ensures Run(c, events).resolved.Some?
    ensures exists k: nat :: SettlesAt(c, events, k, Run(c, events).resolved.value)
  {
    hide ReportedAt, SettlesAt;
    ReportIsExplained(c, events);
    var k: nat :| ReportedAt(c, events, k, Run(c, events).resolved.value);
    ReportSettles(c, events, k, Run(c, events).resolved.value);
  }

  /** A command that nobody asked to end settles with its first close. */
  lemma UnaskedCloseSettles(c: Config, events: seq<Event>)
    requires ClosedWith(events).Some? && !Aborted(events) && !RanOutOfTime(events)
    ensures Run(c, events).settled
  {
    if !Run(c, events).settled {
      var before := events[..|events| - 1];
      if Run(c, before).settled {
        SettledStays(c, events);
      }
      RunTells(c, events);
      RunWatched(c, events);
      RunKeeps(c, events);
    }
  }

  // ----- the signals that are due -----

  // A step that only adds to the log, and starts no termination.
  predicate Grows(s: State, after: State) {
    s.log <= after.log && after.terminationStarted == s.terminationStarted
  }

  lemma FinishGrows(c: Config, s: State, status: Status, errorType: Option<ErrorType>)
    ensures Grows(s, s.OwnershipCleared()) && Grows(s, s.Finished(c, status, errorType))
  {
    hide OutputCapture.Render;
  }

  lemma TerminatedGrows(c: Config, s: State)
    ensures Grows(s, s.FinishedTerminated(c))
  {
    hide State.Finished, State.OwnershipCleared;
    FinishGrows(c, s, Failed, None);
    FinishGrows(c, s.OwnershipCleared(), Cancelled, Some(CancelledByCaller));
    FinishGrows(c, s.OwnershipCleared(), Failed, Some(TimedOut));
  }

  lemma ObservedGrows(c: Config, s: State, alive: bool)
    ensures Grows(s, s.Asked(c, alive)) && Grows(s, s.Observed(c, alive))
  {
    hide State.FinishedTerminated;
    TerminatedGrows(c, s.Asked(c, alive));
  }

  lemma CloseGrows(c: Config, s: State, code: Option<int>, alive: bool, stillAlive: bool)
    ensures Grows(s, s.AfterClose(c, code, alive, stillAlive))
  {
    hide State.FinishedTerminated, State.Observed, State.Asked, State.Finished, State.OwnershipCleared;
    var closed := s.(childClosed := true, exitCode := code).Did(Closed(code));
    if Undisturbed(s) {
      FinishGrows(c, closed, Failed, None);
      FinishGrows(c, closed.OwnershipCleared(), Succeeded, None);
      FinishGrows(c, closed.OwnershipCleared(), Failed, Some(ExecutionError));
      FinishGrows(c, closed.OwnershipCleared(), Failed, Some(NonZeroExit));
    } else {
      ObservedGrows(c, closed, alive);
      TerminatedGrows(c, closed.Asked(c, alive));
      TerminatedGrows(c, closed);
      ObservedGrows(c, closed.Asked(c, alive).(pollArmed := true), stillAlive);
    }
  }

  lemma StaysLogged(log: seq<Action>, later: seq<Action>, a: Action)
    requires a in log && log <= later
    ensures a in later
  {
    var i :| 0 <= i < |log| && log[i] == a;
    assert later[i] == a;
  }

  // An owned group is really sent the signal.
  lemma SignalledGrows(c: Config, s: State, signal: Signal, answer: SignalAnswer)
    requires s.owned
    ensures Grows(s.Did(Attempted(signal)), s.Signalled(c, signal, answer))
  {
    hide OutputCapture.Append, SignalMessage, State.OwnershipCleared, State.Finished;
    var tried := s.Did(Attempted(signal));
    match answer
    case Delivered =>
    case NoSuchProcess => FinishGrows(c, tried.Did(GroupGone), Failed, None);
    case Refused(message) =>
      var noted := tried.(stderr := OutputCapture.Append(s.stderr, SignalMessage(message), c.limit));
      FinishGrows(c, noted, Failed, None);
      FinishGrows(c, noted.OwnershipCleared(), Failed, Some(ExecutionError));
  }

  lemma SignalIsLogged(c: Config, s: State, signal: Signal, answer: SignalAnswer)
    ensures s.log <= s.Signalled(c, signal, answer).log
    ensures s.Signalled(c, signal, answer).terminationStarted == s.terminationStarted
    ensures s.owned ==> Attempted(signal) in s.Signalled(c, signal, answer).log
  {
    if s.owned {
      SignalledGrows(c, s, signal, answer);
      hide State.Signalled;
      assert s.Did(Attempted(signal)).log[|s.log|] == Attempted(signal);
      StaysLogged(s.Did(Attempted(signal)).log, s.Signalled(c, signal, answer).log, Attempted(signal));
    }
  }

  /** A group is owned until the command is asked to end, and from then on it has been told politely. */
  predicate Polite(c: Config, s: State) {
    && (c.hasPid && !s.settled && !s.terminationStarted ==> s.owned)
    && (c.hasPid && s.terminationStarted ==> Attempted(SIGTERM) in s.log)
  }

  lemma TermGrows(c: Config, s: State, answer: SignalAnswer)
    requires Polite(c, s)
    ensures s.log <= s.Terminated(c, answer).log && Polite(c, s.Terminated(c, answer))
  {
    hide State.Signalled;
    if !s.terminationStarted && !s.settled {
      SignalIsLogged(c, s.(terminationStarted := true), SIGTERM, answer);
    }
  }

  // A step that adds to the log, and gives up the group only as it settles or because the command was asked to end.
  lemma GrowsPolitely(c: Config, s: State, after: State)
    requires Polite(c, s) && Grows(s, after) && (after.settled || s.terminationStarted || after.owned == s.owned)
    requires s.settled ==> after.settled
    ensures Polite(c, after)
  {
    if c.hasPid && s.terminationStarted {
      StaysLogged(s.log, after.log, Attempted(SIGTERM));
    }
  }

  lemma CloseIsPolite(c: Config, s: State, code: Option<int>, alive: bool, stillAlive: bool)
    requires Inv(c, s) && Resolving(s) && Polite(c, s) && !s.childClosed
    ensures Polite(c, s.AfterClose(c, code, alive, stillAlive))
  {
    CloseGrows(c, s, code, alive, stillAlive);
    CloseWatched(c, s, code, alive, stillAlive);
    CloseReports(c, s, code, alive, stillAlive);
    CloseKeeps(c, s, code, alive, stillAlive);
    hide Consistent, State.AfterClose, Explained, Shows;
    GrowsPolitely(c, s, s.AfterClose(c, code, alive, stillAlive));
  }

  lemma StopIsPolite(c: Config, s: State, e: Event)
    requires Polite(c, s) && (e.Timeout? || e.Abort?)
    ensures Polite(c, Handle(c, s, e)) && s.log <= Handle(c, s, e).log
  {
    hide State.Noted, State.Terminated, AbortMessage;
    if e.Timeout? && s.timeoutArmed {
      NotedShape(c, s.(timeoutArmed := false, timedOut := true), c.timeoutMessage);
      TermGrows(c, s.(timeoutArmed := false, timedOut := true).Noted(c, c.timeoutMessage), e.answer);
    } else if e.Abort? && s.abortArmed {
      NotedShape(c, s.(abortArmed := false, cancelled := true), AbortMessage());
      TermGrows(c, s.(abortArmed := false, cancelled := true).Noted(c, AbortMessage()), e.answer);
    }
  }

  lemma KillGrows(c: Config, s: State, answer: SignalAnswer)
    requires s.killArmed
    ensures var after := Handle(c, s, KillTimer(answer));
            s.log <= after.log && after.terminationStarted == s.terminationStarted && (s.owned ==> Attempted(SIGKILL) in after.log)
  {
    hide State.Signalled, State.OwnershipCleared, State.FinishedTerminated;
    var tried := s.(killArmed := false).Signalled(c, SIGKILL, answer);
    SignalIsLogged(c, s.(killArmed := false), SIGKILL, answer);
    FinishGrows(c, tried, Failed, None);
    TerminatedGrows(c, tried.OwnershipCleared());
    if s.owned {
      StaysLogged(tried.log, Handle(c, s, KillTimer(answer)).log, Attempted(SIGKILL));
    }
  }

  lemma ErrorGrows(c: Config, s: State, message: Text)
    ensures Grows(s, Handle(c, s, ChildError(message))) && Handle(c, s, ChildError(message)).settled
  {
    hide State.OwnershipCleared, State.Noted, State.Finished;
    FinishGrows(c, s, Failed, None);
    FlagsKept(c, s, Failed, None);
    NotedShape(c, s.OwnershipCleared(), message);
    FinishGrows(c, s.OwnershipCleared().Noted(c, message), Failed, Some(SpawnError));
    FlagsKept(c, s.OwnershipCleared().Noted(c, message), Failed, Some(SpawnError));
  }

  // What is captured and noted leaves the log and the flags alone.
  predicate Unmoved(s: State, after: State) {
    Grows(s, after) && after.owned == s.owned && after.settled == s.settled
  }

  lemma DataMoves(c: Config, s: State, target: Stream, chunk: Text)
    ensures Unmoved(s, Handle(c, s, Data(target, chunk)))
  {
    hide OutputCapture.Append;
  }

  lemma StdinErrorMoves(c: Config, s: State, message: Text)
    ensures Unmoved(s, Handle(c, s, StdinError(message)))
  {
    hide State.Noted;
    NotedShape(c, s.(stdinWriteFailed := true), message);
  }

  lemma PollIsPolite(c: Config, s: State, alive: bool)
    requires Inv(c, s) && Resolving(s) && Polite(c, s)
    ensures Polite(c, Handle(c, s, Poll(alive))) && s.log <= Handle(c, s, Poll(alive)).log
  {
    ObservedGrows(c, s, alive);
    ObservedReports(c, s, alive);
    hide Consistent, State.Observed, SettledAs;
    if s.pollArmed {
      GrowsPolitely(c, s, s.Observed(c, alive));
    }
  }

  lemma HandleIsPolite(c: Config, s: State, e: Event)
    requires Inv(c, s) && Resolving(s) && Polite(c, s)
    ensures Polite(c, Handle(c, s, e)) && s.log <= Handle(c, s, e).log
  {
    match e
    case Timeout(_) => StopIsPolite(c, s, e);
    case Abort(_) => StopIsPolite(c, s, e);
    case Poll(alive) => PollIsPolite(c, s, alive);
    case Close(code, alive, stillAlive) => CloseEventIsPolite(c, s, code, alive, stillAlive);
    case KillTimer(answer) => KillIsPolite(c, s, answer);
    case ChildError(message) =>
      ErrorGrows(c, s, message);
      hide Handle, Inv;
      GrowsPolitely(c, s, Handle(c, s, e));
    case Data(target, chunk) =>
      DataMoves(c, s, target, chunk);
      hide Handle, Inv;
      GrowsPolitely(c, s, Handle(c, s, e));
    case StdinError(message) =>
      StdinErrorMoves(c, s, message);
      hide Handle, Inv;
      GrowsPolitely(c, s, Handle(c, s, e));
  }

  lemma CloseEventIsPolite(c: Config, s: State, code: Option<int>, alive: bool, stillAlive: bool)
    requires Inv(c, s) && Resolving(s) && Polite(c, s)
    ensures var after := Handle(c, s, Close(code, alive, stillAlive)); Polite(c, after) && s.log <= after.log
  {
    hide State.AfterClose, Inv, Polite;
    if !s.childClosed {
      CloseIsPolite(c, s, code, alive, stillAlive);
      CloseGrows(c, s, code, alive, stillAlive);
    }
  }

  lemma KillIsPolite(c: Config, s: State, answer: SignalAnswer)
    requires Inv(c, s) && Polite(c, s)
    ensures var after := Handle(c, s, KillTimer(answer)); Polite(c, after) && s.log <= after.log
  {
    if s.killArmed {
      KillGrows(c, s, answer);
      hide Handle, Consistent;
      if c.hasPid {
        StaysLogged(s.log, Handle(c, s, KillTimer(answer)).log, Attempted(SIGTERM));
      }
    }
  }

  lemma {:induction false} RunIsPolite(c: Config, events: seq<Event>)
    ensures Polite(c, Run(c, events))
    ensures events != [] ==> Run(c, events[..|events| - 1]).log <= Run(c, events).log
  {
    if events != [] {
      hide Handle, Inv, Polite;
      var before := events[..|events| - 1];
      RunIsPolite(c, before);
      RunKeeps(c, before);
      RunReports(c, before);
      HandleIsPolite(c, Run(c, before), events[|events| - 1]);
    }
  }

  lemma {:induction false} LogGrows(c: Config, events: seq<Event>, j: nat)
    requires j <= |events|
    ensures Run(c, events[..j]).log <= Run(c, events).log
  {
    if j == |events| {
      assert events[..j] == events;
    } else {
      hide Run;
      var before := events[..|events| - 1];
      LogGrows(c, before, j);
      assert before[..j] == events[..j];
      RunIsPolite(c, events);
    }
  }

  /** A command that is aborted or runs out of time before it has settled is sent SIGTERM if it has a process, and the kill
      timer that fires while its group is still owned sends SIGKILL. */
  lemma SignalsAreSent(c: Config, events: seq<Event>, j: nat)
    requires c.hasPid && j < |events| && !Run(c, events[..j]).settled
    ensures events[j].Abort? || events[j].Timeout? ==> Attempted(SIGTERM) in Run(c, events).log
    ensures events[j].KillTimer? && Attempted(SIGTERM) in Run(c, events[..j]).log && Released !in Run(c, events[..j]).log ==>
              Attempted(SIGKILL) in Run(c, events).log
  {
    var past, s := events[..j + 1], Run(c, events[..j]);
    assert past[..|past| - 1] == events[..j] && past[j] == events[j];
    LogGrows(c, events, j + 1);
    RunKeeps(c, events[..j]);
    if events[j].Abort? || events[j].Timeout? {
      AskedIsTold(c, past);
      StaysLogged(Run(c, past).log, Run(c, events).log, Attempted(SIGTERM));
    } else if events[j].KillTimer? && Attempted(SIGTERM) in s.log && Released !in s.log {
      assert s.killArmed && s.owned;
      KillGrows(c, s, events[j].answer);
      StaysLogged(Run(c, past).log, Run(c, events).log, Attempted(SIGKILL));
    }
  }

  lemma AskedIsTold(c: Config, past: seq<Event>)
    requires c.hasPid && past != [] && !Run(c, past[..|past| - 1]).settled
    requires past[|past| - 1].Abort? || past[|past| - 1].Timeout?
    ensures Attempted(SIGTERM) in Run(c, past).log
  {
    RunTells(c, past);
    RunKeeps(c, past);
    RunIsPolite(c, past);
    hide Run, Orderly, HasSettled, HasClosed, TimersFit, StdinFailed, ClosedWith;
    assert Aborted(past) || RanOutOfTime(past);
  }
}

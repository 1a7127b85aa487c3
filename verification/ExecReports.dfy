/** What a command reports, over every order of events: the event that settles it, the reason, and the output. */
module ExecReports {
  import OutputCapture
  import opened Ascii
  import opened ExecMachine
  import opened ExecSafety
  import opened Sequences
  import opened Wrappers

  // ----- who settles a command -----

  predicate SignalRefused(e: Event) {
    (e.Timeout? || e.Abort? || e.KillTimer?) && e.answer.Refused?
  }

  // The events after which a stopped command may be found to have ended.
  predicate Observes(e: Event) {
    e.Close? || e.Poll? || (e.KillTimer? && !e.answer.Refused?)
  }

  /** Which event settles a command in which way. */
  predicate Explained(s: State, e: Event, after: State, r: Report) {
    && r.exitCode == after.exitCode && r.timedOut == after.timedOut
    && match r.status
       case Succeeded => r.errorType.None? && e.Close? && e.code == Some(0) && Undisturbed(s) && !s.stdinWriteFailed
       case Cancelled => r.errorType == Some(CancelledByCaller) && after.cancelled && Observes(e)
       case Failed =>
         match r.errorType
         case Some(SpawnError) => e.ChildError?
         case Some(NonZeroExit) => e.Close? && e.code != Some(0) && Undisturbed(s) && !s.stdinWriteFailed
         case Some(ExecutionError) => (e.Close? && Undisturbed(s) && s.stdinWriteFailed) || SignalRefused(e)
         case Some(TimedOut) => after.timedOut && !after.cancelled && Observes(e)
         case _ => false
  }

  // The report carries what was captured.
  predicate Shows(c: Config, s: State, r: Report) {
    && r.stdout == OutputCapture.Render(s.stdout, c.limit) && r.stderr == OutputCapture.Render(s.stderr, c.limit)
    && r.outputTruncated == (s.stdout.truncated || s.stderr.truncated)
  }

  // What one handler makes of a command that is not settled yet, and that nothing changes in one that is.
  ghost predicate Reports(c: Config, s: State, e: Event, after: State) {
    && (s.resolved.Some? <==> s.settled) && (after.resolved.Some? <==> after.settled)
    && after.stdout == (if e.Data? && e.target == Stdout then OutputCapture.Append(s.stdout, e.chunk, c.limit) else s.stdout)
    && (s.settled ==> after.settled && after.resolved == s.resolved)
    && (!s.settled && after.settled ==>
          && after.stdout == s.stdout && Shows(c, after, after.resolved.value)
          && Explained(s, e, after, after.resolved.value))
  }

  predicate Resolving(s: State) {
    s.resolved.Some? <==> s.settled
  }

  predicate SameFacts(s: State, after: State) {
    && after.stdout == s.stdout && after.exitCode == s.exitCode && after.stdinWriteFailed == s.stdinWriteFailed
    && after.timedOut == s.timedOut && after.cancelled == s.cancelled
  }

  predicate SettledAs(c: Config, after: State, status: Status, errorType: Option<ErrorType>) {
    && after.settled && after.resolved.Some?
    && after.resolved.value.status == status && after.resolved.value.errorType == errorType
    && Shows(c, after, after.resolved.value)
    && after.resolved.value.exitCode == after.exitCode && after.resolved.value.timedOut == after.timedOut
  }

  // What settling now makes of a command.
  predicate SettlesAs(c: Config, s: State, after: State, status: Status, errorType: Option<ErrorType>) {
    && Resolving(after) && SameFacts(s, after) && after.stderr == s.stderr
    && if s.settled then after.settled && after.resolved == s.resolved else SettledAs(c, after, status, errorType)
  }

  lemma FinishedReports(c: Config, s: State, status: Status, errorType: Option<ErrorType>)
    requires Resolving(s)
    ensures SettlesAs(c, s, s.Finished(c, status, errorType), status, errorType)
  {
    hide OutputCapture.Render;
  }

  lemma FinishReports(c: Config, s: State, status: Status, errorType: Option<ErrorType>)
    requires Resolving(s)
    ensures SettlesAs(c, s, s.OwnershipCleared().Finished(c, status, errorType), status, errorType)
  {
    hide OutputCapture.Render, State.Finished, State.OwnershipCleared;
    ClearReports(s);
    FinishedReports(c, s.OwnershipCleared(), status, errorType);
  }

  // A step that at most settles a stopped command.
  predicate MayStop(c: Config, s: State, after: State) {
    && Resolving(after) && SameFacts(s, after) && after.stderr == s.stderr
    && (s.settled ==> after.settled && after.resolved == s.resolved)
    && (!s.settled && after.settled ==>
          SettledAs(c, after, if s.cancelled then Cancelled else Failed, Some(if s.cancelled then CancelledByCaller else TimedOut)))
  }

  lemma TerminatedReports(c: Config, s: State)
    requires Resolving(s)
    ensures MayStop(c, s, s.FinishedTerminated(c))
  {
    hide OutputCapture.Render, State.OwnershipCleared, State.Finished;
    FinishReports(c, s, if s.cancelled then Cancelled else Failed, Some(if s.cancelled then CancelledByCaller else TimedOut));
  }

  lemma ObservedReports(c: Config, s: State, alive: bool)
    requires Resolving(s)
    ensures MayStop(c, s, s.Observed(c, alive))
  {
    hide OutputCapture.Render, State.FinishedTerminated;
    TerminatedReports(c, s.Asked(c, alive));
  }

  lemma UndisturbedCloseReports(c: Config, s: State, code: Option<int>, alive: bool, stillAlive: bool)
    requires Resolving(s) && !s.childClosed && Undisturbed(s)
    ensures Reports(c, s, Close(code, alive, stillAlive), s.AfterClose(c, code, alive, stillAlive))
    ensures s.AfterClose(c, code, alive, stillAlive).stderr == s.stderr
  {
    hide OutputCapture.Render, OutputCapture.Append, State.OwnershipCleared, State.Finished;
    var closed := s.(childClosed := true, exitCode := code).Did(Closed(code));
    FinishReports(c, closed, if s.stdinWriteFailed || code != Some(0) then Failed else Succeeded,
                  if s.stdinWriteFailed then Some(ExecutionError) else if code == Some(0) then None else Some(NonZeroExit));
  }

  lemma StoppedCloseReports(c: Config, s: State, code: Option<int>, alive: bool, stillAlive: bool)
    requires Inv(c, s) && Resolving(s) && !s.childClosed && !Undisturbed(s)
    ensures Reports(c, s, Close(code, alive, stillAlive), s.AfterClose(c, code, alive, stillAlive))
    ensures s.AfterClose(c, code, alive, stillAlive).stderr == s.stderr
  {
    hide OutputCapture.Render, OutputCapture.Append, State.FinishedTerminated, State.Observed, Orderly, HasSettled, HasClosed;
    var closed := s.(childClosed := true, exitCode := code).Did(Closed(code));
    if closed.GroupAlive(c, alive) {
      ObservedReports(c, closed.(pollArmed := true), stillAlive);
    } else {
      TerminatedReports(c, closed.Asked(c, alive));
    }
  }

  lemma CloseReports(c: Config, s: State, code: Option<int>, alive: bool, stillAlive: bool)
    requires Inv(c, s) && Resolving(s) && !s.childClosed
    ensures Reports(c, s, Close(code, alive, stillAlive), s.AfterClose(c, code, alive, stillAlive))
    ensures s.AfterClose(c, code, alive, stillAlive).stderr == s.stderr
  {
    hide Inv, Reports, State.AfterClose;
    if Undisturbed(s) {
      UndisturbedCloseReports(c, s, code, alive, stillAlive);
    } else {
      StoppedCloseReports(c, s, code, alive, stillAlive);
    }
  }

  // A step that at most settles a command whose signal was refused.
  predicate MayFail(c: Config, s: State, answer: SignalAnswer, after: State) {
    && Resolving(after) && SameFacts(s, after)
    && (s.settled ==> after.settled && after.resolved == s.resolved)
    && (!s.settled && after.settled ==> answer.Refused? && SettledAs(c, after, Failed, Some(ExecutionError)))
  }

  lemma RefusedReports(c: Config, s: State, signal: Signal, message: Text)
    requires Resolving(s) && s.owned
    ensures MayFail(c, s, Refused(message), s.Signalled(c, signal, Refused(message)))
    ensures s.Signalled(c, signal, Refused(message)).settled
  {
    hide OutputCapture.Render, OutputCapture.Append, SignalMessage, State.Finished, State.OwnershipCleared;
    var noted := s.Did(Attempted(signal)).(stderr := OutputCapture.Append(s.stderr, SignalMessage(message), c.limit));
    FinishReports(c, noted, Failed, Some(ExecutionError));
  }

  lemma UnrefusedReports(c: Config, s: State, signal: Signal, answer: SignalAnswer)
    requires Resolving(s) && (!s.owned || !answer.Refused?)
    ensures var after := s.Signalled(c, signal, answer);
            SameFacts(s, after) && after.settled == s.settled && after.resolved == s.resolved
  {
    hide OutputCapture.Append, SignalMessage, State.Finished, State.OwnershipCleared;
    ClearReports(s.Did(Attempted(signal)).Did(GroupGone));
  }

  lemma SignalledReports(c: Config, s: State, signal: Signal, answer: SignalAnswer)
    requires Resolving(s)
    ensures MayFail(c, s, answer, s.Signalled(c, signal, answer))
    ensures s.owned && answer.Refused? ==> s.Signalled(c, signal, answer).settled
  {
    hide SettledAs, State.Signalled;
    if s.owned && answer.Refused? {
      RefusedReports(c, s, signal, answer.message);
    } else {
      UnrefusedReports(c, s, signal, answer);
    }
  }

  lemma ClearReports(s: State)
    ensures var after := s.OwnershipCleared();
            SameFacts(s, after) && after.stderr == s.stderr && after.settled == s.settled && after.resolved == s.resolved
  {
  }

  lemma TerminateReports(c: Config, s: State, answer: SignalAnswer)
    requires Resolving(s)
    ensures MayFail(c, s, answer, s.Terminated(c, answer))
  {
    hide OutputCapture.Render, State.Signalled;
    SignalledReports(c, s.(terminationStarted := true), SIGTERM, answer);
  }

  lemma KillReports(c: Config, s: State, answer: SignalAnswer)
    requires Inv(c, s) && Resolving(s) && s.killArmed
    ensures Reports(c, s, KillTimer(answer), Handle(c, s, KillTimer(answer)))
  {
    hide OutputCapture.Render, State.Signalled, State.OwnershipCleared, State.FinishedTerminated, Orderly;
    var after := s.(killArmed := false).Signalled(c, SIGKILL, answer);
    SignalledReports(c, s.(killArmed := false), SIGKILL, answer);
    ClearReports(after);
    TerminatedReports(c, after.OwnershipCleared());
    KillReleases(c, s, answer);
  }

  lemma NotedReports(c: Config, s: State, message: Text)
    ensures var after := s.Noted(c, message);
            SameFacts(s, after) && after.settled == s.settled && after.resolved == s.resolved
  {
    hide OutputCapture.Append;
    if s.stderr.length == 0 {
      assert s.Noted(c, message) == s.(stderr := OutputCapture.Append(s.stderr, message, c.limit));
    } else {
      assert s.Noted(c, message) == s;
    }
  }

  lemma ChildErrorReports(c: Config, s: State, message: Text)
    requires Resolving(s)
    ensures Reports(c, s, ChildError(message), Handle(c, s, ChildError(message)))
  {
    hide OutputCapture.Render, OutputCapture.Append, State.OwnershipCleared, State.Noted, State.Finished;
    ClearReports(s);
    NotedReports(c, s.OwnershipCleared(), message);
    FinishedReports(c, s.OwnershipCleared().Noted(c, message), Failed, Some(SpawnError));
  }

  lemma HandleReports(c: Config, s: State, e: Event)
    requires Inv(c, s) && Resolving(s)
    ensures Reports(c, s, e, Handle(c, s, e))
  {
    hide OutputCapture.Render, OutputCapture.Append, State.Signalled, State.OwnershipCleared, State.FinishedTerminated, Orderly,
      State.Observed, State.AfterClose, State.Terminated, State.Noted, State.Finished;
    match e
    case ChildError(message) =>
      ChildErrorReports(c, s, message);
    case Close(code, alive, stillAlive) =>
      if !s.childClosed {
        CloseReports(c, s, code, alive, stillAlive);
      }
    case Timeout(answer) =>
      NotedShape(c, s.(timeoutArmed := false, timedOut := true), c.timeoutMessage);
      TerminateReports(c, s.(timeoutArmed := false, timedOut := true).Noted(c, c.timeoutMessage), answer);
    case Abort(answer) =>
      NotedShape(c, s.(abortArmed := false, cancelled := true), AbortMessage());
      TerminateReports(c, s.(abortArmed := false, cancelled := true).Noted(c, AbortMessage()), answer);
    case KillTimer(answer) =>
      if s.killArmed {
        KillReports(c, s, answer);
      }
    case Poll(alive) =>
      ObservedReports(c, s, alive);
    case StdinError(message) => NotedShape(c, s.(stdinWriteFailed := true), message);
    case Data(_, _) =>
  }

  // ----- what is written to stderr -----

  // A message goes to stderr only when nothing was written there.
  function Note(written: bool, message: Text): seq<Text> {
    if written then [] else [message]
  }

  // A signal to the owned group that is refused says so.
  function Refusal(s: State, signals: bool, answer: SignalAnswer): seq<Text> {
    if signals && s.owned && answer.Refused? then [SignalMessage(answer.message)] else []
  }

  /** What an event adds to stderr: a chunk of the command, the message of an error, of the time limit or of the
      caller's wish when nothing else was written, and the complaint about a signal. */
  function Said(c: Config, s: State, written: bool, e: Event): seq<Text> {
    match e
    case Data(Stderr, chunk) => [chunk]
    case StdinError(message) => Note(written, message)
    case ChildError(message) => Note(written, message)
    case Timeout(answer) =>
      if !s.timeoutArmed then []
      else Note(written, c.timeoutMessage) + Refusal(s, !s.terminationStarted && !s.settled, answer)
    case Abort(answer) =>
      if !s.abortArmed then []
      else Note(written, AbortMessage()) + Refusal(s, !s.terminationStarted && !s.settled, answer)
    case KillTimer(answer) => Refusal(s, s.killArmed, answer)
    case _ => []
  }

  function StderrPieces(c: Config, events: seq<Event>): seq<Text> {
    if events == [] then []
    else
      var init := events[..|events| - 1];
      var past := StderrPieces(c, init);
      past + Said(c, Run(c, init), Flatten(past) != [], events[|events| - 1])
  }

  function AppendEach(current: OutputCapture.Captured, pieces: seq<Text>, limit: int): OutputCapture.Captured {
    if pieces == [] then current
    else OutputCapture.Append(AppendEach(current, pieces[..|pieces| - 1], limit), pieces[|pieces| - 1], limit)
  }

  lemma {:induction false} AppendAllEach(past: seq<Text>, pieces: seq<Text>, limit: int)
    ensures OutputCapture.AppendAll(past + pieces, limit) == AppendEach(OutputCapture.AppendAll(past, limit), pieces, limit)
  {
    hide OutputCapture.Append;
    if pieces == [] {
      assert past + pieces == past;
    } else {
      AppendAllEach(past, pieces[..|pieces| - 1], limit);
      assert (past + pieces)[..|past + pieces| - 1] == past + pieces[..|pieces| - 1];
    }
  }

  lemma EachOfOne(current: OutputCapture.Captured, piece: Text, limit: int)
    ensures AppendEach(current, [piece], limit) == OutputCapture.Append(current, piece, limit)
  {
    hide OutputCapture.Append;
    assert [piece][..0] == [];
  }

  lemma {:induction false} EachOfTwo(current: OutputCapture.Captured, first: seq<Text>, second: seq<Text>, limit: int)
    ensures AppendEach(AppendEach(current, first, limit), second, limit) == AppendEach(current, first + second, limit)
  {
    hide OutputCapture.Append;
    if second == [] {
      assert first + second == first;
    } else {
      EachOfTwo(current, first, second[..|second| - 1], limit);
      assert (first + second)[..|first + second| - 1] == first + second[..|second| - 1];
    }
  }

  lemma NotedStderr(c: Config, s: State, message: Text)
    ensures s.Noted(c, message).stderr == AppendEach(s.stderr, Note(s.stderr.length != 0, message), c.limit)
  {
    hide OutputCapture.Append;
    EachOfOne(s.stderr, message, c.limit);
  }

  lemma SignalledStderr(c: Config, s: State, signal: Signal, answer: SignalAnswer)
    ensures s.Signalled(c, signal, answer).stderr == AppendEach(s.stderr, Refusal(s, true, answer), c.limit)
  {
    hide OutputCapture.Append, OutputCapture.Render, SignalMessage;
    if answer.Refused? {
      EachOfOne(s.stderr, SignalMessage(answer.message), c.limit);
    }
  }

  lemma TerminatedStderr(c: Config, s: State, answer: SignalAnswer)
    ensures s.Terminated(c, answer).stderr
         == AppendEach(s.stderr, Refusal(s, !s.terminationStarted && !s.settled, answer), c.limit)
  {
    hide OutputCapture.Append, SignalMessage, State.Signalled;
    SignalledStderr(c, s.(terminationStarted := true), SIGTERM, answer);
  }

  // A noted message and a complaint, one after the other.
  lemma StoppedStderr(c: Config, s: State, message: Text, answer: SignalAnswer)
    ensures s.Noted(c, message).Terminated(c, answer).stderr
         == AppendEach(s.stderr,
              Note(s.stderr.length != 0, message) + Refusal(s, !s.terminationStarted && !s.settled, answer), c.limit)
  {
    hide OutputCapture.Append, SignalMessage, State.Noted, State.Terminated, AppendEach;
    var noted := s.Noted(c, message);
    var note, refusal := Note(s.stderr.length != 0, message), Refusal(s, !s.terminationStarted && !s.settled, answer);
    NotedShape(c, s, message);
    NotedStderr(c, s, message);
    TerminatedStderr(c, noted, answer);
    assert Refusal(noted, !noted.terminationStarted && !noted.settled, answer) == refusal;
    EachOfTwo(s.stderr, note, refusal, c.limit);
  }

  lemma KillStderr(c: Config, s: State, answer: SignalAnswer)
    requires s.killArmed && Resolving(s)
    ensures Handle(c, s, KillTimer(answer)).stderr
         == AppendEach(s.stderr, Said(c, s, s.stderr.length != 0, KillTimer(answer)), c.limit)
  {
    hide OutputCapture.Append, OutputCapture.Render, SignalMessage, State.Signalled, State.FinishedTerminated;
    var after := s.(killArmed := false).Signalled(c, SIGKILL, answer);
    SignalledStderr(c, s.(killArmed := false), SIGKILL, answer);
    SignalledReports(c, s.(killArmed := false), SIGKILL, answer);
    TerminatedReports(c, after.OwnershipCleared());
  }

  lemma ChildErrorStderr(c: Config, s: State, message: Text)
    requires Resolving(s)
    ensures Handle(c, s, ChildError(message)).stderr
         == AppendEach(s.stderr, Said(c, s, s.stderr.length != 0, ChildError(message)), c.limit)
  {
    hide OutputCapture.Append, OutputCapture.Render, State.Noted, State.OwnershipCleared, State.Finished;
    ClearReports(s);
    NotedShape(c, s.OwnershipCleared(), message);
    NotedStderr(c, s.OwnershipCleared(), message);
    NotedReports(c, s.OwnershipCleared(), message);
    FinishedReports(c, s.OwnershipCleared().Noted(c, message), Failed, Some(SpawnError));
  }

  lemma StopStderr(c: Config, s: State, e: Event)
    requires e.Timeout? || e.Abort?
    ensures Handle(c, s, e).stderr == AppendEach(s.stderr, Said(c, s, s.stderr.length != 0, e), c.limit)
  {
    hide OutputCapture.Append, State.Terminated, State.Noted, SignalMessage, AbortMessage;
    if e.Timeout? && s.timeoutArmed {
      StoppedStderr(c, s.(timeoutArmed := false, timedOut := true), c.timeoutMessage, e.answer);
    } else if e.Abort? && s.abortArmed {
      StoppedStderr(c, s.(abortArmed := false, cancelled := true), AbortMessage(), e.answer);
    }
  }

  lemma QuietStderr(c: Config, s: State, e: Event)
    requires Inv(c, s) && Resolving(s) && (e.Close? || e.Poll? || (e.KillTimer? && !s.killArmed))
    ensures Handle(c, s, e).stderr == AppendEach(s.stderr, Said(c, s, s.stderr.length != 0, e), c.limit)
  {
    hide Inv, State.AfterClose, State.Observed, State.Signalled, State.FinishedTerminated, Reports, SettledAs;
    if e.Close? && !s.childClosed {
      CloseReports(c, s, e.code, e.alive, e.stillAlive);
    } else if e.Poll? {
      ObservedReports(c, s, e.alive);
    }
  }

  lemma ChunkStderr(c: Config, s: State, target: Stream, chunk: Text)
    ensures Handle(c, s, Data(target, chunk)).stderr
         == AppendEach(s.stderr, Said(c, s, s.stderr.length != 0, Data(target, chunk)), c.limit)
  {
    hide OutputCapture.Append;
    match target
    case Stdout =>
    case Stderr => EachOfOne(s.stderr, chunk, c.limit);
  }

  lemma StdinErrorStderr(c: Config, s: State, message: Text)
    ensures Handle(c, s, StdinError(message)).stderr
         == AppendEach(s.stderr, Said(c, s, s.stderr.length != 0, StdinError(message)), c.limit)
  {
    hide OutputCapture.Append, State.Noted;
    NotedStderr(c, s.(stdinWriteFailed := true), message);
  }

  lemma HandleStderr(c: Config, s: State, e: Event)
    requires Inv(c, s) && Resolving(s)
    ensures Handle(c, s, e).stderr == AppendEach(s.stderr, Said(c, s, s.stderr.length != 0, e), c.limit)
  {
    hide Handle, Said, Inv;
    match e
    case ChildError(message) => ChildErrorStderr(c, s, message);
    case Close(_, _, _) => QuietStderr(c, s, e);
    case Poll(_) => QuietStderr(c, s, e);
    case Timeout(_) => StopStderr(c, s, e);
    case Abort(_) => StopStderr(c, s, e);
    case KillTimer(answer) =>
      if s.killArmed {
        KillStderr(c, s, answer);
      } else {
        QuietStderr(c, s, e);
      }
    case StdinError(message) => StdinErrorStderr(c, s, message);
    case Data(target, chunk) => ChunkStderr(c, s, target, chunk);
  }

  // ----- every run -----

  function Chunks(events: seq<Event>, target: Stream): seq<Text> {
    if events == [] then []
    else
      var last := events[|events| - 1];
      Chunks(events[..|events| - 1], target) + if last.Data? && last.target == target then [last.chunk] else []
  }

  // Only a stream that is longer than the limit is cut.
  predicate Overflows(pieces: seq<Text>, limit: int) {
    Flatten(pieces) != [] && |Flatten(pieces)| > limit
  }

  lemma CapturedLength(pieces: seq<Text>, limit: int)
    ensures var capture := OutputCapture.AppendAll(pieces, limit);
            capture.length == |Flatten(pieces)| && (capture.truncated <==> Overflows(pieces, limit))
  {
    OutputCapture.AppendAllHolds(pieces, limit);
  }

  lemma {:induction false} RunReports(c: Config, events: seq<Event>)
    ensures Resolving(Run(c, events))
    ensures Run(c, events).stdout == OutputCapture.AppendAll(Chunks(events, Stdout), c.limit)
    ensures Run(c, events).stderr == OutputCapture.AppendAll(StderrPieces(c, events), c.limit)
  {
    hide Handle, OutputCapture.Append, Said;
    if events != [] {
      var init, last := events[..|events| - 1], events[|events| - 1];
      RunReports(c, init);
      RunKeeps(c, init);
      HandleReports(c, Run(c, init), last);
      HandleStderr(c, Run(c, init), last);
      CapturedLength(StderrPieces(c, init), c.limit);
      AppendAllEach(StderrPieces(c, init), Said(c, Run(c, init), Flatten(StderrPieces(c, init)) != [], last), c.limit);
      var chunks := Chunks(init, Stdout);
      assert Chunks(events, Stdout) == if last.Data? && last.target == Stdout then chunks + [last.chunk] else chunks;
      assert last.Data? ==> (chunks + [last.chunk])[..|chunks|] == chunks;
    }
  }

  ghost predicate ReportedAt(c: Config, events: seq<Event>, k: nat, r: Report) {
    && k < |events|
    && !Run(c, events[..k]).settled && Run(c, events[..k + 1]).settled
    && Explained(Run(c, events[..k]), events[k], Run(c, events[..k + 1]), r)
    && var stdout, stderr := Chunks(events[..k], Stdout), StderrPieces(c, events[..k + 1]);
       && r.stdout == OutputCapture.Render(OutputCapture.AppendAll(stdout, c.limit), c.limit)
       && r.stderr == OutputCapture.Render(OutputCapture.AppendAll(stderr, c.limit), c.limit)
       && (r.outputTruncated <==> Overflows(stdout, c.limit) || Overflows(stderr, c.limit))
  }

  lemma ReportedNow(c: Config, events: seq<Event>, k: nat)
    requires k + 1 == |events| && Run(c, events).settled && !Run(c, events[..k]).settled
    ensures Run(c, events).resolved.Some? && ReportedAt(c, events, k, Run(c, events).resolved.value)
  {
    hide Handle, Inv, Said, Explained, OutputCapture.Render, OutputCapture.Append;
    var init := events[..k];
    RunReports(c, init);
    RunReports(c, events);
    RunKeeps(c, init);
    HandleReports(c, Run(c, init), events[k]);
    CapturedLength(Chunks(init, Stdout), c.limit);
    CapturedLength(StderrPieces(c, events), c.limit);
    assert events[..k + 1] == events;
  }

  /** Every report is made by one event, for the reason that it gives; it carries the stdout that came before that
      event and the stderr up to its own complaint, says whether one of them was cut, and nothing that happens later
      changes it. */
  lemma {:induction false} ReportIsExplained(c: Config, events: seq<Event>)
    requires Run(c, events).settled
    ensures Run(c, events).resolved.Some?
    ensures exists k: nat :: ReportedAt(c, events, k, Run(c, events).resolved.value)
  {
    hide Handle, Inv, Explained, Said, Overflows;
    var init, last := events[..|events| - 1], events[|events| - 1];
    if Run(c, init).settled {
      RunReports(c, init);
      RunKeeps(c, init);
      HandleReports(c, Run(c, init), last);
      ReportIsExplained(c, init);
      var k: nat :| ReportedAt(c, init, k, Run(c, init).resolved.value);
      assert events[..k] == init[..k] && events[..k + 1] == init[..k + 1];
      assert ReportedAt(c, events, k, Run(c, events).resolved.value);
    } else {
      ReportedNow(c, events, |init|);
    }
  }
}

/** One spawned command: output, errors, closing, timeout, abort, the polite signal and the deadly one, in whatever
    order they come. Mirrors `OmxExecService.execute` of src/jobs/omx-exec.service.ts after the spawn. */
module ExecMachine {
  import OutputCapture
  import opened Ascii
  import opened Wrappers

  datatype Signal = SIGTERM | SIGKILL

  // How the operating system answers an attempt to signal the process group.
  datatype SignalAnswer = Delivered | NoSuchProcess | Refused(message: Text)

  datatype Stream = Stdout | Stderr

  /** What can happen to a running command, with the answers that the handler gets when it asks about the group. */
  datatype Event =
    | StdinError(message: Text)
    | Data(target: Stream, chunk: Text)
    | ChildError(message: Text)
    | Close(code: Option<int>, alive: bool, stillAlive: bool)
    | Timeout(answer: SignalAnswer)
    | Abort(answer: SignalAnswer)
    | KillTimer(answer: SignalAnswer)
    | Poll(alive: bool)

  datatype Status = Succeeded | Failed | Cancelled

  datatype ErrorType = SpawnError | ExecutionError | NonZeroExit | TimedOut | CancelledByCaller

  datatype Report = Report(status: Status, stdout: Text, stderr: Text, exitCode: Option<int>,
                           outputTruncated: bool, timedOut: bool, errorType: Option<ErrorType>)

  /** What the handlers did and learned, in order. */
  datatype Action =
    | Attempted(signal: Signal)
    | Released
    | GroupGone
    | Closed(code: Option<int>)
    | Settled(report: Report)

  datatype Config = Config(limit: int, win32: bool, hasPid: bool, timeoutMessage: Text)

  function AbortMessage(): Text {
    Codes("Command cancelled")
  }

  function SignalMessage(message: Text): Text {
    Codes("Failed to signal owned process: ") + message
  }

  datatype State = State(
    stdout: OutputCapture.Captured,
    stderr: OutputCapture.Captured,
    timedOut: bool,
    cancelled: bool,
    stdinWriteFailed: bool,
    exitCode: Option<int>,
    owned: bool,
    terminationStarted: bool,
    childClosed: bool,
    timeoutArmed: bool,
    abortArmed: bool,
    killArmed: bool,
    pollArmed: bool,
    settled: bool,
    resolved: Option<Report>,
    log: seq<Action>)
  {
    function Did(action: Action): State {
      this.(log := log + [action])
    }

    // A message goes to stderr only when nothing else did.
    function Noted(c: Config, message: Text): State {
      if stderr.length == 0 then this.(stderr := OutputCapture.Append(stderr, message, c.limit)) else this
    }

    function Outcome(c: Config, status: Status, errorType: Option<ErrorType>): Report {
      Report(status, OutputCapture.Render(stdout, c.limit), OutputCapture.Render(stderr, c.limit), exitCode,
             stdout.truncated || stderr.truncated, timedOut, errorType)
    }

    function Disarmed(): State {
      this.(settled := true, timeoutArmed := false, abortArmed := false, killArmed := false, pollArmed := false)
    }

    function Resolved(report: Report): State {
      this.(resolved := Some(report), log := log + [Settled(report)])
    }

    function Finished(c: Config, status: Status, errorType: Option<ErrorType>): State {
      if settled then this else Disarmed().Resolved(Disarmed().Outcome(c, status, errorType))
    }

    function OwnershipCleared(): State {
      this.(killArmed := false, pollArmed := false, owned := false, log := log + if owned then [Released] else [])
    }

    function FinishedTerminated(c: Config): State {
      if !childClosed || settled then this
      else if cancelled then OwnershipCleared().Finished(c, Cancelled, Some(CancelledByCaller))
      else OwnershipCleared().Finished(c, Failed, Some(TimedOut))
    }

    // What `isOwnedProcessGroupAlive` says when the operating system answers `alive`.
    predicate GroupAlive(c: Config, alive: bool) {
      !c.win32 && owned && alive
    }

    // The state after that question.
    function Asked(c: Config, alive: bool): State {
      if !c.win32 && owned && !alive then Did(GroupGone) else this
    }

    function Signalled(c: Config, signal: Signal, answer: SignalAnswer): State {
      if !owned then this
      else
        var tried := Did(Attempted(signal));
        match answer
        case Delivered => tried
        case NoSuchProcess => tried.Did(GroupGone).OwnershipCleared()
        case Refused(message) =>
          tried.(stderr := OutputCapture.Append(stderr, SignalMessage(message), c.limit))
            .OwnershipCleared().Finished(c, Failed, Some(ExecutionError))
    }

    function Terminated(c: Config, answer: SignalAnswer): State {
      if terminationStarted || settled then this
      else
        var s := this.(terminationStarted := true).Signalled(c, SIGTERM, answer);
        if owned && answer.Delivered? then s.(killArmed := true) else s
    }

    function Observed(c: Config, alive: bool): State {
      var s := Asked(c, alive);
      if GroupAlive(c, alive) then s else s.FinishedTerminated(c)
    }

    // The child closed after it was asked to: its group may outlive it.
    function AwaitedGroup(c: Config, alive: bool, stillAlive: bool): State {
      var asked := if terminationStarted then Asked(c, alive) else this;
      if terminationStarted && GroupAlive(c, alive) then
        if pollArmed || settled then asked else asked.(pollArmed := true).Observed(c, stillAlive)
      else asked.FinishedTerminated(c)
    }

    // The child closed by itself.
    function ClosedByItself(c: Config): State {
      var freed := OwnershipCleared();
      if stdinWriteFailed then freed.Finished(c, Failed, Some(ExecutionError))
      else if exitCode == Some(0) then freed.Finished(c, Succeeded, None)
      else freed.Finished(c, Failed, Some(NonZeroExit))
    }

    function AfterClose(c: Config, code: Option<int>, alive: bool, stillAlive: bool): State {
      var closed := this.(childClosed := true, exitCode := code).Did(Closed(code));
      if cancelled || timedOut then closed.AwaitedGroup(c, alive, stillAlive) else closed.ClosedByItself(c)
    }
  }

  function Initial(c: Config): State {
    State(OutputCapture.EMPTY, OutputCapture.EMPTY, false, false, false, None, c.hasPid, false, false,
          true, true, false, false, false, None, [])
  }

  function Handle(c: Config, s: State, e: Event): State {
    match e
    case StdinError(message) => s.(stdinWriteFailed := true).Noted(c, message)
    case Data(Stdout, chunk) => s.(stdout := OutputCapture.Append(s.stdout, chunk, c.limit))
    case Data(Stderr, chunk) => s.(stderr := OutputCapture.Append(s.stderr, chunk, c.limit))
    case ChildError(message) => s.OwnershipCleared().Noted(c, message).Finished(c, Failed, Some(SpawnError))
    case Close(code, alive, stillAlive) => if s.childClosed then s else s.AfterClose(c, code, alive, stillAlive)
    case Timeout(answer) =>
      if !s.timeoutArmed then s
      else s.(timeoutArmed := false, timedOut := true).Noted(c, c.timeoutMessage).Terminated(c, answer)
    case Abort(answer) =>
      if !s.abortArmed then s
      else s.(abortArmed := false, cancelled := true).Noted(c, AbortMessage()).Terminated(c, answer)
    case KillTimer(answer) =>
      if !s.killArmed then s
      else s.(killArmed := false).Signalled(c, SIGKILL, answer).OwnershipCleared().FinishedTerminated(c)
    case Poll(alive) => if !s.pollArmed then s else s.Observed(c, alive)
  }

  function Run(c: Config, events: seq<Event>): State {
    if events == [] then Initial(c) else Handle(c, Run(c, events[..|events| - 1]), events[|events| - 1])
  }
}

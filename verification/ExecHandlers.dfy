/** The closures of `execute`, over the variables that they share. Each handler does to them what the event machine says. */
module ExecHandlers {
  import OutputCapture
  import opened Ascii
  import opened ExecMachine
  import opened Wrappers

  class SpawnedCommand {
    const config: Config
    var stdoutCapture: OutputCapture.Captured
    var stderrCapture: OutputCapture.Captured
    var timedOut: bool
    var cancelled: bool
    var stdinWriteFailed: bool
    var exitCode: Option<int>
    var owned: bool
    var terminationStarted: bool
    var childClosed: bool
    var timeoutHandle: bool
    var abortListener: bool
    var sigkillHandle: bool
    var groupExitPollHandle: bool
    var settled: bool
    var resolved: Option<Report>
    ghost var log: seq<Action>

    ghost function Now(): State
      reads this
    {
      State(stdoutCapture, stderrCapture, timedOut, cancelled, stdinWriteFailed, exitCode, owned, terminationStarted,
            childClosed, timeoutHandle, abortListener, sigkillHandle, groupExitPollHandle, settled, resolved, log)
    }

    constructor (config: Config)
      ensures this.config == config && Now() == Initial(config)
    {
      this.config := config;
      stdoutCapture, stderrCapture := OutputCapture.EMPTY, OutputCapture.EMPTY;
      timedOut, cancelled, stdinWriteFailed, exitCode := false, false, false, None;
      owned, terminationStarted, childClosed := config.hasPid, false, false;
      timeoutHandle, abortListener, sigkillHandle, groupExitPollHandle := true, true, false, false;
      settled, resolved, log := false, None, [];
    }

    // What `finish` clears.
    method Disarm()
      modifies this`settled, this`timeoutHandle, this`sigkillHandle, this`groupExitPollHandle, this`abortListener
      ensures Now() == old(Now()).Disarmed()
    {
      settled := true;
      timeoutHandle, sigkillHandle, groupExitPollHandle, abortListener := false, false, false, false;
    }

    method Resolve(status: Status, errorType: Option<ErrorType>)
      modifies this`resolved, this`log
      ensures Now() == old(Now()).Resolved(old(Now()).Outcome(config, status, errorType))
    {
      hide OutputCapture.Render;
      var report := Report(status, OutputCapture.Render(stdoutCapture, config.limit),
                           OutputCapture.Render(stderrCapture, config.limit), exitCode,
                           stdoutCapture.truncated || stderrCapture.truncated, timedOut, errorType);
      resolved, log := Some(report), log + [Settled(report)];
    }

    method Finish(status: Status, errorType: Option<ErrorType>)
      modifies this
      ensures Now() == old(Now()).Finished(config, status, errorType)
    {
      hide State.Resolved, State.Outcome;
      if settled {
        return;
      }
      Disarm();
      Resolve(status, errorType);
    }

    method ClearProcessOwnership()
      modifies this`sigkillHandle, this`groupExitPollHandle, this`owned, this`log
      ensures Now() == old(Now()).OwnershipCleared()
    {
      sigkillHandle, groupExitPollHandle := false, false;
      log := log + if owned then [Released] else [];
      owned := false;
    }

    method FinishTerminated()
      modifies this
      ensures Now() == old(Now()).FinishedTerminated(config)
    {
      hide State.Finished;
      if !childClosed || settled {
        return;
      }
      ClearProcessOwnership();
      if cancelled {
        Finish(Cancelled, Some(CancelledByCaller));
        return;
      }
      Finish(Failed, Some(TimedOut));
    }

    method IsOwnedProcessGroupAlive(answer: bool) returns (alive: bool)
      modifies this`log
      ensures Now() == old(Now()).Asked(config, answer) && alive == old(Now()).GroupAlive(config, answer)
    {
      if config.win32 || !owned {
        return false;
      }
      if !answer {
        log := log + [GroupGone];
      }
      return answer;
    }

    method Observe(answer: bool)
      modifies this
      ensures Now() == old(Now()).Observed(config, answer)
    {
      hide State.FinishedTerminated;
      var alive := IsOwnedProcessGroupAlive(answer);
      if !alive {
        FinishTerminated();
      }
    }

    method NoteOnStderr(message: Text)
      modifies this`stderrCapture
      ensures Now() == old(Now()).Noted(config, message)
    {
      if stderrCapture.length == 0 {
        stderrCapture := OutputCapture.Append(stderrCapture, message, config.limit);
      }
    }

    method SignalOwnedProcess(signal: Signal, answer: SignalAnswer) returns (sent: bool)
      modifies this
      ensures Now() == old(Now()).Signalled(config, signal, answer) && sent == (old(owned) && answer.Delivered?)
    {
      hide OutputCapture.Append, OutputCapture.Render, SignalMessage, State.OwnershipCleared, State.Finished;
      if !owned {
        return false;
      }
      log := log + [Attempted(signal)];
      assert Now() == old(Now()).Did(Attempted(signal));
      if answer.NoSuchProcess? {
        LoseGroup();
      } else if answer.Refused? {
        FailSignal(answer.message);
      }
      return answer.Delivered?;
    }

    // What `signalOwnedProcess` does when there is no such group.
    method LoseGroup()
      modifies this
      ensures Now() == old(Now()).Did(GroupGone).OwnershipCleared()
    {
      hide State.OwnershipCleared;
      log := log + [GroupGone];
      assert Now() == old(Now()).Did(GroupGone);
      ClearProcessOwnership();
    }

    // What it does with any other error.
    method FailSignal(message: Text)
      modifies this
      ensures Now() == old(Now()).(stderr := OutputCapture.Append(old(stderrCapture), SignalMessage(message), config.limit))
                         .OwnershipCleared().Finished(config, Failed, Some(ExecutionError))
    {
      hide OutputCapture.Append, OutputCapture.Render, SignalMessage, State.OwnershipCleared, State.Finished;
      stderrCapture := OutputCapture.Append(stderrCapture, SignalMessage(message), config.limit);
      assert Now() == old(Now()).(stderr := OutputCapture.Append(old(stderrCapture), SignalMessage(message), config.limit));
      ClearProcessOwnership();
      Finish(Failed, Some(ExecutionError));
    }

    method Terminate(answer: SignalAnswer)
      modifies this
      ensures Now() == old(Now()).Terminated(config, answer)
    {
      if terminationStarted || settled {
        return;
      }
      hide State.Signalled;
      terminationStarted := true;
      assert Now() == old(Now()).(terminationStarted := true);
      var sent := SignalOwnedProcess(SIGTERM, answer);
      if sent {
        sigkillHandle := true;
      }
    }

    method OnData(target: Stream, chunk: Text)
      modifies this
      ensures Now() == Handle(config, old(Now()), Data(target, chunk))
    {
      if target == Stdout {
        stdoutCapture := OutputCapture.Append(stdoutCapture, chunk, config.limit);
      } else {
        stderrCapture := OutputCapture.Append(stderrCapture, chunk, config.limit);
      }
    }

    method OnStdinError(message: Text)
      modifies this
      ensures Now() == Handle(config, old(Now()), StdinError(message))
    {
      hide State.Noted;
      stdinWriteFailed := true;
      assert Now() == old(Now()).(stdinWriteFailed := true);
      NoteOnStderr(message);
    }

    method OnChildError(message: Text)
      modifies this
      ensures Now() == Handle(config, old(Now()), ChildError(message))
    {
      ClearProcessOwnership();
      NoteOnStderr(message);
      Finish(Failed, Some(SpawnError));
    }

    method OnClose(code: Option<int>, answer: bool, later: bool)
      modifies this
      ensures Now() == Handle(config, old(Now()), Close(code, answer, later))
    {
      hide State.FinishedTerminated, State.Observed, State.OwnershipCleared, State.Finished;
      if childClosed {
        return;
      }
      childClosed, exitCode, log := true, code, log + [Closed(code)];
      assert Now() == old(Now()).(childClosed := true, exitCode := code).Did(Closed(code));
      if cancelled || timedOut {
        AwaitGroup(answer, later);
      } else {
        FinishClosed();
      }
    }

    // The child closed after it was asked to.
    method AwaitGroup(answer: bool, later: bool)
      modifies this
      ensures Now() == old(Now()).AwaitedGroup(config, answer, later)
    {
      var alive := false;
      if terminationStarted {
        alive := IsOwnedProcessGroupAlive(answer);
      }
      if alive {
        WaitForOwnedProcessGroupExit(later);
      } else {
        FinishTerminated();
      }
    }

    // The child closed by itself.
    method FinishClosed()
      modifies this
      ensures Now() == old(Now()).ClosedByItself(config)
    {
      ClearProcessOwnership();
      if stdinWriteFailed {
        Finish(Failed, Some(ExecutionError));
      } else if exitCode == Some(0) {
        Finish(Succeeded, None);
      } else {
        Finish(Failed, Some(NonZeroExit));
      }
    }

    method WaitForOwnedProcessGroupExit(answer: bool)
      modifies this
      ensures Now() == if old(groupExitPollHandle || settled) then old(Now())
                       else old(Now()).(pollArmed := true).Observed(config, answer)
    {
      if groupExitPollHandle || settled {
        return;
      }
      groupExitPollHandle := true;
      Observe(answer);
    }

    method OnTimeout(answer: SignalAnswer)
      modifies this
      ensures Now() == Handle(config, old(Now()), Timeout(answer))
    {
      if !timeoutHandle {
        return;
      }
      hide State.Noted, State.Terminated;
      timeoutHandle, timedOut := false, true;
      assert Now() == old(Now()).(timeoutArmed := false, timedOut := true);
      NoteOnStderr(config.timeoutMessage);
      Terminate(answer);
    }

    method OnAbort(answer: SignalAnswer)
      modifies this
      ensures Now() == Handle(config, old(Now()), Abort(answer))
    {
      if !abortListener {
        return;
      }
      hide State.Noted, State.Terminated, AbortMessage;
      abortListener, cancelled := false, true;
      assert Now() == old(Now()).(abortArmed := false, cancelled := true);
      NoteOnStderr(AbortMessage());
      Terminate(answer);
    }

    method OnKillTimer(answer: SignalAnswer)
      modifies this
      ensures Now() == Handle(config, old(Now()), KillTimer(answer))
    {
      if !sigkillHandle {
        return;
      }
      hide State.Signalled, State.OwnershipCleared, State.FinishedTerminated;
      sigkillHandle := false;
      assert Now() == old(Now()).(killArmed := false);
      var _ := SignalOwnedProcess(SIGKILL, answer);
      ClearProcessOwnership();
      FinishTerminated();
    }

    method OnPoll(answer: bool)
      modifies this
      ensures Now() == Handle(config, old(Now()), Poll(answer))
    {
      hide State.Observed;
      if groupExitPollHandle {
        Observe(answer);
      }
    }

    /** Whatever happens, the handler that is called does what the machine does. */
    method On(event: Event)
      modifies this
      ensures Now() == Handle(config, old(Now()), event)
    {
      hide Handle;
      match event
      case StdinError(message) => OnStdinError(message);
      case Data(target, chunk) => OnData(target, chunk);
      case ChildError(message) => OnChildError(message);
      case Close(code, alive, stillAlive) => OnClose(code, alive, stillAlive);
      case Timeout(answer) => OnTimeout(answer);
      case Abort(answer) => OnAbort(answer);
      case KillTimer(answer) => OnKillTimer(answer);
      case Poll(alive) => OnPoll(alive);
    }
  }
}

/** Waiting for a job: polling with a deadline, and a grace period for the notification of a finished job. Mirrors
    `waitForJobCompletion`, `resolveWaitOptions` and `clampNumber` of omx-dispatch/job-operations.ts. */
module WaitLoop {
  import opened JobModel
  import opened Sequences
  import opened Wrappers

  /** What one round of polling meets: the status in a drained notification, if there was one; the status of the job; how
      far the clock moves before it is read for the terminal observation, for the grace period and for the deadline; and
      how much longer than asked the sleep takes. */
  datatype Round = Round(notification: Option<Status>, job: Status, toObservation: nat, toGrace: nat, toDeadline: nat,
                         oversleep: nat)

  datatype Config = Config(defaultTimeout: int, maxTimeout: int, defaultPoll: int, minPoll: int, maxPoll: int, grace: nat)

  datatype WaitResult = WaitResult(status: Status, completed: bool, timedOut: bool, notified: bool,
                                   notificationMissing: bool)

  /** A given number is rounded down; one that is missing or not finite gives way to the fallback. */
  function Clamp(value: Option<real>, fallback: int, min: int, max: int): (r: int)
    ensures min <= r && (r <= max || r == min)
    ensures value.Some? && min <= value.value.Floor <= max ==> r as real <= value.value < r as real + 1.0
    ensures value.Some? && value.value < min as real ==> r == min
    ensures value.Some? && value.value > max as real ==> r == Max(min, max)
    ensures value.None? && min <= fallback <= max ==> r == fallback
  {
    Max(min, Min(max, if value.None? then fallback else value.value.Floor))
  }

  /** One wait: its limits, when it starts and what its rounds meet. */
  datatype Wait = Wait(limit: nat, poll: nat, minPoll: nat, grace: nat, start: nat, rounds: nat -> Round) {
    function Deadline(): nat {
      start + limit
    }

    predicate Seen(k: nat) {
      Terminal(rounds(k).job)
    }

    /** The clock when the k-th round begins, unless the wait is over by then. */
    function Begin(k: nat): int
      decreases k, 0
    {
      if k == 0 then start else AtDeadlineCheck(k - 1) + Delay(k - 1) + rounds(k - 1).oversleep
    }

    function AtObservation(k: nat): int
      decreases k, 1
    {
      Begin(k) + if Seen(k) then rounds(k).toObservation else 0
    }

    function AtGraceCheck(k: nat): int
      decreases k, 2
    {
      AtObservation(k) + if Seen(k) then rounds(k).toGrace else 0
    }

    function AtDeadlineCheck(k: nat): int
      decreases k, 3
    {
      AtGraceCheck(k) + rounds(k).toDeadline
    }

    // The sleep asked for after the k-th round.
    function Delay(k: nat): int
      decreases k, 4
    {
      Min(Deadline() - AtDeadlineCheck(k), if Seen(k) then minPoll else poll)
    }

    predicate SeenSince(i: nat, k: nat) {
      i <= k && forall j :: i <= j <= k ==> Seen(j)
    }

    /** The job has been seen finished in every round since one that lies the grace period back. */
    predicate GraceOver(k: nat) {
      exists i :: 0 <= i <= k && SeenSince(i, k) && AtGraceCheck(k) - AtObservation(i) >= grace
    }

    /** The k-th round leads to no result. */
    predicate GoesOn(k: nat) {
      rounds(k).notification.None? && !GraceOver(k) && AtDeadlineCheck(k) < Deadline()
    }

    function Slept(k: nat): int {
      if k == 0 then 0 else Slept(k - 1) + Delay(k - 1)
    }

    /** What a wait that ends with the k-th round reports: a notification; or that there is none after the grace period;
        or what there is at the deadline. */
    function Report(k: nat): WaitResult {
      var round := rounds(k);
      if round.notification.Some? then
        WaitResult(round.notification.value, Terminal(round.notification.value), false, true, false)
      else if GraceOver(k) then WaitResult(round.job, true, false, false, true)
      else WaitResult(round.job, Seen(k), !Seen(k), false, Seen(k))
    }

    lemma {:induction false} ClockAdvances(i: nat, k: nat)
      requires i <= k && forall j :: i <= j < k ==> AtDeadlineCheck(j) < Deadline()
      ensures AtObservation(i) <= AtObservation(k)
    {
      if i < k {
        ClockAdvances(i, k - 1);
        assert Delay(k - 1) >= 0 && AtDeadlineCheck(k - 1) >= AtGraceCheck(k - 1) >= AtObservation(k - 1);
      }
    }

    /** Every report is sensible: it has the status of the notification, or of the job where there is none; it is finished
        exactly when that status is final, never both finished and timed out, and missing its notification exactly when
        it is finished without one. */
    lemma ReportIsSensible(k: nat)
      ensures var r := Report(k);
              && (r.notified <==> rounds(k).notification.Some?)
              && r.status == (if rounds(k).notification.Some? then rounds(k).notification.value else rounds(k).job)
              && (r.completed <==> r.status == Succeeded || r.status == Failed || r.status == Cancelled)
              && !(r.completed && r.timedOut)
              && (r.timedOut <==> !r.completed && !r.notified)
              && (r.notificationMissing <==> r.completed && !r.notified)
    {
      if i :| 0 <= i <= k && SeenSince(i, k) && AtGraceCheck(k) - AtObservation(i) >= grace {
        assert Seen(k);
      }
    }
  }

  /** The wait that the options ask for. */
  function Requested(config: Config, timeout: Option<real>, poll: Option<real>, start: nat, rounds: nat -> Round): Wait
    requires config.minPoll >= 1
  {
    Wait(Clamp(timeout, config.defaultTimeout, 1, config.maxTimeout),
         Clamp(poll, config.defaultPoll, config.minPoll, config.maxPoll), config.minPoll, config.grace, start, rounds)
  }

  // With `remaining` time to the deadline, so many rounds can have begun.
  predicate InBudget(count: nat, minPoll: int, limit: int, remaining: int)
    requires minPoll >= 1
  {
    if remaining > 0 then count * minPoll + remaining <= limit else count <= limit / minPoll + 1
  }

  lemma BudgetStart(minPoll: int, limit: int)
    requires minPoll >= 1 && limit >= 0
    ensures InBudget(0, minPoll, limit, limit)
  {
  }

  lemma BudgetBound(count: nat, minPoll: int, limit: int, remaining: int)
    requires minPoll >= 1 && limit >= 0 && InBudget(count, minPoll, limit, remaining)
    ensures count <= limit / minPoll + 1
    ensures remaining > 0 ==> count <= limit / minPoll
  {
    if remaining > 0 {
      DivBound(count, minPoll, limit);
    }
  }

  lemma {:induction false} MulMonotone(a: nat, b: nat, m: nat)
    requires a <= b
    ensures a * m <= b * m
  {
    if a > 0 {
      MulMonotone(a - 1, b - 1, m);
      assert a * m == (a - 1) * m + m && b * m == (b - 1) * m + m;
    }
  }

  lemma DivBound(count: nat, m: int, limit: int)
    requires m >= 1 && count * m <= limit
    ensures count <= limit / m
  {
    var q := limit / m;
    assert limit == q * m + limit % m;
    assert (q + 1) * m == q * m + m;
    if count > q {
      MulMonotone(q + 1, count, m);
    }
  }

  // The clock moves within a round.
  lemma BudgetShrinks(count: nat, minPoll: int, limit: int, remaining: int, less: int)
    requires minPoll >= 1 && limit >= 0 && less <= remaining && InBudget(count, minPoll, limit, remaining)
    ensures InBudget(count, minPoll, limit, less)
  {
    BudgetBound(count, minPoll, limit, remaining);
  }

  // A sleep is as long as the least interval, or lasts to the deadline.
  lemma BudgetSleep(count: nat, minPoll: int, limit: int, remaining: int, delay: int, less: int)
    requires minPoll >= 1 && limit >= 0 && remaining > 0 && InBudget(count, minPoll, limit, remaining)
    requires (delay >= minPoll || delay == remaining) && less <= remaining - delay
    ensures InBudget(count + 1, minPoll, limit, less)
  {
    BudgetBound(count, minPoll, limit, remaining);
    assert (count + 1) * minPoll == count * minPoll + minPoll;
  }

  // When the job was first seen finished, if it has been ever since.
  ghost predicate Observed(w: Wait, k: nat, observedAt: Option<int>) {
    match observedAt
    case None => k > 0 ==> !w.Seen(k - 1)
    case Some(t) => k > 0 && exists i :: ObservedFrom(w, i, k, t)
  }

  ghost predicate ObservedFrom(w: Wait, i: nat, k: nat, t: int) {
    i < k && w.SeenSince(i, k - 1) && (i > 0 ==> !w.Seen(i - 1)) && t == w.AtObservation(i)
  }

  ghost predicate AllGoOn(w: Wait, k: nat) {
    forall i :: 0 <= i < k ==> w.GoesOn(i)
  }

  lemma NothingObserved(w: Wait)
    ensures Observed(w, 0, None)
  {
  }

  lemma NotSeen(w: Wait, k: nat)
    requires !w.Seen(k)
    ensures !w.GraceOver(k) && Observed(w, k + 1, None)
  {
  }

  lemma GraceDecided(w: Wait, k: nat, i: nat)
    requires AllGoOn(w, k) && ObservedFrom(w, i, k + 1, w.AtObservation(i))
    ensures w.GraceOver(k) <==> w.AtGraceCheck(k) - w.AtObservation(i) >= w.grace
  {
    if j :| 0 <= j <= k && w.SeenSince(j, k) && w.AtGraceCheck(k) - w.AtObservation(j) >= w.grace {
      assert w.Seen(k);
      assert j >= i;
      forall m | i <= m < j ensures w.AtDeadlineCheck(m) < w.Deadline() {
        assert w.GoesOn(m);
      }
      w.ClockAdvances(i, j);
    }
  }

  /** Polls until there is something to report. It ends with the first round that decides, reports what that round decides,
      and asks for the sleeps in between; the timeout bounds the sleep, and with the least interval the rounds. */
  method WaitForJobCompletion(config: Config, timeout: Option<real>, poll: Option<real>, start: nat, rounds: nat -> Round)
    returns (result: WaitResult, count: nat, slept: int)
    requires config.minPoll >= 1
    ensures var w := Requested(config, timeout, poll, start, rounds);
            && count >= 1 && AllGoOn(w, count - 1) && !w.GoesOn(count - 1)
            && result == w.Report(count - 1) && slept == w.Slept(count - 1)
            && slept <= w.limit && count <= w.limit / w.minPoll + 2
  {
    ghost var w := Requested(config, timeout, poll, start, rounds);
    var waitTimeout := Clamp(timeout, config.defaultTimeout, 1, config.maxTimeout);
    var pollInterval := Clamp(poll, config.defaultPoll, config.minPoll, config.maxPoll);
    BudgetStart(config.minPoll, waitTimeout);
    NothingObserved(w);
    hide Clamp, InBudget, Observed, Wait.GraceOver;
    var now := start;
    var deadline := now + waitTimeout;
    var terminalObservedAt: Option<int> := None;
    count, slept := 0, 0;
    while true
      invariant now == w.Begin(count) && slept == w.Slept(count) && AllGoOn(w, count)
      invariant Observed(w, count, terminalObservedAt)
      invariant slept <= waitTimeout && (deadline > now ==> slept + (deadline - now) <= waitTimeout)
      invariant InBudget(count, config.minPoll, waitTimeout, deadline - now)
      decreases Max(0, deadline - now)
    {
      ghost var k, before := count, deadline - now;
      var round := rounds(count);
      BudgetBound(count, config.minPoll, waitTimeout, before);
      count := count + 1;
      if round.notification.Some? {
        var status := round.notification.value;
        return WaitResult(status, Terminal(status), false, true, false), count, slept;
      }
      if Terminal(round.job) {
        now := now + round.toObservation;
        terminalObservedAt := Observe(w, k, terminalObservedAt, now);
        now := now + round.toGrace;
        if now - terminalObservedAt.value >= config.grace {
          return WaitResult(round.job, true, false, false, true), count, slept;
        }
      } else {
        NotSeen(w, k);
        terminalObservedAt := None;
      }
      assert now == w.AtGraceCheck(k) && !w.GraceOver(k);
      now := now + round.toDeadline;
      var remaining := deadline - now;
      if remaining <= 0 {
        var done := Terminal(round.job);
        return WaitResult(round.job, done, !done, false, done), count, slept;
      }
      var nextDelay := Min(remaining, if terminalObservedAt.Some? then config.minPoll else pollInterval);
      assert w.GoesOn(k) && nextDelay == w.Delay(k);
      BudgetShrinks(k, config.minPoll, waitTimeout, before, remaining);
      slept := slept + nextDelay;
      now := now + nextDelay + round.oversleep;
      BudgetSleep(k, config.minPoll, waitTimeout, remaining, nextDelay, deadline - now);
    }
  }

  // `terminalObservedAt ??= now`.
  method Observe(ghost w: Wait, ghost k: nat, observedAt: Option<int>, now: int) returns (at: Option<int>)
    requires AllGoOn(w, k) && Observed(w, k, observedAt) && w.Seen(k) && now == w.AtObservation(k)
    ensures at.Some? && Observed(w, k + 1, at)
    ensures w.GraceOver(k) <==> w.AtGraceCheck(k) - at.value >= w.grace
  {
    at := if observedAt.None? then Some(now) else observedAt;
    ghost var i: nat;
    if observedAt.None? {
      i := k;
    } else {
      i :| ObservedFrom(w, i, k, observedAt.value);
    }
    assert ObservedFrom(w, i, k + 1, at.value);
    GraceDecided(w, k, i);
  }
}

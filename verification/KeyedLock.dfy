/** The promise lock of a key: every call waits for the promise of the call before it. Mirrors `withJobLock` of
    src/jobs/job-queue.repository.ts and `withPersistLock` of src/jobs/job-notify.service.ts, one step for each stretch
    between two awaits. */
module KeyedLock {
  import opened Wrappers

  type Key = nat

  // A call, which stands for the promise that it leaves for the next one.
  type Ticket = nat

  datatype Phase = Waiting | Running | Done(threw: bool)

  // `previous` is the promise that the call awaits; without one it goes ahead.
  datatype Call = Call(key: Key, previous: Option<Ticket>, phase: Phase)

  datatype State = State(locks: map<Key, Ticket>, resolved: set<Ticket>, calls: seq<Call>)

  datatype Event = Enter(key: Key) | Start(ticket: Ticket) | Leave(ticket: Ticket, threw: bool)

  predicate Enabled(s: State, e: Event) {
    match e
    case Enter(_) => true
    case Start(t) =>
      && t < |s.calls| && s.calls[t].phase.Waiting?
      && (s.calls[t].previous.None? || s.calls[t].previous.value in s.resolved)
    case Leave(t, _) => t < |s.calls| && s.calls[t].phase.Running?
  }

  function Entered(s: State, key: Key): State {
    var previous := if key in s.locks then Some(s.locks[key]) else None;
    State(s.locks[key := |s.calls|], s.resolved, s.calls + [Call(key, previous, Waiting)])
  }

  function Left(s: State, t: Ticket, threw: bool): State
    requires t < |s.calls|
  {
    var call := s.calls[t];
    State(if call.key in s.locks && s.locks[call.key] == t then s.locks - {call.key} else s.locks,
          s.resolved + {t}, s.calls[t := call.(phase := Done(threw))])
  }

  function Step(s: State, e: Event): State
    requires Enabled(s, e)
  {
    match e
    case Enter(key) => Entered(s, key)
    case Start(t) => s.(calls := s.calls[t := s.calls[t].(phase := Running)])
    case Leave(t, threw) => Left(s, t, threw)
  }

  const INITIAL := State(map[], {}, [])

  /** Any sequence of events; one that cannot happen changes nothing. */
  function Run(events: seq<Event>): State {
    if events == [] then INITIAL
    else
      var s, e := Run(events[..|events| - 1]), events[|events| - 1];
      if Enabled(s, e) then Step(s, e) else s
  }

  // ----- the line of a key -----

  /** First come, first served: everything that came before for this key is done. */
  predicate First(calls: seq<Call>, t: Ticket)
    requires t < |calls|
  {
    forall u :: 0 <= u < t && calls[u].key == calls[t].key ==> calls[u].phase.Done?
  }

  predicate Last(calls: seq<Call>, t: Ticket)
    requires t < |calls|
  {
    forall u :: t < u < |calls| ==> calls[u].key != calls[t].key
  }

  predicate Busy(calls: seq<Call>, key: Key) {
    exists t :: 0 <= t < |calls| && calls[t].key == key && !calls[t].phase.Done?
  }

  // A call awaits the one that came just before it, or none if all of them are done.
  predicate Chained(calls: seq<Call>, t: Ticket)
    requires t < |calls|
  {
    match calls[t].previous
    case None => First(calls, t)
    case Some(p) => p < t && calls[p].key == calls[t].key && forall u :: p < u < t ==> calls[u].key != calls[t].key
  }

  ghost predicate Inv(s: State) {
    && (forall t :: t in s.resolved <==> 0 <= t < |s.calls| && s.calls[t].phase.Done?)
    && (forall t :: 0 <= t < |s.calls| ==> Chained(s.calls, t))
    && (forall t :: 0 <= t < |s.calls| && !s.calls[t].phase.Waiting? ==> First(s.calls, t))
    && (forall key :: key in s.locks ==>
          s.locks[key] < |s.calls| && s.calls[s.locks[key]].key == key && Last(s.calls, s.locks[key]))
    && (forall key :: key in s.locks <==> Busy(s.calls, key))
  }

  lemma FirstWhenResolved(s: State, t: Ticket)
    requires Inv(s) && t < |s.calls| && s.calls[t].phase.Waiting?
    ensures Enabled(s, Start(t)) <==> First(s.calls, t)
  {
    assert Chained(s.calls, t);
    if s.calls[t].previous.Some? {
      var p := s.calls[t].previous.value;
      if p in s.resolved {
        assert First(s.calls, p);
        forall u | 0 <= u < t && s.calls[u].key == s.calls[t].key ensures s.calls[u].phase.Done? {
          assert u <= p;
        }
      }
    }
  }

  lemma EnterBusy(s: State, key: Key, k: Key)
    requires Inv(s)
    ensures k in Entered(s, key).locks <==> Busy(Entered(s, key).calls, k)
  {
    var s' := Entered(s, key);
    assert s'.calls[|s.calls|].key == key && !s'.calls[|s.calls|].phase.Done?;
    if t :| 0 <= t < |s.calls| && s.calls[t].key == k && !s.calls[t].phase.Done? {
      assert s'.calls[t] == s.calls[t];
    }
  }

  lemma EnterLine(s: State, key: Key, t: Ticket)
    requires Inv(s) && t <= |s.calls|
    ensures var calls := Entered(s, key).calls; Chained(calls, t) && (!calls[t].phase.Waiting? ==> First(calls, t))
  {
    if t < |s.calls| {
      assert Chained(s.calls, t);
    }
  }

  lemma EnterEntry(s: State, key: Key, k: Key)
    requires Inv(s) && k in Entered(s, key).locks
    ensures var s' := Entered(s, key);
            s'.locks[k] < |s'.calls| && s'.calls[s'.locks[k]].key == k && Last(s'.calls, s'.locks[k])
  {
    hide Chained, First, Busy;
  }

  lemma EnterKeeps(s: State, key: Key)
    requires Inv(s)
    ensures Inv(Step(s, Enter(key)))
  {
    hide Chained, First, Last, Busy;
    var s' := Entered(s, key);
    forall t | 0 <= t < |s'.calls|
      ensures Chained(s'.calls, t) && (!s'.calls[t].phase.Waiting? ==> First(s'.calls, t))
    {
      EnterLine(s, key, t);
    }
    forall k | k in s'.locks
      ensures s'.locks[k] < |s'.calls| && s'.calls[s'.locks[k]].key == k && Last(s'.calls, s'.locks[k])
    {
      EnterEntry(s, key, k);
    }
    forall k ensures k in s'.locks <==> Busy(s'.calls, k) {
      EnterBusy(s, key, k);
    }
  }

  lemma StartKeeps(s: State, t: Ticket)
    requires Inv(s) && Enabled(s, Start(t))
    ensures Inv(Step(s, Start(t)))
  {
    var s' := Step(s, Start(t));
    FirstWhenResolved(s, t);
    forall u | 0 <= u < |s'.calls| ensures Chained(s'.calls, u) {
      assert Chained(s.calls, u);
    }
    forall k ensures k in s'.locks <==> Busy(s'.calls, k) {
      assert k in s.locks <==> Busy(s.calls, k);
      if u :| 0 <= u < |s.calls| && s.calls[u].key == k && !s.calls[u].phase.Done? {
        assert s'.calls[u].key == k && !s'.calls[u].phase.Done?;
      }
      if u :| 0 <= u < |s'.calls| && s'.calls[u].key == k && !s'.calls[u].phase.Done? {
        assert s.calls[u].key == k && !s.calls[u].phase.Done?;
      }
    }
  }

  // The map entry of a key goes with the last call of its line.
  lemma LeaveBusy(s: State, t: Ticket, threw: bool, key: Key)
    requires Inv(s) && Enabled(s, Leave(t, threw))
    ensures key in Left(s, t, threw).locks <==> Busy(Left(s, t, threw).calls, key)
  {
    var s' := Left(s, t, threw);
    var mine := s.calls[t].key;
    assert First(s.calls, t);
    assert Busy(s.calls, mine);
    if key == mine {
      if s.locks[mine] == t {
        forall u | 0 <= u < |s'.calls| && s'.calls[u].key == mine ensures s'.calls[u].phase.Done? {
          assert u <= t;
        }
      } else {
        var last := s.locks[mine];
        assert last > t && s'.calls[last] == s.calls[last];
        assert !s.calls[last].phase.Done?;
      }
    } else {
      if u :| 0 <= u < |s.calls| && s.calls[u].key == key && !s.calls[u].phase.Done? {
        assert s'.calls[u] == s.calls[u];
      }
      if u :| 0 <= u < |s'.calls| && s'.calls[u].key == key && !s'.calls[u].phase.Done? {
        assert s'.calls[u] == s.calls[u];
      }
    }
  }

  lemma LeaveLine(s: State, t: Ticket, threw: bool, u: Ticket)
    requires Inv(s) && Enabled(s, Leave(t, threw)) && u < |s.calls|
    ensures var calls := Left(s, t, threw).calls;
            Chained(calls, u) && (!calls[u].phase.Waiting? ==> First(calls, u)) && (Last(s.calls, u) ==> Last(calls, u))
  {
    assert Chained(s.calls, u);
  }

  lemma LeaveKeeps(s: State, t: Ticket, threw: bool)
    requires Inv(s) && Enabled(s, Leave(t, threw))
    ensures Inv(Step(s, Leave(t, threw)))
  {
    hide Chained, First, Last, Busy;
    var s' := Left(s, t, threw);
    forall u | 0 <= u < |s'.calls|
      ensures Chained(s'.calls, u) && (!s'.calls[u].phase.Waiting? ==> First(s'.calls, u)) && (Last(s.calls, u) ==> Last(s'.calls, u))
    {
      LeaveLine(s, t, threw, u);
    }
    forall key ensures key in s'.locks <==> Busy(s'.calls, key) {
      LeaveBusy(s, t, threw, key);
    }
  }

  lemma {:induction false} RunInv(events: seq<Event>)
    ensures Inv(Run(events))
  {
    if events != [] {
      var init, last := events[..|events| - 1], events[|events| - 1];
      RunInv(init);
      if Enabled(Run(init), last) {
        match last
        case Enter(key) => EnterKeeps(Run(init), key);
        case Start(t) => StartKeeps(Run(init), t);
        case Leave(t, threw) => LeaveKeeps(Run(init), t, threw);
      }
    }
  }

  // ----- what the lock is for -----

  /** In every run, two calls for one key never overlap, and a call that is running or done came before every call for
      its key that still waits. */
  lemma MutualExclusionInOrder(events: seq<Event>, t: Ticket, u: Ticket)
    requires t < u < |Run(events).calls| && Run(events).calls[t].key == Run(events).calls[u].key
    ensures !Run(events).calls[u].phase.Waiting? ==> Run(events).calls[t].phase.Done?
  {
    RunInv(events);
    assert !Run(events).calls[u].phase.Waiting? ==> First(Run(events).calls, u);
  }

  /** A waiting call may start exactly when it is the first of its line, however the calls before it ended. */
  lemma StartsWhenFirst(events: seq<Event>, t: Ticket)
    requires t < |Run(events).calls| && Run(events).calls[t].phase.Waiting?
    ensures Enabled(Run(events), Start(t)) <==> First(Run(events).calls, t)
  {
    RunInv(events);
    FirstWhenResolved(Run(events), t);
  }

  /** The map holds an entry exactly for the keys that somebody waits for or holds, so it does not grow for good. */
  lemma EntryWhileBusy(events: seq<Event>, key: Key)
    ensures key in Run(events).locks <==> Busy(Run(events).calls, key)
  {
    RunInv(events);
  }

  /** No line is ever stuck: the first call of a busy key can start, or is running and can leave. */
  lemma NeverStuck(events: seq<Event>, key: Key) returns (t: Ticket)
    requires Busy(Run(events).calls, key)
    ensures t < |Run(events).calls| && Run(events).calls[t].key == key && First(Run(events).calls, t)
    ensures Enabled(Run(events), Start(t)) || (Enabled(Run(events), Leave(t, false)) && Enabled(Run(events), Leave(t, true)))
  {
    var s := Run(events);
    RunInv(events);
    var some: Ticket :| some < |s.calls| && s.calls[some].key == key && !s.calls[some].phase.Done?;
    t := FirstOfLine(s.calls, some);
    if s.calls[t].phase.Waiting? {
      FirstWhenResolved(s, t);
    }
  }

  lemma {:induction false} FirstOfLine(calls: seq<Call>, some: Ticket) returns (t: Ticket)
    requires some < |calls| && !calls[some].phase.Done?
    ensures t < |calls| && calls[t].key == calls[some].key && !calls[t].phase.Done? && First(calls, t)
    decreases some
  {
    if First(calls, some) {
      t := some;
    } else {
      var u: Ticket :| u < some && calls[u].key == calls[some].key && !calls[u].phase.Done?;
      t := FirstOfLine(calls, u);
    }
  }

  /** The map of locks itself: what a call does before it waits, and when it is through. */
  class Locks {
    var locks: map<Key, Ticket>
    var resolved: set<Ticket>
    var calls: seq<Call>

    function Now(): State
      reads this
    {
      State(locks, resolved, calls)
    }

    constructor ()
      ensures Now() == INITIAL
    {
      locks, resolved, calls := map[], {}, [];
    }

    method Enter(key: Key) returns (current: Ticket)
      modifies this
      ensures Now() == Entered(old(Now()), key) && current == old(|calls|)
    {
      var previous := if key in locks then Some(locks[key]) else None;
      current := |calls|;
      calls := calls + [Call(key, previous, Waiting)];
      locks := locks[key := current];
    }

    method Leave(current: Ticket, threw: bool)
      requires current < |calls|
      modifies this
      ensures Now() == Left(old(Now()), current, threw)
    {
      var key := calls[current].key;
      resolved := resolved + {current};
      calls := calls[current := calls[current].(phase := Done(threw))];
      if key in locks && locks[key] == current {
        locks := locks - {key};
      }
    }
  }
}

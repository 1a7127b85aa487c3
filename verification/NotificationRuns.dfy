/** Whole runs of the shared notification store: several processes, started at any time, operate on one file in any
    order. */
module NotificationRuns {
  import opened NotificationEviction
  import opened NotificationProcesses
  import opened NotificationStore
  import opened Sequences
  import opened Wrappers

  type Process = nat

  datatype Op =
    | Start(limit: nat)
    | Load(process: Process)
    | Enqueue(process: Process, n: Notification)
    | DrainForJob(process: Process, job: JobId)
    | DrainAll(process: Process)

  datatype World = World(file: seq<Notification>, members: seq<Member>)

  // An operation of a process that was never started does nothing.
  predicate Active(w: World, op: Op) {
    op.Start? || op.process < |w.members|
  }

  function Result(w: World, op: Op): Outcome
    requires Active(w, op) && !op.Start?
  {
    var member := w.members[op.process];
    match op
    case Load(_) => Loaded(w.file, member)
    case Enqueue(_, n) => Enqueued(w.file, member, n)
    case DrainForJob(_, job) => DrainedForJob(w.file, member, job)
    case DrainAll(_) => DrainedAll(w.file, member)
  }

  function Step(w: World, op: Op): World {
    if !Active(w, op) then w
    else if op.Start? then w.(members := w.members + [Member(op.limit, [], 0)])
    else var out := Result(w, op); World(out.file, w.members[op.process := out.member])
  }

  function Exec(w: World, ops: seq<Op>): World {
    if ops == [] then w else Step(Exec(w, ops[..|ops| - 1]), ops[|ops| - 1])
  }

  // ----- conservation -----

  /** Where notifications come from and where they go. */
  datatype Ledger = Ledger(enqueued: multiset<Notification>, returned: multiset<Notification>,
                           evicted: multiset<Notification>, superseded: multiset<Notification>)
  {
    function Plus(other: Ledger): Ledger {
      Ledger(enqueued + other.enqueued, returned + other.returned, evicted + other.evicted, superseded + other.superseded)
    }
  }

  const NOTHING := Ledger(multiset{}, multiset{}, multiset{}, multiset{})

  // What deduplication drops.
  function Superseded(history: seq<Notification>): multiset<Notification> {
    multiset(history) - multiset(Dedupe(history))
  }

  // What the limit drops.
  function Evicted(history: seq<Notification>, limit: nat): multiset<Notification> {
    multiset(Dedupe(history)[..Overflow(Dedupe(history), limit)])
  }

  function Entry(w: World, op: Op): Ledger {
    if !Active(w, op) then NOTHING
    else
      match op
      case Start(_) => NOTHING
      case Load(p) => Ledger(multiset{}, multiset{}, Evicted(w.file, w.members[p].limit), Superseded(w.file))
      case Enqueue(p, n) =>
        Ledger(multiset{n}, multiset{}, Evicted(w.file + [n], w.members[p].limit), Superseded(w.file + [n]))
      case DrainForJob(p, job) =>
        var returned := Result(w, op).returned;
        Ledger(multiset{}, multiset(returned), multiset{}, if returned == [] then multiset{} else Superseded(w.file))
      case DrainAll(p) => Ledger(multiset{}, multiset(Result(w, op).returned), multiset{}, Superseded(w.file))
  }

  function Books(w: World, ops: seq<Op>): Ledger {
    if ops == [] then NOTHING
    else Books(w, ops[..|ops| - 1]).Plus(Entry(Exec(w, ops[..|ops| - 1]), ops[|ops| - 1]))
  }

  /** The sum of the `dropped` counters of all processes. */
  function Dropped(members: seq<Member>): nat {
    if members == [] then 0 else Dropped(members[..|members| - 1]) + members[|members| - 1].dropped
  }

  lemma {:induction false} DroppedUpdate(members: seq<Member>, p: nat, m: Member)
    requires p < |members|
    ensures Dropped(members[p := m]) == Dropped(members) - members[p].dropped + m.dropped
  {
    var last := |members| - 1;
    if p < last {
      DroppedUpdate(members[..last], p, m);
      assert members[p := m][..last] == members[..last][p := m];
    } else {
      assert members[p := m][..last] == members[..last];
    }
  }

  lemma Parted(history: seq<Notification>, limit: nat)
    ensures multiset(history) == multiset(LastN(Dedupe(history), limit)) + Evicted(history, limit) + Superseded(history)
    ensures |Evicted(history, limit)| == Overflow(Dedupe(history), limit)
  {
    var q := Dedupe(history);
    var k := Overflow(q, limit);
    assert q == q[..k] + q[k..];
    assert LastN(q, limit) == q[k..];
  }

  lemma SupersededRest(history: seq<Notification>)
    ensures multiset(history) == multiset(Dedupe(history)) + Superseded(history)
  {
  }

  lemma {:induction false} WithoutOne(q: seq<Notification>, n: Notification)
    requires Ordered(q) && n in q
    ensures multiset(q) == multiset(Without(q, n.job)) + multiset{n}
  {
    SnocIn(q);
    var rest, last := q[..|q| - 1], q[|q| - 1];
    if n == last {
      WithoutNone(rest, n.job);
    } else {
      WithoutOne(rest, n);
    }
  }

  lemma {:induction false} WithoutNone(q: seq<Notification>, job: JobId)
    requires !Has(q, job)
    ensures Without(q, job) == q
  {
    if q != [] {
      SnocIn(q);
      WithoutNone(q[..|q| - 1], job);
    }
  }

  // What one step adds up to: nothing is lost, and nothing appears.
  ghost predicate Balanced(w: World, w': World, entry: Ledger) {
    && multiset(w.file) + entry.enqueued == multiset(w'.file) + entry.returned + entry.evicted + entry.superseded
    && Dropped(w'.members) == Dropped(w.members) + |entry.evicted|
  }

  lemma LoadBalanced(w: World, p: Process)
    requires p < |w.members|
    ensures Balanced(w, Step(w, Load(p)), Entry(w, Load(p)))
  {
    hide LastN, Dedupe, Dropped;
    var limit := w.members[p].limit;
    DroppedUpdate(w.members, p, Loaded(w.file, w.members[p]).member);
    Parted(w.file, limit);
    if |LastN(Dedupe(w.file), limit)| == |w.file| {
      assert |multiset(w.file)| == |multiset(LastN(Dedupe(w.file), limit))| + |Evicted(w.file, limit)| + |Superseded(w.file)|;
    }
  }

  lemma EnqueueBalanced(w: World, p: Process, n: Notification)
    requires p < |w.members|
    ensures Balanced(w, Step(w, Enqueue(p, n)), Entry(w, Enqueue(p, n)))
  {
    hide LastN, Dedupe, Dropped, OfJobs, Jobs, Superseded, Evicted;
    DroppedUpdate(w.members, p, Enqueued(w.file, w.members[p], n).member);
    Parted(w.file + [n], w.members[p].limit);
  }

  lemma DrainForJobBalanced(w: World, p: Process, job: JobId)
    requires p < |w.members|
    ensures Balanced(w, Step(w, DrainForJob(p, job)), Entry(w, DrainForJob(p, job)))
  {
    hide Dedupe, Dropped, Without, Find, Superseded;
    DroppedUpdate(w.members, p, DrainedForJob(w.file, w.members[p], job).member);
    var q := Dedupe(w.file);
    SupersededRest(w.file);
    if Find(q, job).Some? {
      WithoutOne(q, Find(q, job).value);
    }
  }

  lemma DrainAllBalanced(w: World, p: Process)
    requires p < |w.members|
    ensures Balanced(w, Step(w, DrainAll(p)), Entry(w, DrainAll(p)))
  {
    hide Dedupe, Dropped, Superseded;
    DroppedUpdate(w.members, p, DrainedAll(w.file, w.members[p]).member);
    SupersededRest(w.file);
  }

  lemma StepBalanced(w: World, op: Op)
    ensures Balanced(w, Step(w, op), Entry(w, op))
  {
    if !Active(w, op) {
    } else {
      match op
      case Start(limit) =>
        assert (w.members + [Member(limit, [], 0)])[..|w.members|] == w.members;
      case Load(p) => LoadBalanced(w, p);
      case Enqueue(p, n) => EnqueueBalanced(w, p, n);
      case DrainForJob(p, job) => DrainForJobBalanced(w, p, job);
      case DrainAll(p) => DrainAllBalanced(w, p);
    }
  }

  /** Whatever the processes do, every notification that was enqueued is still pending, or was returned by one drain, or
      was evicted and counted as dropped by one process, or was superseded within its job. */
  lemma {:induction false} Conservation(w: World, ops: seq<Op>)
    ensures var books := Books(w, ops);
            && multiset(w.file) + books.enqueued
               == multiset(Exec(w, ops).file) + books.returned + books.evicted + books.superseded
            && Dropped(Exec(w, ops).members) == Dropped(w.members) + |books.evicted|
  {
    hide Step, Entry, Dropped;
    if ops != [] {
      var init, last := ops[..|ops| - 1], ops[|ops| - 1];
      Conservation(w, init);
      var now, next := Exec(w, init), Exec(w, ops);
      StepBalanced(now, last);
      Chained(multiset(w.file), Books(w, init), multiset(now.file), Entry(now, last), multiset(next.file));
    }
  }

  // Two balances in a row.
  lemma Chained(before: multiset<Notification>, past: Ledger, now: multiset<Notification>, entry: Ledger,
                after: multiset<Notification>)
    requires before + past.enqueued == now + past.returned + past.evicted + past.superseded
    requires now + entry.enqueued == after + entry.returned + entry.evicted + entry.superseded
    ensures var all := past.Plus(entry);
            && before + all.enqueued == after + all.returned + all.evicted + all.superseded
            && |all.evicted| == |past.evicted| + |entry.evicted|
  {
    var all := past.Plus(entry);
    forall n: Notification
      ensures (before + all.enqueued)[n] == (after + all.returned + all.evicted + all.superseded)[n]
    {
      assert (before + past.enqueued)[n] == (now + past.returned + past.evicted + past.superseded)[n];
      assert (now + entry.enqueued)[n] == (after + entry.returned + entry.evicted + entry.superseded)[n];
    }
    assert before + all.enqueued == after + all.returned + all.evicted + all.superseded;
  }

  /** No notification is returned by two drains, nor returned and still pending, unless it was enqueued as often. */
  lemma ReturnedOnce(w: World, ops: seq<Op>, n: Notification)
    ensures Books(w, ops).returned[n] + multiset(Exec(w, ops).file)[n] <= multiset(w.file)[n] + Books(w, ops).enqueued[n]
  {
    hide Books, Exec;
    Conservation(w, ops);
    var books := Books(w, ops);
    assert (multiset(w.file) + books.enqueued)[n]
        == (multiset(Exec(w, ops).file) + books.returned + books.evicted + books.superseded)[n];
  }

  /** A notification is superseded only by a kept one of the same job that is not older, and evicted only when as many
      kept ones as the limit allows come after it. */
  lemma LossesAreDue(history: seq<Notification>, limit: nat, lost: Notification)
    ensures lost in Superseded(history) ==>
              exists kept :: kept in Dedupe(history) && kept.job == lost.job && kept.time >= lost.time
    ensures lost in Evicted(history, limit) ==>
              && |LastN(Dedupe(history), limit)| == limit
              && forall kept :: kept in LastN(Dedupe(history), limit) ==>
                   lost.time < kept.time || (lost.time == kept.time && lost.job < kept.job)
  {
    if lost in Superseded(history) {
      SupersededIsOlder(history, lost);
    }
    if lost in Evicted(history, limit) {
      EvictedIsFirst(Dedupe(history), limit, lost);
    }
  }

  lemma SupersededIsOlder(history: seq<Notification>, lost: Notification)
    requires lost in history
    ensures exists kept :: kept in Dedupe(history) && kept.job == lost.job && kept.time >= lost.time
  {
    var kept := NewestExists(history, lost);
    DedupeMeaning(history);
  }

  lemma EvictedIsFirst(q: seq<Notification>, limit: nat, lost: Notification)
    requires Ordered(q) && lost in q[..Overflow(q, limit)]
    ensures |LastN(q, limit)| == limit
    ensures forall kept :: kept in LastN(q, limit) ==>
              lost.time < kept.time || (lost.time == kept.time && lost.job < kept.job)
  {
    OrderedSplit(q, Overflow(q, limit));
    hide Ordered;
  }

  /** Draining one job takes its newest notification, if it has any, and touches no other job. */
  lemma DrainTakesOne(file: seq<Notification>, member: Member, job: JobId)
    ensures var out := DrainedForJob(file, member, job);
            && (out.returned == [] <==> !Has(file, job))
            && (out.returned == [] ==> out.file == file)
            && (out.returned != [] ==>
                  && out.returned[0].job == job && Newest(file, out.returned[0]) && !Has(out.file, job)
                  && forall n: Notification :: n.job != job ==> (n in out.file <==> Newest(file, n)))
  {
    DedupeMeaning(file);
    if Has(file, job) {
      var x :| x in file && x.job == job;
      var n := NewestExists(file, x);
      assert n in Dedupe(file);
    }
  }

  // ----- eviction as a batch -----

  predicate Undrained(op: Op, max: nat) {
    match op
    case Start(limit) => limit == max
    case Load(_) => true
    case Enqueue(_, _) => true
    case _ => false
  }

  /** Everything that a run enqueued, in order. */
  function Arrivals(w: World, ops: seq<Op>): seq<Notification> {
    if ops == [] then []
    else
      var init, last := ops[..|ops| - 1], ops[|ops| - 1];
      Arrivals(w, init) + if last.Enqueue? && Active(Exec(w, init), last) then [last.n] else []
  }

  ghost predicate Evicting(w: World, arrivals: seq<Notification>, max: nat) {
    && (forall p :: 0 <= p < |w.members| ==> w.members[p].limit == max)
    && w.file == LastN(Dedupe(arrivals), max)
  }

  lemma KeptOrdered(q: seq<Notification>, max: nat)
    requires Ordered(q)
    ensures Ordered(LastN(q, max)) && Dedupe(LastN(q, max)) == LastN(q, max)
  {
    if |q| > max {
      OrderedSplit(q, |q| - max);
    }
    DedupeOrdered(LastN(q, max));
  }

  lemma EvictingEnqueue(file: seq<Notification>, arrivals: seq<Notification>, n: Notification, max: nat)
    requires file == LastN(Dedupe(arrivals), max)
    ensures LastN(Dedupe(file + [n]), max) == LastN(Dedupe(arrivals + [n]), max)
  {
    hide LastN, Dedupe, Absorb;
    KeptOrdered(Dedupe(arrivals), max);
    DedupeSnoc(file, n);
    DedupeSnoc(arrivals, n);
    ForgottenForGood(Dedupe(arrivals), n, max);
  }

  lemma EvictingStep(w: World, arrivals: seq<Notification>, op: Op, max: nat)
    requires Evicting(w, arrivals, max) && Undrained(op, max)
    ensures Evicting(Step(w, op), if op.Enqueue? && Active(w, op) then arrivals + [op.n] else arrivals, max)
  {
    hide LastN, Dedupe, OfJobs, Jobs;
    if Active(w, op) && op.Load? {
      KeptOrdered(Dedupe(arrivals), max);
      KeepAll(w.file, max);
    } else if Active(w, op) && op.Enqueue? {
      EvictingEnqueue(w.file, arrivals, op.n, max);
    }
  }

  /** Until something is drained, the file that evicts on every enqueue holds the newest `max` entries of the whole
      history deduplicated at once, whichever processes enqueue. */
  lemma {:induction false} EvictsLikeABatch(ops: seq<Op>, max: nat)
    requires forall i :: 0 <= i < |ops| ==> Undrained(ops[i], max)
    ensures Evicting(Exec(World([], []), ops), Arrivals(World([], []), ops), max)
  {
    hide Step, Evicting;
    var w := World([], []);
    if ops == [] {
      EvictingNothing(max);
    } else {
      var init, last := ops[..|ops| - 1], ops[|ops| - 1];
      EvictsLikeABatch(init, max);
      EvictingStep(Exec(w, init), Arrivals(w, init), last, max);
      assert Arrivals(w, init) + [] == Arrivals(w, init);
    }
  }

  lemma EvictingNothing(max: nat)
    ensures Evicting(World([], []), [], max)
  {
  }

  /** A process that has the file to itself keeps an exact copy of it, within its limit. */
  ghost predicate Mirrors(file: seq<Notification>, member: Member) {
    Ordered(file) && |file| <= member.limit && member.queue == file
  }

  lemma RetainedJobs(q: seq<Notification>, max: nat)
    requires Ordered(q)
    ensures OfJobs(q, Jobs(LastN(q, max))) == LastN(q, max)
  {
    hide OfJobs, LastN, Ordered;
    if |q| <= max {
      KeepAll(q, max);
      OrderedUnique(OfJobs(q, Jobs(q)), q);
    } else {
      var front, back := Split(q, max);
      OrderedUnique(OfJobs(q, Jobs(back)), back);
    }
  }

  lemma LoadMirrors(file: seq<Notification>, member: Member)
    requires Ordered(file)
    ensures Mirrors(Loaded(file, member).file, Loaded(file, member).member)
  {
    hide LastN, Dedupe, Ordered;
    DedupeOrdered(file);
    KeptOrdered(file, member.limit);
    if |file| <= member.limit {
      KeepAll(file, member.limit);
    }
  }

  lemma MirrorKept(file: seq<Notification>, member: Member, n: Notification, job: JobId)
    requires Mirrors(file, member)
    ensures Mirrors(Enqueued(file, member, n).file, Enqueued(file, member, n).member)
    ensures Mirrors(DrainedForJob(file, member, job).file, DrainedForJob(file, member, job).member)
    ensures Mirrors(DrainedAll(file, member).file, DrainedAll(file, member).member)
  {
    hide LastN, Dedupe, OfJobs, Jobs, Without;
    var q := Dedupe(file + [n]);
    RetainedJobs(q, member.limit);
    KeptOrdered(q, member.limit);
  }
}

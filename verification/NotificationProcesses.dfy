/** The operations of the store, run by several processes over one file. */
module NotificationProcesses {
  import opened NotificationEviction
  import opened NotificationStore
  import opened Sequences
  import opened Wrappers

  /** One process: its queue limit, its local copy of the queue and its count of evicted notifications. */
  datatype Member = Member(limit: nat, queue: seq<Notification>, dropped: nat)

  /** What an operation leaves in the file and in the process that ran it, and what it returns. */
  datatype Outcome = Outcome(file: seq<Notification>, member: Member, returned: seq<Notification>)

  function Overflow(q: seq<Notification>, limit: nat): nat {
    if |q| <= limit then 0 else |q| - limit
  }

  /** The notifications of the given jobs. */
  function OfJobs(q: seq<Notification>, jobs: set<JobId>): (r: seq<Notification>)
    ensures forall n :: n in r <==> n in q && n.job in jobs
    ensures Ordered(q) ==> Ordered(r)
  {
    if q == [] then []
    else
      var rest, last := OfJobs(q[..|q| - 1], jobs), q[|q| - 1];
      SnocIn(q);
      OrderedSnoc(rest, last);
      if last.job in jobs then rest + [last] else rest
  }

  function Jobs(q: seq<Notification>): set<JobId> {
    set n | n in q :: n.job
  }

  function Loaded(file: seq<Notification>, member: Member): Outcome {
    var deduped := Dedupe(file);
    var retained := LastN(deduped, member.limit);
    Outcome(if |retained| != |file| then retained else file,
            Member(member.limit, retained, member.dropped + Overflow(deduped, member.limit)), [])
  }

  function Enqueued(file: seq<Notification>, member: Member, n: Notification): Outcome {
    var deduped := Dedupe(file + [n]);
    var retained := LastN(deduped, member.limit);
    Outcome(retained,
            Member(member.limit, OfJobs(Dedupe(member.queue + [n]), Jobs(retained)),
                   member.dropped + Overflow(deduped, member.limit)), [])
  }

  function Find(q: seq<Notification>, job: JobId): (found: Option<Notification>)
    ensures found.Some? ==> found.value in q && found.value.job == job
    ensures found.None? ==> !Has(q, job)
  {
    if q == [] then None
    else if q[0].job == job then Some(q[0])
    else
      assert q == [q[0]] + q[1..];
      Find(q[1..], job)
  }

  function DrainedForJob(file: seq<Notification>, member: Member, job: JobId): Outcome {
    var deduped := Dedupe(file);
    var target := Find(deduped, job);
    if target.None? then Outcome(file, member, [])
    else Outcome(Without(deduped, job), member.(queue := Without(Dedupe(member.queue), job)), [target.value])
  }

  function DrainedAll(file: seq<Notification>, member: Member): Outcome {
    Outcome([], member.(queue := []), Dedupe(file))
  }

  class StoreFile {
    var entries: seq<Notification>

    constructor ()
      ensures entries == []
    {
      entries := [];
    }
  }

  /** The store object of one process. */
  class Store {
    const file: StoreFile
    const limit: nat
    var queue: seq<Notification>
    var dropped: nat

    constructor (file: StoreFile, limit: nat)
      ensures this.file == file && Now() == Member(limit, [], 0)
    {
      this.file, this.limit, queue, dropped := file, limit, [], 0;
    }

    function Now(): Member
      reads this
    {
      Member(limit, queue, dropped)
    }

    method Load()
      modifies this, file
      ensures Outcome(file.entries, Now(), []) == Loaded(old(file.entries), old(Now()))
    {
      hide LastN, Dedupe;
      var deduped := DedupeByMap(file.entries);
      var retained, overflow := RetainWithinLimit(deduped);
      queue := retained;
      dropped := dropped + overflow;
      if |retained| != |file.entries| || overflow > 0 {
        file.entries := retained;
      }
    }

    method Enqueue(n: Notification) returns (size: nat)
      modifies this, file
      ensures Outcome(file.entries, Now(), []) == Enqueued(old(file.entries), old(Now()), n)
      ensures size == |file.entries|
    {
      hide LastN, Dedupe, OfJobs, Jobs;
      queue := queue + [n];
      var deduped := DedupeByMap(file.entries + [n]);
      var retained, overflow := RetainWithinLimit(deduped);
      dropped := dropped + overflow;
      var local := DedupeByMap(queue);
      queue := OfJobs(local, Jobs(retained));
      file.entries := retained;
      return |retained|;
    }

    method DrainForJob(job: JobId) returns (target: Option<Notification>)
      modifies this, file
      ensures Outcome(file.entries, Now(), if target.Some? then [target.value] else [])
           == DrainedForJob(old(file.entries), old(Now()), job)
    {
      var deduped := DedupeByMap(file.entries);
      target := Find(deduped, job);
      if target.None? {
        return;
      }
      var local := DedupeByMap(queue);
      queue := Without(local, job);
      file.entries := Without(deduped, job);
    }

    method DrainAll() returns (pending: seq<Notification>)
      modifies this, file
      ensures Outcome(file.entries, Now(), pending) == DrainedAll(old(file.entries), old(Now()))
    {
      pending := DedupeByMap(file.entries);
      queue := [];
      file.entries := [];
    }

    method RetainWithinLimit(q: seq<Notification>) returns (retained: seq<Notification>, overflow: nat)
      ensures retained == LastN(q, limit) && overflow == Overflow(q, limit)
      ensures overflow > 0 ==> |retained| < |q|
    {
      overflow := if |q| <= limit then 0 else |q| - limit;
      retained := if overflow > 0 then q[overflow..] else q;
    }
  }
}

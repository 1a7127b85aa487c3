/** The store of jobs in one directory, one file a job: the compare-and-set transition, the listing order, and retention.
    Mirrors `save`, `transition`, `getById`, `listAll`, `countActive` and `cleanupTerminalJobs` of
    src/jobs/job-queue.repository.ts; a method is one stretch of work under the lock of its job. */
module JobRepository {
  import JobProtocol
  import opened JobModel
  import opened Wrappers

  type Comparator = (Job, Job) -> bool

  predicate SortedBy(jobs: seq<Job>, before: Comparator) {
    forall i, j :: 0 <= i < j < |jobs| ==> before(jobs[i], jobs[j])
  }

  /** Jobs with different ids come one before the other. */
  ghost predicate TotalOrder(before: Comparator) {
    && (forall a: Job, b: Job :: a.id != b.id ==> before(a, b) || before(b, a))
    && (forall a, b, c :: before(a, b) && before(b, c) ==> before(a, c))
  }

  predicate Distinct(jobs: seq<Job>) {
    forall i, j :: 0 <= i < j < |jobs| ==> jobs[i].id != jobs[j].id
  }

  // `Array.prototype.sort`, as insertion.
  function Insert(jobs: seq<Job>, job: Job, before: Comparator): (r: seq<Job>)
    ensures forall x :: x in r <==> x == job || x in jobs
    ensures |r| == |jobs| + 1
  {
    if jobs == [] || before(jobs[|jobs| - 1], job) then jobs + [job]
    else
      assert jobs == jobs[..|jobs| - 1] + [jobs[|jobs| - 1]];
      Insert(jobs[..|jobs| - 1], job, before) + [jobs[|jobs| - 1]]
  }

  lemma {:induction false} InsertSorted(jobs: seq<Job>, job: Job, before: Comparator)
    requires TotalOrder(before) && SortedBy(jobs, before) && forall x :: x in jobs ==> x.id != job.id
    ensures SortedBy(Insert(jobs, job, before), before)
  {
    if jobs != [] && !before(jobs[|jobs| - 1], job) {
      var init, last := jobs[..|jobs| - 1], jobs[|jobs| - 1];
      InsertSorted(init, job, before);
      var r := Insert(init, job, before);
      forall i | 0 <= i < |r| ensures before(r[i], last) {
        assert r[i] in r;
        if r[i] != job {
          var j :| 0 <= j < |init| && init[j] == r[i];
          assert before(jobs[j], jobs[|jobs| - 1]);
        }
      }
    }
  }

  function Sorted(jobs: seq<Job>, before: Comparator): (r: seq<Job>)
    ensures forall x :: x in r <==> x in jobs
    ensures |r| == |jobs|
  {
    if jobs == [] then []
    else
      assert jobs == jobs[..|jobs| - 1] + [jobs[|jobs| - 1]];
      Insert(Sorted(jobs[..|jobs| - 1], before), jobs[|jobs| - 1], before)
  }

  lemma {:induction false} SortedIsSorted(jobs: seq<Job>, before: Comparator)
    requires TotalOrder(before) && Distinct(jobs)
    ensures SortedBy(Sorted(jobs, before), before)
  {
    if jobs != [] {
      var init, last := jobs[..|jobs| - 1], jobs[|jobs| - 1];
      SortedIsSorted(init, before);
      forall x | x in Sorted(init, before) ensures x.id != last.id {
        var i :| 0 <= i < |init| && init[i] == x;
        assert jobs[i].id != jobs[|jobs| - 1].id;
      }
      InsertSorted(Sorted(init, before), last, before);
    }
  }

  // ----- retention as a plan -----

  // When a terminal job came to its end, as far as it says.
  function EndedAt(job: Job): nat {
    job.finishedAt.GetOr(job.createdAt)
  }

  /** The order of ages: by end, then by place in the queue. */
  predicate Older(a: Job, b: Job) {
    || EndedAt(a) < EndedAt(b)
    || (EndedAt(a) == EndedAt(b) && (a.queueOrder < b.queueOrder || (a.queueOrder == b.queueOrder && a.id < b.id)))
  }

  function TerminalOnly(jobs: seq<Job>): (r: seq<Job>)
    ensures forall x :: x in r <==> x in jobs && Terminal(x.status)
    ensures |r| <= |jobs|
  {
    if jobs == [] then []
    else
      assert jobs == jobs[..|jobs| - 1] + [jobs[|jobs| - 1]];
      TerminalOnly(jobs[..|jobs| - 1]) + if Terminal(jobs[|jobs| - 1].status) then [jobs[|jobs| - 1]] else []
  }

  /** How many of the terminal jobs, oldest first, have ended before the cutoff. */
  function Expired(jobs: seq<Job>, cutoff: int): (n: nat)
    ensures n <= |jobs|
  {
    if jobs == [] || EndedAt(jobs[0]) >= cutoff then 0 else 1 + Expired(jobs[1..], cutoff)
  }

  lemma {:induction false} ExpiredIsPrefix(jobs: seq<Job>, cutoff: int)
    requires SortedBy(jobs, Older)
    ensures forall i :: 0 <= i < |jobs| ==> (EndedAt(jobs[i]) < cutoff <==> i < Expired(jobs, cutoff))
  {
    if jobs != [] {
      var rest := jobs[1..];
      assert forall i :: 1 <= i < |jobs| ==> jobs[i] == rest[i - 1];
      ExpiredIsPrefix(rest, cutoff);
      if EndedAt(jobs[0]) >= cutoff {
        assert forall i :: 1 <= i < |jobs| ==> Older(jobs[0], jobs[i]);
      }
    }
  }

  /** How many of the oldest terminal jobs must go: those past their time, and as many more as the limit demands. */
  function Doomed(jobs: seq<Job>, cutoff: int, limit: nat): (n: nat)
    ensures n <= |jobs| && |jobs| - n <= limit
    ensures n == Expired(jobs, cutoff) || |jobs| - n == limit
    ensures Expired(jobs, cutoff) <= n
  {
    if |jobs| - Expired(jobs, cutoff) <= limit then Expired(jobs, cutoff) else |jobs| - limit
  }

  /** A terminal job goes exactly when its time is past, or when as many younger ones as the limit allows are there. */
  lemma DoomedExactly(jobs: seq<Job>, cutoff: int, limit: nat, i: nat)
    requires SortedBy(jobs, Older) && i < |jobs|
    ensures i < Doomed(jobs, cutoff, limit) <==> EndedAt(jobs[i]) < cutoff || |jobs| - 1 - i >= limit
  {
    ExpiredIsPrefix(jobs, cutoff);
  }

  function Ids(jobs: seq<Job>): (r: set<JobId>) {
    set job | job in jobs :: job.id
  }

  lemma {:induction false} IdsSize(jobs: seq<Job>)
    requires Distinct(jobs)
    ensures |Ids(jobs)| == |jobs|
  {
    if jobs == [] {
      assert Ids(jobs) == {};
    } else {
      var init, last := jobs[..|jobs| - 1], jobs[|jobs| - 1];
      IdsSize(init);
      assert jobs == init + [last];
      assert Ids(jobs) == Ids(init) + {last.id};
    }
  }

  // `jobs.filter((job) => ids.has(job.id) === keep)`.
  function Filtered(jobs: seq<Job>, ids: set<JobId>, keep: bool): seq<Job> {
    if jobs == [] then []
    else Filtered(jobs[..|jobs| - 1], ids, keep) + if (jobs[|jobs| - 1].id in ids) == keep then [jobs[|jobs| - 1]] else []
  }

  lemma {:induction false} FilteredPrefix(jobs: seq<Job>, k: nat, ids: set<JobId>)
    requires Distinct(jobs) && k <= |jobs|
    requires forall i :: 0 <= i < |jobs| ==> (jobs[i].id in ids <==> i < k)
    ensures Filtered(jobs, ids, true) == jobs[..k] && Filtered(jobs, ids, false) == jobs[k..]
  {
    if jobs != [] {
      var init := jobs[..|jobs| - 1];
      FilteredPrefix(init, if k < |jobs| then k else |init|, ids);
      if k < |jobs| {
        assert init[..k] == jobs[..k] && jobs[k..] == init[k..] + [jobs[|jobs| - 1]];
      } else {
        assert jobs == init + [jobs[|jobs| - 1]] && init[|init|..] == [];
      }
    }
  }

  lemma IdsOfPrefix(jobs: seq<Job>, k: nat)
    requires Distinct(jobs) && k <= |jobs|
    ensures forall i :: 0 <= i < |jobs| ==> (jobs[i].id in Ids(jobs[..k]) <==> i < k)
    ensures k < |jobs| ==> Ids(jobs[..k + 1]) == Ids(jobs[..k]) + {jobs[k].id}
    ensures |Ids(jobs[..k])| == k
  {
    forall i | 0 <= i < k ensures jobs[i].id in Ids(jobs[..k]) {
      assert jobs[..k][i] in jobs[..k];
    }
    if k < |jobs| {
      assert jobs[..k + 1] == jobs[..k] + [jobs[k]];
    }
    IdsSize(jobs[..k]);
  }

  /** The terminal jobs of a store, oldest first. */
  predicate AgeListing(terminal: seq<Job>, files: map<JobId, Job>) {
    && SortedBy(terminal, Older) && Distinct(terminal)
    && (forall i :: 0 <= i < |terminal| ==>
          terminal[i].id in files && files[terminal[i].id] == terminal[i] && Terminal(terminal[i].status))
    && (forall id :: id in files && Terminal(files[id].status) ==> files[id] in terminal)
  }

  // ----- when a job is due -----

  /** Job `a` ended after job `b`, or as late and stands behind it in the queue. A job without an end counts from its
      creation. */
  predicate Outlives(a: Job, b: Job) {
    var ended, other := if a.finishedAt.Some? then a.finishedAt.value else a.createdAt,
      if b.finishedAt.Some? then b.finishedAt.value else b.createdAt;
    || ended > other
    || (ended == other && (a.queueOrder > b.queueOrder || (a.queueOrder == b.queueOrder && a.id > b.id)))
  }

  predicate HasEnded(job: Job) {
    job.status != Queued && job.status != Running
  }

  /** A job must go when it has ended before the cutoff, or when as many jobs as the limit allows outlive it. */
  predicate Due(files: map<JobId, Job>, id: JobId, cutoff: int, limit: nat)
    requires id in files
  {
    && HasEnded(files[id])
    && (|| (if files[id].finishedAt.Some? then files[id].finishedAt.value else files[id].createdAt) < cutoff
        || |set other | other in files && HasEnded(files[other]) && Outlives(files[other], files[id])| >= limit)
  }

  function Younger(files: map<JobId, Job>, job: Job): set<JobId> {
    set other | other in files && HasEnded(files[other]) && Outlives(files[other], job)
  }

  lemma OlderDiesFirst(a: Job, b: Job)
    ensures Older(a, b) ==> !Outlives(a, b)
  {
  }

  lemma YoungerIsBehind(terminal: seq<Job>, files: map<JobId, Job>, i: nat, id: JobId)
    requires AgeListing(terminal, files) && i < |terminal| && id in Younger(files, terminal[i])
    ensures id in files && files[id] in terminal[i + 1..]
  {
    var j :| 0 <= j < |terminal| && terminal[j] == files[id];
    OlderDiesFirst(terminal[j], terminal[i]);
    assert terminal[i + 1..][j - i - 1] == terminal[j];
  }

  lemma BehindIsYounger(terminal: seq<Job>, files: map<JobId, Job>, i: nat, k: nat)
    requires AgeListing(terminal, files) && i < k < |terminal|
    ensures terminal[k].id in Younger(files, terminal[i])
  {
    assert Older(terminal[i], terminal[k]);
  }

  lemma OutlivesBehind(terminal: seq<Job>, files: map<JobId, Job>, i: nat)
    requires AgeListing(terminal, files) && i < |terminal| && forall id :: id in files ==> files[id].id == id
    ensures Ids(terminal[i + 1..]) == Younger(files, terminal[i])
  {
    hide AgeListing, Younger;
    forall id | id in Younger(files, terminal[i]) ensures id in Ids(terminal[i + 1..]) {
      YoungerIsBehind(terminal, files, i, id);
    }
    forall id | id in Ids(terminal[i + 1..]) ensures id in Younger(files, terminal[i]) {
      var k :| 0 <= k < |terminal[i + 1..]| && terminal[i + 1..][k].id == id;
      BehindIsYounger(terminal, files, i, i + 1 + k);
    }
  }

  lemma DoomedAreDue(terminal: seq<Job>, files: map<JobId, Job>, cutoff: int, limit: nat, i: nat)
    requires AgeListing(terminal, files) && i < |terminal| && forall id :: id in files ==> files[id].id == id
    ensures i < Doomed(terminal, cutoff, limit) <==> Due(files, terminal[i].id, cutoff, limit)
  {
    DoomedExactly(terminal, cutoff, limit, i);
    OutlivesBehind(terminal, files, i);
    IdsSize(terminal[i + 1..]);
    assert Younger(files, terminal[i])
        == set other | other in files && HasEnded(files[other]) && Outlives(files[other], files[terminal[i].id]);
    hide Ids, Younger, Doomed, Outlives, SortedBy, Distinct;
  }

  /** What retention deletes is what is due. */
  lemma DeletedAreDue(terminal: seq<Job>, files: map<JobId, Job>, cutoff: int, limit: nat, id: JobId)
    requires AgeListing(terminal, files) && id in files && forall id :: id in files ==> files[id].id == id
    ensures id in Ids(terminal[..Doomed(terminal, cutoff, limit)]) <==> Due(files, id, cutoff, limit)
  {
    hide Ids, Doomed, Outlives, SortedBy, Due;
    if Terminal(files[id].status) {
      var i :| 0 <= i < |terminal| && terminal[i] == files[id];
      DoomedAreDue(terminal, files, cutoff, limit, i);
      IdsOfPrefix(terminal, Doomed(terminal, cutoff, limit));
    } else {
      ActiveIsKept(terminal, files, Doomed(terminal, cutoff, limit), id, cutoff, limit);
    }
  }

  lemma ActiveIsKept(terminal: seq<Job>, files: map<JobId, Job>, n: nat, id: JobId, cutoff: int, limit: nat)
    requires AgeListing(terminal, files) && n <= |terminal| && id in files && !Terminal(files[id].status)
    ensures id !in Ids(terminal[..n]) && !Due(files, id, cutoff, limit)
  {
  }

  datatype Deletion = Deletion(job: JobId, mode: Mode, session: bool)

  // Only a tmux job is reported with its session.
  function DeletionOf(job: Job): Deletion {
    Deletion(job.id, job.mode, job.mode.TmuxMode? && job.session.Some?)
  }

  function Deletions(jobs: seq<Job>): (r: seq<Deletion>)
    ensures |r| == |jobs| && forall i :: 0 <= i < |r| ==> r[i] == DeletionOf(jobs[i])
  {
    seq(|jobs|, i requires 0 <= i < |jobs| => DeletionOf(jobs[i]))
  }

  lemma DeletionsSay(jobs: seq<Job>)
    ensures forall i :: 0 <= i < |jobs| ==>
              && Deletions(jobs)[i].job == jobs[i].id && Deletions(jobs)[i].mode == jobs[i].mode
              && (Deletions(jobs)[i].session <==> jobs[i].mode == TmuxMode && jobs[i].session.Some?)
  {
  }

  /** Which of the terminal jobs, oldest first, are to be deleted: a beginning of the list. */
  method ChooseDeletions(jobs: seq<Job>, cutoff: int, limit: nat) returns (deleteIds: set<JobId>)
    requires SortedBy(jobs, Older) && Distinct(jobs)
    ensures deleteIds == Ids(jobs[..Doomed(jobs, cutoff, limit)])
  {
    hide Ids, Filtered, SortedBy, Expired, Distinct;
    ghost var expired := Expired(jobs, cutoff);
    deleteIds := AddExpired(jobs, cutoff);
    IdsOfPrefix(jobs, expired);
    FilteredPrefix(jobs, expired, deleteIds);
    var remaining := Filtered(jobs, deleteIds, false);
    var overflow := if |remaining| <= limit then 0 else |remaining| - limit;
    deleteIds := AddOverflow(jobs, expired, deleteIds, remaining, overflow);
  }

  method AddOverflow(ghost jobs: seq<Job>, ghost expired: nat, ids: set<JobId>, remaining: seq<Job>, overflow: nat)
    returns (deleteIds: set<JobId>)
    requires Distinct(jobs) && expired <= |jobs| && remaining == jobs[expired..] && overflow <= |remaining|
    requires ids == Ids(jobs[..expired])
    ensures deleteIds == Ids(jobs[..expired + overflow])
  {
    hide Ids, Distinct;
    deleteIds := ids;
    for i := 0 to overflow
      invariant deleteIds == Ids(jobs[..expired + i])
    {
      IdsOfPrefix(jobs, expired + i);
      deleteIds := deleteIds + {remaining[i].id};
    }
  }

  method AddExpired(jobs: seq<Job>, cutoff: int) returns (deleteIds: set<JobId>)
    requires SortedBy(jobs, Older) && Distinct(jobs)
    ensures deleteIds == Ids(jobs[..Expired(jobs, cutoff)])
  {
    ExpiredIsPrefix(jobs, cutoff);
    ghost var expired := Expired(jobs, cutoff);
    deleteIds := {};
    for i := 0 to |jobs|
      invariant deleteIds == Ids(jobs[..if i < expired then i else expired])
    {
      if i < expired {
        IdsOfPrefix(jobs, i);
      }
      if EndedAt(jobs[i]) < cutoff {
        deleteIds := deleteIds + {jobs[i].id};
      }
    }
  }

  /** How many of the listed jobs are active. */
  method CountListed(jobs: seq<Job>) returns (n: nat)
    requires Distinct(jobs)
    ensures n == |set k | 0 <= k < |jobs| && Active(jobs[k].status) :: jobs[k].id|
  {
    n := 0;
    ghost var ids: set<JobId> := {};
    for i := 0 to |jobs|
      invariant ids == set k | 0 <= k < i && Active(jobs[k].status) :: jobs[k].id
      invariant n == |ids|
    {
      if Active(jobs[i].status) {
        assert jobs[i].id !in ids;
        n := n + 1;
        ids := ids + {jobs[i].id};
      }
    }
  }

  // ----- the repository -----

  class Repository {
    var files: map<JobId, Job>

    // A file whose job has another id is not read as a job.
    predicate Valid()
      reads this
    {
      forall id :: id in files ==> files[id].id == id
    }

    constructor ()
      ensures Valid() && files == map[]
    {
      files := map[];
    }

    method Save(job: Job)
      requires Valid()
      modifies this
      ensures Valid() && files == old(files)[job.id := job]
    {
      files := files[job.id := job];
    }

    method GetById(id: JobId) returns (job: Option<Job>)
      requires Valid()
      ensures job == if id in files then Some(files[id]) else None
    {
      return if id in files then Some(files[id]) else None;
    }

    /** The compare-and-set: only a job in an expected status is updated, and nothing else changes. */
    method Transition(id: JobId, op: Op) returns (transitioned: bool, job: Option<Job>)
      requires Valid()
      modifies this
      ensures Valid()
      ensures transitioned <==> id in old(files) && old(files)[id].status in Expected(op)
      ensures files == if transitioned then old(files)[id := Update(op, old(files)[id])] else old(files)
      ensures job == if id in files then Some(files[id]) else None
    {
      var current := GetById(id);
      if current.None? || current.value.status !in Expected(op) {
        return false, current;
      }
      UpdateShape(op, current.value);
      var next := Update(op, current.value);
      files := files[id := next];
      return true, Some(next);
    }

    /** All jobs, in the order in which they are claimed. */
    method ListAll() returns (jobs: seq<Job>)
      requires Valid()
      ensures JobProtocol.SortedListing(jobs, files) && Distinct(jobs) && |jobs| == |files|
      ensures forall job :: job in jobs <==> job.id in files && files[job.id] == job
      ensures forall i, j :: 0 <= i < j < |jobs| ==>
                && jobs[i].queueOrder <= jobs[j].queueOrder
                && (jobs[i].queueOrder == jobs[j].queueOrder ==> jobs[i].createdAt <= jobs[j].createdAt)
                && (jobs[i].queueOrder == jobs[j].queueOrder && jobs[i].createdAt == jobs[j].createdAt ==> jobs[i].id < jobs[j].id)
    {
      var read: seq<Job> := [];
      var left := files.Keys;
      while left != {}
        invariant left <= files.Keys && |read| + |left| == |files.Keys|
        invariant forall job :: job in read <==> job.id in files && job.id !in left && files[job.id] == job
        invariant Distinct(read)
      {
        var id :| id in left;
        assert forall i :: 0 <= i < |read| ==> read[i] in read;
        read := read + [files[id]];
        left := left - {id};
      }
      jobs := Sorted(read, JobProtocol.Before);
      SortedIsSorted(read, JobProtocol.Before);
      ListingIs(jobs);
    }

    lemma ListingIs(jobs: seq<Job>)
      requires Valid() && SortedBy(jobs, JobProtocol.Before)
      requires forall job :: job in jobs <==> job.id in files && files[job.id] == job
      ensures JobProtocol.SortedListing(jobs, files) && Distinct(jobs)
    {
      assert forall i :: 0 <= i < |jobs| ==> jobs[i] in jobs;
    }

    method CountActive() returns (n: nat)
      requires Valid()
      ensures n == |set id | id in files && (files[id].status == Queued || files[id].status == Running)|
    {
      var jobs := ListAll();
      ActiveListed(jobs, files);
      n := CountListed(jobs);
    }

    method TerminalByAge() returns (terminal: seq<Job>)
      requires Valid()
      ensures AgeListing(terminal, files)
    {
      var jobs := ListAll();
      TerminalDistinct(jobs);
      terminal := Sorted(TerminalOnly(jobs), Older);
      SortedIsSorted(TerminalOnly(jobs), Older);
      assert forall i :: 0 <= i < |terminal| ==> terminal[i] in terminal;
      assert forall i :: 0 <= i < |jobs| ==> jobs[i] in jobs;
      SortedDistinct(terminal);
    }

    /** Retention: of the terminal jobs, oldest first, it deletes those past their time and as many more as the limit
        demands, and nothing else. What it deletes is a beginning of that list, which it reports in order, and what it
        keeps is within the limit. */
    method CleanupTerminalJobs(now: nat, retentionMs: nat, limit: nat)
      returns (deleted: nat, retained: nat, entries: seq<Deletion>, ghost terminal: seq<Job>)
      requires Valid()
      modifies this
      ensures Valid() && AgeListing(terminal, old(files))
      ensures deleted == Doomed(terminal, now - retentionMs, limit)
      ensures deleted + retained == |terminal| && retained <= limit
      ensures entries == Deletions(terminal[..deleted])
      ensures files == old(files) - Ids(terminal[..deleted])
      ensures forall id :: id in old(files) ==> (id in files <==> !Due(old(files), id, now - retentionMs, limit))
      ensures forall i :: 0 <= i < |entries| ==>
                && entries[i].job == terminal[i].id && entries[i].mode == terminal[i].mode
                && (entries[i].session <==> terminal[i].mode == TmuxMode && terminal[i].session.Some?)
    {
      hide Ids, Filtered, SortedBy, Doomed, Deletions, Due;
      var jobs := TerminalByAge();
      terminal := jobs;
      var deleteIds := ChooseDeletions(jobs, now - retentionMs, limit);
      ghost var k := Doomed(jobs, now - retentionMs, limit);
      IdsOfPrefix(jobs, k);
      FilteredPrefix(jobs, k, deleteIds);
      Unlink(deleteIds);
      deleted, retained := |deleteIds|, |jobs| - |deleteIds|;
      entries := Deletions(Filtered(jobs, deleteIds, true));
      forall id | id in old(files) ensures id in files <==> !Due(old(files), id, now - retentionMs, limit) {
        DeletedAreDue(terminal, old(files), now - retentionMs, limit, id);
      }
      DeletionsSay(jobs[..k]);
    }

    // The files go one after the other.
    method Unlink(ids: set<JobId>)
      requires Valid()
      modifies this
      ensures Valid() && files == old(files) - ids
    {
      var left := ids;
      while left != {}
        invariant left <= ids && Valid() && files == old(files) - (ids - left)
      {
        var id :| id in left;
        files := files - {id};
        left := left - {id};
      }
    }
  }

  lemma ActiveListed(jobs: seq<Job>, files: map<JobId, Job>)
    requires forall job :: job in jobs <==> job.id in files && files[job.id] == job
    requires forall id :: id in files ==> files[id].id == id
    ensures (set k | 0 <= k < |jobs| && Active(jobs[k].status) :: jobs[k].id)
         == set id | id in files && (files[id].status == Queued || files[id].status == Running)
  {
    assert forall k :: 0 <= k < |jobs| ==> jobs[k] in jobs;
    forall id | id in files ensures exists k :: 0 <= k < |jobs| && jobs[k] == files[id] {
      assert files[id] in jobs;
    }
  }

  lemma {:induction false} TerminalDistinct(jobs: seq<Job>)
    requires Distinct(jobs)
    ensures Distinct(TerminalOnly(jobs))
  {
    if jobs != [] {
      var init, last := jobs[..|jobs| - 1], jobs[|jobs| - 1];
      TerminalDistinct(init);
      var r := TerminalOnly(init);
      forall i | 0 <= i < |r| ensures r[i].id != last.id {
        assert r[i] in r;
        var j :| 0 <= j < |init| && init[j] == r[i];
        assert jobs[j].id != jobs[|jobs| - 1].id;
      }
    }
  }

  lemma SortedDistinct(jobs: seq<Job>)
    requires SortedBy(jobs, Older)
    requires forall i, j :: 0 <= i < |jobs| && 0 <= j < |jobs| && jobs[i].id == jobs[j].id ==> jobs[i] == jobs[j]
    ensures Distinct(jobs)
  {
  }
}

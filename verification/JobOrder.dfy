/** Outside shutdown the claimed job is the least queued one of the listing. */
module JobOrder {
  import opened Wrappers
  import opened JobModel
  import opened JobProtocol
  import opened JobInvariants
  import opened JobStarts
  import opened JobLoad

  // No queued job that a claimer has seen is in flight, unless the process is shutting down.
  ghost predicate FreshView(s: State, task: Task) {
    task.Listing? && task.goal.ClaimGoal? && !s.shuttingDown ==>
      forall id :: id in task.seen && task.seen[id].status == Queued ==> id !in s.inFlight
  }

  ghost predicate ViewsFresh(s: State) {
    forall t :: t in s.tasks ==> FreshView(s, s.tasks[t])
  }

  lemma PlainShutdown(s: State, e: Event)
    requires Enabled(s, e) && LoadPlain(s, e)
    ensures Apply(s, e).shuttingDown == s.shuttingDown
  {
    hide RunNext, ActiveIds, WithNotice, Survives, CanClaimPick, DoClaimPick, Announced, Update;
  }

  // A claimer that is listing holds the mutex, so that nothing is claimed and `inFlight` only shrinks.
  lemma PlainFresh(s: State, e: Event)
    requires Core(s) && ViewsFresh(s) && Enabled(s, e) && LoadPlain(s, e)
    ensures ViewsFresh(Apply(s, e))
  {
    PlainQuiet(s, e);
    PlainShutdown(s, e);
    QuietFresh(s, Apply(s, e), e.t);
  }

  lemma QuietFresh(s: State, s': State, t: TaskId)
    requires Core(s) && ViewsFresh(s) && LoadQuiet(s, s', t) && s'.shuttingDown == s.shuttingDown
    ensures ViewsFresh(s')
  {
    hide DiskOk, QuietOk;
    forall u | u in s'.tasks && s'.tasks[u].Listing? && s'.tasks[u].goal.ClaimGoal? ensures FreshView(s', s'.tasks[u]) {
      assert u in s.tasks && s'.tasks[u] == s.tasks[u];
      assert FreshView(s, s.tasks[u]) && TaskOk(s.disk, s.locks, u, s.tasks[u]);
      forall v | v in s.tasks ensures !Claimed(s.tasks[v]) {
        assert TaskOk(s.disk, s.locks, v, s.tasks[v]);
      }
    }
  }

  lemma ListFresh(s: State, e: Event)
    requires Tokens(s) && ViewsFresh(s) && Enabled(s, e) && (e.ListBegin? || e.ListRead?)
    ensures ViewsFresh(Apply(s, e))
  {
    assert FreshView(s, s.tasks[e.t]);
  }

  lemma OtherFresh(s: State, e: Event)
    requires ViewsFresh(s) && Enabled(s, e)
    requires e.ClaimPick? || e.CountEnd? || e.CasWrite? || e.SaveWrite?
    ensures ViewsFresh(Apply(s, e))
  {
  }

  lemma FreshKept(s: State, e: Event)
    requires Core(s) && Tokens(s) && ViewsFresh(s) && Enabled(s, e)
    ensures ViewsFresh(Apply(s, e))
  {
    if LoadPlain(s, e) {
      PlainFresh(s, e);
    } else if e.ListBegin? || e.ListRead? {
      ListFresh(s, e);
    } else if e.ClaimPick? || e.CountEnd? || e.CasWrite? || e.SaveWrite? {
      OtherFresh(s, e);
    }
  }

  lemma FirstIsLeast(listing: seq<Job>, seen: map<JobId, Job>, inFlight: set<JobId>, q: JobId)
    requires SortedListing(listing, seen)
    requires q in seen && seen[q].id == q && seen[q].status == Queued && q !in inFlight
    ensures var first := FirstClaimable(listing, inFlight);
            first.Some? && first.value in seen && (first.value == q || Before(seen[first.value], seen[q]))
  {
    var k :| 0 <= k < |listing| && listing[k] == seen[q];
    var first := FirstClaimable(listing, inFlight);
    assert first.Some?;
    var i :| 0 <= i < |listing| && listing[i].id == first.value && listing[i].status == Queued
             && first.value !in inFlight
             && forall j :: 0 <= j < i ==> listing[j].status != Queued || listing[j].id in inFlight;
    assert i <= k;
  }

  /** A claim goes for the queued job that precedes every other queued job of the listing. */
  lemma ClaimsInOrder(s: State, t: TaskId, listing: seq<Job>, now: nat, id: JobId)
    requires Core(s) && ViewsFresh(s) && !s.shuttingDown && CanClaimPick(s, t, listing)
    requires TaskAt(DoClaimPick(s, t, listing, now), t) == Some(Cas(id, Claim(now), Claiming, Waiting))
    ensures id in s.tasks[t].seen && s.tasks[t].seen[id].status == Queued
    ensures forall q :: q in s.tasks[t].seen && s.tasks[t].seen[q].status == Queued && q != id ==>
              Before(s.tasks[t].seen[id], s.tasks[t].seen[q])
  {
    var seen := s.tasks[t].seen;
    assert FreshView(s, s.tasks[t]) && TaskOk(s.disk, s.locks, t, s.tasks[t]);
    var candidate := ClaimPickShape(s, t, listing, now);
    assert candidate == Some(id);
    assert FirstClaimable(listing, s.inFlight) == candidate;
    forall q | q in seen && seen[q].status == Queued && q != id ensures Before(seen[id], seen[q]) {
      FirstIsLeast(listing, seen, s.inFlight, q);
    }
  }
}

/** The shared store of pending notifications: deduplication, bounded retention and drains over one file that
    several processes use. Mirrors omx-dispatch/notification-store.ts. A critical section of the store, which the
    file lock makes exclusive, is one method or one step. */
module NotificationStore {
  import opened Sequences
  import opened Wrappers

  // A job id, as its rank in the collation order that breaks ties.
  type JobId = nat

  datatype Notification = Notification(job: JobId, time: int, body: string)

  // ----- deduplication -----

  predicate Before(left: Notification, right: Notification) {
    left.time < right.time || (left.time == right.time && left.job < right.job)
  }

  predicate AllBefore(q: seq<Notification>, n: Notification) {
    forall x :: x in q ==> Before(x, n) && x.job != n.job
  }

  /** Strictly ordered, with one notification a job. */
  predicate Ordered(q: seq<Notification>) {
    q == [] || (AllBefore(q[..|q| - 1], q[|q| - 1]) && Ordered(q[..|q| - 1]))
  }

  lemma OrderedSnoc(q: seq<Notification>, n: Notification)
    ensures Ordered(q + [n]) <==> Ordered(q) && AllBefore(q, n)
  {
    assert (q + [n])[..|q|] == q;
  }

  predicate NewestAt(history: seq<Notification>, i: nat)
    requires i < |history|
  {
    forall j :: 0 <= j < |history| && history[j].job == history[i].job ==>
      history[j].time < history[i].time || (history[j].time == history[i].time && j <= i)
  }

  /** No notification of the same job is later, nor as late and further down. */
  predicate Newest(history: seq<Notification>, n: Notification) {
    exists i :: 0 <= i < |history| && history[i] == n && NewestAt(history, i)
  }

  /** What deduplication should give: the newest notification of every job, in order. */
  ghost predicate Deduped(history: seq<Notification>, q: seq<Notification>) {
    Ordered(q) && forall n :: n in q <==> Newest(history, n)
  }

  lemma SnocIn(q: seq<Notification>)
    requires q != []
    ensures q == q[..|q| - 1] + [q[|q| - 1]]
    ensures forall n :: n in q <==> n in q[..|q| - 1] || n == q[|q| - 1]
  {
  }

  lemma {:induction false} OrderedUnique(a: seq<Notification>, b: seq<Notification>)
    requires Ordered(a) && Ordered(b) && forall n :: n in a <==> n in b
    ensures a == b
  {
    assert forall i :: 0 <= i < |a| ==> a[i] in b;
    assert forall i :: 0 <= i < |b| ==> b[i] in a;
    if a != [] {
      SnocIn(a);
      SnocIn(b);
      var a', b' := a[..|a| - 1], b[..|b| - 1];
      assert a[|a| - 1] in b && b[|b| - 1] in a;
      assert a[|a| - 1] == b[|b| - 1];
      assert a[|a| - 1] !in a' && a[|a| - 1] !in b';
      forall n ensures n in a' <==> n in b' {
        assert n in a' <==> n in a && n != a[|a| - 1];
        assert n in b' <==> n in b && n != b[|b| - 1];
      }
      OrderedUnique(a', b');
    }
  }

  // `q` without the notification of a job.
  function Without(q: seq<Notification>, job: JobId): (r: seq<Notification>)
    ensures forall n :: n in r <==> n in q && n.job != job
    ensures Ordered(q) ==> Ordered(r)
    ensures multiset(r) <= multiset(q) && |r| <= |q|
  {
    if q == [] then []
    else
      var rest, last := Without(q[..|q| - 1], job), q[|q| - 1];
      SnocIn(q);
      OrderedSnoc(rest, last);
      if last.job == job then rest else rest + [last]
  }

  // `n` put at its place.
  function Place(q: seq<Notification>, n: Notification): (r: seq<Notification>)
    ensures forall x :: x in r <==> x == n || x in q
    ensures multiset(r) == multiset(q) + multiset{n} && |r| == |q| + 1
    ensures Ordered(q) && (forall x :: x in q ==> x.job != n.job) ==> Ordered(r)
  {
    if q == [] then [n]
    else if Before(q[|q| - 1], n) then
      SnocIn(q);
      OrderedSnoc(q, n);
      q + [n]
    else
      var rest, last := Place(q[..|q| - 1], n), q[|q| - 1];
      SnocIn(q);
      OrderedSnoc(rest, last);
      rest + [last]
  }

  /** `n` arrives too late to be kept: there is a later notification of its job. */
  predicate Stale(q: seq<Notification>, n: Notification) {
    exists x :: x in q && x.job == n.job && x.time > n.time
  }

  function Absorb(q: seq<Notification>, n: Notification): (r: seq<Notification>)
    ensures forall x :: x in r <==> if Stale(q, n) then x in q else x == n || (x in q && x.job != n.job)
    ensures Ordered(q) ==> Ordered(r)
    ensures multiset(r) <= multiset(q) + multiset{n} && |r| <= |q| + 1
  {
    if Stale(q, n) then q else Place(Without(q, n.job), n)
  }

  /** Deduplication as a batch: every notification of the history in turn takes the place of the earlier ones of its job. */
  function Dedupe(history: seq<Notification>): (q: seq<Notification>)
    ensures Ordered(q) && |q| <= |history|
    ensures multiset(q) <= multiset(history)
  {
    if history == [] then []
    else
      assert history == history[..|history| - 1] + [history[|history| - 1]];
      Absorb(Dedupe(history[..|history| - 1]), history[|history| - 1])
  }

  lemma NewestSnoc(history: seq<Notification>, last: Notification, n: Notification)
    ensures Newest(history + [last], n) <==>
              || (n == last && !Stale(history, last))
              || (Newest(history, n) && (n.job == last.job ==> last.time < n.time))
  {
    var h := history + [last];
    if Newest(h, n) {
      var i :| 0 <= i < |h| && h[i] == n && NewestAt(h, i);
      if i < |history| {
        assert h[|history|] == last;
        forall j | 0 <= j < |history| && history[j].job == history[i].job
          ensures history[j].time < history[i].time || (history[j].time == history[i].time && j <= i)
        {
          assert h[j] == history[j];
        }
      } else {
        forall x | x in history && x.job == last.job ensures x.time <= last.time {
          var j :| 0 <= j < |history| && history[j] == x;
          assert h[j] == x;
        }
      }
    }
    if n == last && !Stale(history, last) {
      assert NewestAt(h, |history|);
    } else if Newest(history, n) && (n.job == last.job ==> last.time < n.time) {
      var i :| 0 <= i < |history| && history[i] == n && NewestAt(history, i);
      assert h[i] == n && NewestAt(h, i);
    }
  }

  lemma NewestIsLate(history: seq<Notification>, n: Notification, x: Notification)
    requires Newest(history, n) && x in history && x.job == n.job
    ensures n in history && x.time <= n.time
  {
  }

  // Whatever the history holds of a job, the newest of it is at least as late.
  lemma {:induction false} NewestExists(history: seq<Notification>, x: Notification) returns (n: Notification)
    requires x in history
    ensures Newest(history, n) && n.job == x.job && n.time >= x.time
  {
    var h, last := history[..|history| - 1], history[|history| - 1];
    assert history == h + [last];
    if Stale(h, last) || x != last {
      var y := if Stale(h, last) && last.job == x.job then var y :| y in h && y.job == last.job && y.time > last.time; y else x;
      n := NewestExists(h, if x in h then x else y);
      NewestSnoc(h, last, n);
      NewestSnoc(h, last, last);
      if n.job == last.job && last.time >= n.time {
        if Stale(h, last) {
          NewestIsLate(h, n, y);
        }
        n := last;
      }
    } else {
      n := last;
      NewestSnoc(h, last, n);
    }
  }

  /** The incremental fold keeps exactly the newest notification of every job. */
  lemma {:induction false} DedupeMeaning(history: seq<Notification>)
    ensures Deduped(history, Dedupe(history))
  {
    if history != [] {
      var h, last := history[..|history| - 1], history[|history| - 1];
      assert history == h + [last];
      DedupeMeaning(h);
      StaleDeduped(h, last);
      forall n ensures n in Dedupe(history) <==> Newest(history, n) {
        NewestSnoc(h, last, n);
        if Newest(h, n) && Stale(h, last) && n.job == last.job {
          var y :| y in h && y.job == last.job && y.time > last.time;
          NewestIsLate(h, n, y);
        }
        if Newest(h, n) {
          NewestIsLate(h, n, n);
        }
      }
    }
  }

  lemma StaleDeduped(history: seq<Notification>, n: Notification)
    requires Deduped(history, Dedupe(history))
    ensures Stale(Dedupe(history), n) <==> Stale(history, n)
  {
    if Stale(history, n) {
      var y :| y in history && y.job == n.job && y.time > n.time;
      var x := NewestExists(history, y);
    }
  }

  /** The kept notifications stand in the order of their times and, where these are equal, of their jobs, and no job is there
      twice. */
  lemma {:induction false} DedupedInOrder(q: seq<Notification>, i: nat, j: nat)
    requires Ordered(q) && i < j < |q|
    ensures q[i].job != q[j].job && (q[i].time < q[j].time || (q[i].time == q[j].time && q[i].job < q[j].job))
  {
    var init := q[..|q| - 1];
    if j < |q| - 1 {
      DedupedInOrder(init, i, j);
    } else {
      assert init[i] in init;
    }
  }

  /** Deduplication is decided by its meaning: an ordered queue of the same notifications is the same queue. */
  lemma DedupedUnique(history: seq<Notification>, q: seq<Notification>)
    requires Deduped(history, q)
    ensures q == Dedupe(history)
  {
    DedupeMeaning(history);
    OrderedUnique(q, Dedupe(history));
  }

  lemma {:induction false} DedupeOrdered(q: seq<Notification>)
    requires Ordered(q)
    ensures Dedupe(q) == q
  {
    if q != [] {
      var rest, last := q[..|q| - 1], q[|q| - 1];
      DedupeOrdered(rest);
      SnocIn(q);
      OrderedUnique(Dedupe(q), q);
    }
  }

  lemma DedupeSnoc(history: seq<Notification>, n: Notification)
    ensures Dedupe(history + [n]) == Absorb(Dedupe(history), n)
  {
    assert (history + [n])[..|history|] == history;
  }

  /** Old entries need no second look: deduplicating what is left of them together with the new ones is the same as
      deduplicating everything. */
  lemma {:induction false} DedupeAgain(kept: seq<Notification>, more: seq<Notification>)
    ensures Dedupe(Dedupe(kept) + more) == Dedupe(kept + more)
  {
    hide Dedupe, Absorb;
    if more == [] {
      assert Dedupe(kept) + more == Dedupe(kept) && kept + more == kept;
      DedupeOrdered(Dedupe(kept));
    } else {
      var init, last := more[..|more| - 1], more[|more| - 1];
      DedupeAgain(kept, init);
      DedupeSnoc(Dedupe(kept) + init, last);
      DedupeSnoc(kept + init, last);
      assert Dedupe(kept) + init + [last] == Dedupe(kept) + more;
      assert kept + init + [last] == kept + more;
    }
  }

  predicate Holds(byJobId: map<JobId, Notification>, n: Notification) {
    n.job in byJobId && byJobId[n.job] == n
  }

  // The map holds the newest notification of every job of the history.
  ghost predicate Tracks(byJobId: map<JobId, Notification>, history: seq<Notification>) {
    && (forall job :: job in byJobId ==> byJobId[job].job == job)
    && (forall n :: Newest(history, n) <==> Holds(byJobId, n))
  }

  lemma TracksStale(byJobId: map<JobId, Notification>, history: seq<Notification>, n: Notification)
    requires Tracks(byJobId, history)
    ensures Stale(history, n) <==> n.job in byJobId && n.time < byJobId[n.job].time
  {
    if Stale(history, n) {
      var y :| y in history && y.job == n.job && y.time > n.time;
      var x := NewestExists(history, y);
      assert Holds(byJobId, x);
    } else if n.job in byJobId {
      assert Holds(byJobId, byJobId[n.job]);
    }
  }

  lemma TracksSnoc(byJobId: map<JobId, Notification>, history: seq<Notification>, n: Notification)
    requires Tracks(byJobId, history)
    ensures Tracks(if n.job in byJobId && n.time < byJobId[n.job].time then byJobId else byJobId[n.job := n], history + [n])
  {
    TracksStale(byJobId, history, n);
    var next := if n.job in byJobId && n.time < byJobId[n.job].time then byJobId else byJobId[n.job := n];
    forall x ensures Newest(history + [n], x) <==> Holds(next, x) {
      NewestSnoc(history, n, x);
      assert Newest(history, x) <==> Holds(byJobId, x);
    }
  }

  /** The loop over a map and the sort that the store runs. */
  method DedupeByMap(notifications: seq<Notification>) returns (q: seq<Notification>)
    ensures q == Dedupe(notifications)
  {
    var byJobId: map<JobId, Notification> := map[];
    for i := 0 to |notifications|
      invariant Tracks(byJobId, notifications[..i])
    {
      var n := notifications[i];
      assert notifications[..i + 1] == notifications[..i] + [n];
      TracksSnoc(byJobId, notifications[..i], n);
      if n.job !in byJobId || n.time >= byJobId[n.job].time {
        byJobId := byJobId[n.job := n];
      }
    }
    q := SortedValues(byJobId);
    assert notifications[..|notifications|] == notifications;
    DedupedUnique(notifications, q);
  }

  // `[...byJobId.values()].sort(...)`.
  method SortedValues(byJobId: map<JobId, Notification>) returns (q: seq<Notification>)
    requires forall job :: job in byJobId ==> byJobId[job].job == job
    ensures Ordered(q) && forall n :: n in q <==> Holds(byJobId, n)
  {
    q := [];
    var left := byJobId.Keys;
    while left != {}
      invariant left <= byJobId.Keys && Ordered(q)
      invariant forall n :: n in q <==> n.job in byJobId && n.job !in left && byJobId[n.job] == n
    {
      var job :| job in left;
      q := Place(q, byJobId[job]);
      left := left - {job};
    }
  }
}

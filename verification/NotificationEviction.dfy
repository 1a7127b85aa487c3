/** Bounded retention: the store that evicts as it goes keeps what the batch definition keeps. */
module NotificationEviction {
  import opened Sequences
  import opened NotificationStore

  predicate EveryBefore(front: seq<Notification>, back: seq<Notification>) {
    forall x, y :: x in front && y in back ==> Before(x, y) && x.job != y.job
  }

  lemma {:induction false} OrderedSplit(q: seq<Notification>, k: nat)
    requires Ordered(q) && k <= |q|
    ensures Ordered(q[..k]) && Ordered(q[k..]) && EveryBefore(q[..k], q[k..])
    ensures forall x :: x in q <==> x in q[..k] || x in q[k..]
  {
    if k < |q| {
      var rest, last := q[..|q| - 1], q[|q| - 1];
      OrderedSplit(rest, k);
      assert rest[..k] == q[..k];
      assert q[k..] == rest[k..] + [last];
      OrderedSnoc(rest[k..], last);
    } else {
      assert q[..k] == q && q[k..] == [];
    }
  }

  predicate InOrBefore(q: seq<Notification>, back: seq<Notification>) {
    && (forall x :: x in back ==> x in q)
    && (forall x, y :: x in q && y in back ==> x in back || Before(x, y))
  }

  // Two ordered queues one of which ends the other have one last entry, and what is before it is related in the same way.
  lemma SameLast(q: seq<Notification>, back: seq<Notification>)
    requires q != [] && back != [] && InOrBefore(q, back)
    requires AllBefore(q[..|q| - 1], q[|q| - 1]) && AllBefore(back[..|back| - 1], back[|back| - 1])
    ensures q[|q| - 1] == back[|back| - 1] && InOrBefore(q[..|q| - 1], back[..|back| - 1])
  {
    var t, s := q[|q| - 1], back[|back| - 1];
    SnocIn(q);
    SnocIn(back);
    assert t in q && s in back;
    assert s == t;
    var q', back' := q[..|q| - 1], back[..|back| - 1];
    forall x | x in back' ensures x in q' {
      assert x in back && Before(x, s);
    }
    forall x, y | x in q' && y in back' ensures x in back' || Before(x, y) {
      assert x in q && y in back;
      assert Before(x, s);
    }
  }

  // A suffix of an ordered queue is known by its members.
  lemma {:induction false} SuffixByMembers(q: seq<Notification>, back: seq<Notification>)
    requires Ordered(q) && Ordered(back) && InOrBefore(q, back)
    ensures LastN(q, |back|) == back
  {
    if back != [] {
      assert back[|back| - 1] in back && q != [];
      assert AllBefore(q[..|q| - 1], q[|q| - 1]) && AllBefore(back[..|back| - 1], back[|back| - 1]);
      SameLast(q, back);
      hide InOrBefore, AllBefore;
      var q', back' := q[..|q| - 1], back[..|back| - 1];
      SuffixByMembers(q', back');
      assert |back'| <= |q'|;
    }
  }

  predicate Has(q: seq<Notification>, job: JobId) {
    exists x :: x in q && x.job == job
  }

  lemma {:induction false} WithoutSize(q: seq<Notification>, job: JobId)
    requires Ordered(q)
    ensures |Without(q, job)| == if Has(q, job) then |q| - 1 else |q|
  {
    if q != [] {
      SnocIn(q);
      WithoutSize(q[..|q| - 1], job);
    }
  }

  lemma AbsorbSize(q: seq<Notification>, n: Notification)
    requires Ordered(q)
    ensures |Absorb(q, n)| == if Has(q, n.job) then |q| else |q| + 1
  {
    WithoutSize(q, n.job);
  }

  // The kept entries after `n` has been absorbed, and without a first entry too many, stay behind the evicted ones.
  lemma StaysBehind(evicted: seq<Notification>, kept: seq<Notification>, n: Notification, front: seq<Notification>,
                    back: seq<Notification>, x: Notification, y: Notification)
    requires EveryBefore(evicted, kept) && EveryBefore(front, back)
    requires forall z :: z in Absorb(kept, n) <==> z in front || z in back
    requires Has(kept, n.job) || front != []
    requires x in evicted && y in back
    ensures Before(x, y)
  {
    hide Absorb;
    if y !in kept {
      if Has(kept, n.job) {
        var previous :| previous in kept && previous.job == n.job;
        assert Before(x, previous) && previous.time <= n.time;
      } else {
        var first := front[0];
        assert first in front && first in kept;
        assert Before(x, first) && Before(first, y);
      }
    }
  }

  lemma BackIsSuffix(q: seq<Notification>, evicted: seq<Notification>, kept: seq<Notification>, n: Notification,
                     front: seq<Notification>, back: seq<Notification>)
    requires forall z :: z in q <==> z in evicted || z in kept
    requires EveryBefore(evicted, kept) && EveryBefore(front, back)
    requires forall z :: z in Absorb(kept, n) <==> z in front || z in back
    requires Has(kept, n.job) || front != []
    ensures InOrBefore(Absorb(q, n), back)
  {
    hide Absorb;
    forall x, y | x in evicted && y in back ensures Before(x, y) {
      StaysBehind(evicted, kept, n, front, back, x, y);
    }
    if Stale(evicted, n) {
      var late :| late in evicted && late.job == n.job && late.time > n.time;
      assert !Stale(kept, n) && n in front;
    }
  }

  lemma Split(q: seq<Notification>, keep: nat) returns (front: seq<Notification>, back: seq<Notification>)
    requires Ordered(q) && keep <= |q|
    ensures |front| == |q| - keep && |back| == keep && LastN(q, keep) == back
    ensures Ordered(front) && Ordered(back) && EveryBefore(front, back)
    ensures forall x :: x in q <==> x in front || x in back
  {
    hide Ordered, EveryBefore;
    front, back := q[..|q| - keep], q[|q| - keep..];
    OrderedSplit(q, |q| - keep);
  }

  /** What has been evicted never deserves to come back: a queue that forgot all but its last `max` entries ends up with
      the same last `max` entries, whatever arrives next. */
  lemma ForgottenForGood(q: seq<Notification>, n: Notification, max: nat)
    requires Ordered(q)
    ensures LastN(Absorb(LastN(q, max), n), max) == LastN(Absorb(q, n), max)
  {
    hide Absorb, Ordered, InOrBefore, EveryBefore, LastN;
    if |q| <= max {
      KeepAll(q, max);
    } else {
      var evicted, kept := Split(q, max);
      AbsorbSize(kept, n);
      var front, back := Split(Absorb(kept, n), max);
      BackIsSuffix(q, evicted, kept, n, front, back);
      SuffixByMembers(Absorb(q, n), back);
    }
  }

  lemma KeepAll(q: seq<Notification>, max: nat)
    requires |q| <= max
    ensures LastN(q, max) == q
  {
  }
}

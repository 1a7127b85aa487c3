/** The normal form is the right one: values have the same normal form exactly when they are the same. */
module StableJsonNormal {
  import opened Ascii
  import opened JsonData
  import opened StableJson
  import opened StableJsonReading
  import opened StableJsonProof
  import opened Wrappers

  // ----- the order of keys -----

  lemma {:induction false} LessTotal(a: Text, b: Text)
    ensures Less(a, b) || Less(b, a) || a == b
    ensures !(Less(a, b) && Less(b, a)) && !Less(a, a)
  {
    if a != [] && b != [] {
      LessTotal(a[1..], b[1..]);
      LessTotal(a[1..], a[1..]);
      if a[0] == b[0] && a[1..] == b[1..] {
        assert a == [a[0]] + a[1..] && b == [b[0]] + b[1..];
      }
    } else if a != [] {
      LessTotal(a[1..], a[1..]);
    }
  }

  lemma {:induction false} LessTransitive(a: Text, b: Text, c: Text)
    requires Less(a, b) && Less(b, c)
    ensures Less(a, c)
  {
    if a != [] && a[0] == b[0] == c[0] {
      LessTransitive(a[1..], b[1..], c[1..]);
    }
  }

  predicate AllLess<T(!new)>(q: seq<(Text, T)>, key: Text) {
    forall i :: 0 <= i < |q| ==> Less(q[i].0, key)
  }

  predicate SortedKeys<T(!new)>(q: seq<(Text, T)>) {
    q == [] || (AllLess(q[..|q| - 1], q[|q| - 1].0) && SortedKeys(q[..|q| - 1]))
  }

  ghost predicate FreshKey<T(!new)>(q: seq<(Text, T)>, key: Text) {
    forall x :: x in q ==> x.0 != key
  }

  lemma {:induction false} InsertSorted<T(!new)>(q: seq<(Text, T)>, e: (Text, T))
    requires SortedKeys(q) && FreshKey(q, e.0)
    ensures SortedKeys(InsertByKey(q, e))
  {
    var r := InsertByKey(q, e);
    if q == [] {
      assert r == [e] && r[..0] == [];
    } else {
      var init, last := q[..|q| - 1], q[|q| - 1];
      assert q == init + [last];
      assert last in q;
      LessTotal(last.0, e.0);
      if Less(last.0, e.0) {
        assert r[..|r| - 1] == q;
        forall i | 0 <= i < |q| ensures Less(q[i].0, e.0) {
          if i < |init| {
            assert Less(init[i].0, last.0);
            LessTransitive(init[i].0, last.0, e.0);
          }
        }
      } else {
        var rest := InsertByKey(init, e);
        InsertSorted(init, e);
        assert r[..|r| - 1] == rest && r[|r| - 1] == last;
        forall i | 0 <= i < |rest| ensures Less(rest[i].0, last.0) {
          assert rest[i] in rest;
          if rest[i] != e {
            var j :| 0 <= j < |init| && init[j] == rest[i];
          }
        }
      }
    }
  }

  predicate DistinctKeys<T>(s: seq<(Text, T)>) {
    forall i, j :: 0 <= i < j < |s| ==> s[i].0 != s[j].0
  }

  lemma {:induction false} SortSorted<T(!new)>(s: seq<(Text, T)>)
    requires DistinctKeys(s)
    ensures SortedKeys(SortByKey(s))
  {
    if s != [] {
      var init := s[..|s| - 1];
      SortSorted(init);
      forall x | x in SortByKey(init) ensures x.0 != s[|s| - 1].0 {
        var i :| 0 <= i < |init| && init[i] == x;
      }
      InsertSorted(SortByKey(init), s[|s| - 1]);
    }
  }

  // Sorted entries are known by what they are.
  lemma {:induction false} SortedUnique<T(!new)>(a: seq<(Text, T)>, b: seq<(Text, T)>)
    requires SortedKeys(a) && SortedKeys(b) && forall x :: x in a <==> x in b
    ensures a == b
  {
    assert forall i :: 0 <= i < |a| ==> a[i] in b;
    assert forall i :: 0 <= i < |b| ==> b[i] in a;
    if a != [] {
      var a', b', x, y := a[..|a| - 1], b[..|b| - 1], a[|a| - 1], b[|b| - 1];
      assert a == a' + [x] && b == b' + [y];
      LastIsGreatest(a, y);
      LastIsGreatest(b, x);
      LessTotal(x.0, y.0);
      assert x == y;
      forall e ensures e in a' <==> e in b' {
        assert e in a' <==> e in a && e != x by { LastIsNew(a); }
        assert e in b' <==> e in b && e != y by { LastIsNew(b); }
      }
      SortedUnique(a', b');
    }
  }

  lemma LastIsGreatest<T(!new)>(a: seq<(Text, T)>, x: (Text, T))
    requires SortedKeys(a) && x in a
    ensures x == a[|a| - 1] || Less(x.0, a[|a| - 1].0)
  {
    var i :| 0 <= i < |a| && a[i] == x;
    if i < |a| - 1 {
      assert a[..|a| - 1][i] == x;
    }
  }

  lemma LastIsNew<T(!new)>(a: seq<(Text, T)>)
    requires SortedKeys(a) && a != []
    ensures a[|a| - 1] !in a[..|a| - 1]
  {
    LessTotal(a[|a| - 1].0, a[|a| - 1].0);
  }

  lemma {:induction false} SortedFunctional<T(!new)>(a: seq<(Text, T)>, key: Text, x: T, y: T)
    requires SortedKeys(a) && (key, x) in a && (key, y) in a
    ensures x == y
  {
    var a', last := a[..|a| - 1], a[|a| - 1];
    assert a == a' + [last];
    LessTotal(key, key);
    if (key, x) in a' && (key, y) in a' {
      SortedFunctional(a', key, x, y);
    }
  }

  // ----- objects -----

  function Entries(members: seq<Member>): seq<(Text, Json)> {
    SortByKey(Present(NormMembers(members, Obj(members))))
  }

  predicate Yields(members: seq<Member>, i: nat, entry: (Text, Json)) {
    i < |members| && !members[i].value.Undefined? && entry == (members[i].key, Norm(members[i].value))
  }

  lemma EntryIn(members: seq<Member>, entry: (Text, Json))
    ensures entry in Entries(members) <==> exists i: nat :: Yields(members, i, entry)
  {
    hide Norm;
    var normed := NormMembers(members, Obj(members));
    var (key, c) := entry;
    assert entry in Entries(members) <==> (key, Some(c)) in normed;
    if (key, Some(c)) in normed {
      var i :| 0 <= i < |normed| && normed[i] == (key, Some(c));
      assert Yields(members, i, entry);
    }
    if i: nat :| Yields(members, i, entry) {
      assert normed[i] == (key, Some(c));
    }
  }

  lemma {:induction false} PresentDistinct<T(!new)>(s: seq<(Text, Option<T>)>)
    requires DistinctKeys(s)
    ensures DistinctKeys(Present(s))
  {
    if s != [] {
      var init, last := s[..|s| - 1], s[|s| - 1];
      PresentDistinct(init);
      forall x, y | (x, y) in Present(init) ensures x != last.0 {
        var i :| 0 <= i < |init| && init[i] == (x, Some(y));
      }
      forall i | 0 <= i < |Present(init)| ensures Present(init)[i].0 != last.0 {
        var e := Present(init)[i];
        assert (e.0, e.1) in Present(init);
      }
    }
  }

  lemma EntriesSorted(members: seq<Member>)
    requires WellFormed(Obj(members))
    ensures SortedKeys(Entries(members))
  {
    var normed := NormMembers(members, Obj(members));
    PresentDistinct(normed);
    SortSorted(Present(normed));
  }

  // ----- values -----

  /** Two values have the same normal form exactly when they are the same. */
  lemma {:induction false} NormSame(v: Value, w: Value)
    requires WellFormed(v) && WellFormed(w)
    ensures Norm(v) == Norm(w) <==> Same(v, w)
    decreases v
  {
    match (v, w)
    case (Arr(a), Arr(b)) =>
      forall i | 0 <= i < |a| && i < |b| ensures Norm(a[i]) == Norm(b[i]) <==> Same(a[i], b[i]) {
        NormSame(a[i], b[i]);
      }
      ArraysSame(a, b);
    case (Obj(a), Obj(b)) =>
      forall i, j | 0 <= i < |a| && 0 <= j < |b| ensures Norm(a[i].value) == Norm(b[j].value) <==> Same(a[i].value, b[j].value) {
        NormSame(a[i].value, b[j].value);
      }
      if Norm(v) == Norm(w) {
        EqualEntries(a, b);
      }
      if Same(v, w) {
        SameEntries(a, b);
      }
    case (_, _) =>
  }

  lemma ArraysSame(a: seq<Value>, b: seq<Value>)
    requires forall i :: 0 <= i < |a| && i < |b| ==> (Norm(a[i]) == Norm(b[i]) <==> Same(a[i], b[i]))
    ensures Norm(Arr(a)) == Norm(Arr(b)) <==> Same(Arr(a), Arr(b))
  {
    var x, y := NormItems(a, Arr(a)), NormItems(b, Arr(b));
    if x == y {
      assert |x| == |a| && |y| == |b|;
      forall i | 0 <= i < |a| ensures Same(a[i], b[i]) {
        assert x[i] == y[i];
      }
    }
    if Same(Arr(a), Arr(b)) {
      assert x == y;
    }
  }

  // Equal entries cover each other.
  lemma EntriesCover(a: seq<Member>, b: seq<Member>)
    requires Entries(a) == Entries(b)
    ensures Covered(a, b)
  {
    hide Entries, Norm;
    forall i | 0 <= i < |a| && !a[i].value.Undefined? ensures exists j :: 0 <= j < |b| && Matching(a[i], b[j]) {
      var entry := (a[i].key, Norm(a[i].value));
      assert Yields(a, i, entry);
      EntryIn(a, entry);
      EntryIn(b, entry);
      var j: nat :| Yields(b, j, entry);
      assert Matching(a[i], b[j]);
    }
  }

  predicate Agreeing(a: seq<Member>, b: seq<Member>) {
    forall i, j :: 0 <= i < |a| && 0 <= j < |b| && Matching(a[i], b[j]) ==> Norm(a[i].value) == Norm(b[j].value)
  }

  lemma EntriesAgree(a: seq<Member>, b: seq<Member>, i: nat, j: nat)
    requires SortedKeys(Entries(a)) && Entries(a) == Entries(b)
    requires i < |a| && j < |b| && Matching(a[i], b[j])
    ensures Norm(a[i].value) == Norm(b[j].value)
  {
    hide Norm, Entries, SortedKeys;
    var x, y := (a[i].key, Norm(a[i].value)), (b[j].key, Norm(b[j].value));
    assert Yields(a, i, x) && Yields(b, j, y);
    EntryIn(a, x);
    EntryIn(b, y);
    SortedFunctional(Entries(a), x.0, x.1, y.1);
  }

  lemma EqualEntries(a: seq<Member>, b: seq<Member>)
    requires WellFormed(Obj(a)) && Entries(a) == Entries(b)
    ensures Covered(a, b) && Covered(b, a) && Agreeing(a, b)
  {
    hide Norm, Entries, WellFormed, SortedKeys, Covered, Matching;
    EntriesCover(a, b);
    EntriesCover(b, a);
    EntriesSorted(a);
    forall i, j | 0 <= i < |a| && 0 <= j < |b| && Matching(a[i], b[j]) ensures Norm(a[i].value) == Norm(b[j].value) {
      EntriesAgree(a, b, i, j);
    }
  }

  lemma EntriesInclude(a: seq<Member>, b: seq<Member>, entry: (Text, Json))
    requires Covered(a, b) && entry in Entries(a) && (Agreeing(a, b) || Agreeing(b, a))
    ensures entry in Entries(b)
  {
    hide Norm, Entries;
    EntryIn(a, entry);
    EntryIn(b, entry);
    var i: nat :| Yields(a, i, entry);
    var j :| 0 <= j < |b| && Matching(a[i], b[j]);
    assert Matching(b[j], a[i]);
    assert Yields(b, j, entry);
  }

  lemma SameEntries(a: seq<Member>, b: seq<Member>)
    requires WellFormed(Obj(a)) && WellFormed(Obj(b)) && Covered(a, b) && Covered(b, a) && Agreeing(a, b)
    ensures Entries(a) == Entries(b)
  {
    hide Norm, Entries, WellFormed, SortedKeys, Covered, Agreeing;
    forall entry ensures entry in Entries(a) <==> entry in Entries(b) {
      if entry in Entries(a) { EntriesInclude(a, b, entry); }
      if entry in Entries(b) { EntriesInclude(b, a, entry); }
    }
    EntriesSorted(a);
    EntriesSorted(b);
    SortedUnique(Entries(a), Entries(b));
  }

  /** Printing is canonical: two values print equally exactly when they are equal up to the order of keys and to members
      that are there in name only. */
  lemma PrintCanonical(v: Value, w: Value)
    requires WellFormed(v) && WellFormed(w)
    ensures Print(v) == Print(w) <==> Same(v, w)
  {
    hide Print, Norm, Emit, Same, WellFormed;
    PrintIsEmit(v);
    PrintIsEmit(w);
    NormSame(v, w);
    if Emit(Norm(v)) == Emit(Norm(w)) {
      EmitInjective(Norm(v), Norm(w));
    }
  }
}

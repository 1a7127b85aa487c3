/** What the printed text says: a reader of JSON gets the value back, with the keys of every object in order. */
module StableJsonMeaning {
  import JsonReader
  import opened Ascii
  import opened JsonData
  import opened StableJson
  import opened StableJsonNormal
  import opened StableJsonProof
  import opened StableJsonReading
  import opened Wrappers

  /** `j` says what `v` is: an undefined member is left out, and anything else that is undefined is null. */
  predicate Says(j: Json, v: Value)
    decreases v
  {
    match v
    case Undefined => j.JNull?
    case Null => j.JNull?
    case Bool(b) => j == JBool(b)
    case Int(n) => j == JInt(n)
    case Str(s) => j == JStr(s)
    case Arr(items) => j.JArr? && |j.items| == |items| && forall i :: 0 <= i < |items| ==> Says(j.items[i], items[i])
    case Obj(members) =>
      && j.JObj?
      && (forall i :: 0 <= i < |members| && !members[i].value.Undefined? ==> SaysMember(j.entries, members[i]))
      && (forall k :: 0 <= k < |j.entries| ==> IsMember(j.entries[k], members))
  }

  predicate SaysMember(entries: seq<(Text, Json)>, m: Member)
    decreases m
  {
    exists k :: 0 <= k < |entries| && entries[k].0 == m.key && Says(entries[k].1, m.value)
  }

  predicate IsMember(entry: (Text, Json), members: seq<Member>)
    decreases members
  {
    exists i :: 0 <= i < |members| && !members[i].value.Undefined? && members[i].key == entry.0
                && Says(entry.1, members[i].value)
  }

  /** `a` comes before `b` in the order of code units: it is a proper beginning, or smaller where they first differ. */
  predicate Precedes(a: Text, b: Text) {
    exists n: nat :: n <= |a| && n < |b| && a[..n] == b[..n] && (n == |a| || a[n] < b[n])
  }

  /** The keys of every object ascend, so that none is there twice. */
  predicate Ascending(j: Json) {
    match j
    case JArr(items) => forall i :: 0 <= i < |items| ==> Ascending(items[i])
    case JObj(entries) =>
      && (forall i, k :: 0 <= i < k < |entries| ==> Precedes(entries[i].0, entries[k].0))
      && forall i :: 0 <= i < |entries| ==> Ascending(entries[i].1)
    case _ => true
  }

  lemma {:induction false} LessPrecedes(a: Text, b: Text)
    requires Less(a, b)
    ensures Precedes(a, b)
  {
    if a == [] || a[0] < b[0] {
      assert a[..0] == b[..0];
    } else {
      LessPrecedes(a[1..], b[1..]);
      var n: nat :| n <= |a[1..]| && n < |b[1..]| && a[1..][..n] == b[1..][..n] && (n == |a[1..]| || a[1..][n] < b[1..][n]);
      assert a[..n + 1] == [a[0]] + a[1..][..n] && b[..n + 1] == [b[0]] + b[1..][..n];
    }
  }

  lemma {:induction false} SortedAscends<T(!new)>(q: seq<(Text, T)>, i: nat, k: nat)
    requires SortedKeys(q) && i < k < |q|
    ensures Precedes(q[i].0, q[k].0)
  {
    var init := q[..|q| - 1];
    if k < |q| - 1 {
      SortedAscends(init, i, k);
    } else {
      assert init[i] == q[i];
      LessPrecedes(q[i].0, q[k].0);
    }
  }

  lemma MemberSaid(members: seq<Member>, i: nat)
    requires i < |members| && !members[i].value.Undefined? && Says(Norm(members[i].value), members[i].value)
    ensures SaysMember(Entries(members), members[i])
  {
    hide Says, Norm, Entries;
    var entry := (members[i].key, Norm(members[i].value));
    assert Yields(members, i, entry);
    EntryIn(members, entry);
    var k :| 0 <= k < |Entries(members)| && Entries(members)[k] == entry;
  }

  lemma EntrySaid(members: seq<Member>, k: nat)
    requires forall i :: 0 <= i < |members| ==> Says(Norm(members[i].value), members[i].value)
    requires k < |Entries(members)|
    ensures IsMember(Entries(members)[k], members)
  {
    hide Says, Norm, Entries;
    EntryIn(members, Entries(members)[k]);
    var i: nat :| Yields(members, i, Entries(members)[k]);
  }

  lemma ObjectSays(members: seq<Member>)
    requires forall i :: 0 <= i < |members| ==> Says(Norm(members[i].value), members[i].value)
    ensures Says(JObj(Entries(members)), Obj(members))
  {
    hide Norm, Entries, SaysMember, IsMember;
    forall i | 0 <= i < |members| && !members[i].value.Undefined? ensures SaysMember(Entries(members), members[i]) {
      MemberSaid(members, i);
    }
    forall k | 0 <= k < |Entries(members)| ensures IsMember(Entries(members)[k], members) {
      EntrySaid(members, k);
    }
  }

  lemma ObjectNorm(members: seq<Member>)
    ensures Norm(Obj(members)) == JObj(Entries(members))
  {
  }

  lemma {:induction false} NormSays(v: Value)
    ensures Says(Norm(v), v)
  {
    match v
    case Arr(items) =>
      forall i | 0 <= i < |items| ensures Says(NormItems(items, v)[i], items[i]) {
        NormSays(items[i]);
      }
    case Obj(members) =>
      forall i | 0 <= i < |members| ensures Says(Norm(members[i].value), members[i].value) {
        NormSays(members[i].value);
      }
      ObjectSays(members);
      ObjectNorm(members);
    case _ =>
  }

  lemma ObjectAscends(members: seq<Member>)
    requires WellFormed(Obj(members))
    requires forall i :: 0 <= i < |members| ==> Ascending(Norm(members[i].value))
    ensures Ascending(Norm(Obj(members)))
  {
    var entries := Entries(members);
    EntriesSorted(members);
    ObjectNorm(members);
    hide Norm, Precedes, WellFormed;
    forall i, k | 0 <= i < k < |entries| ensures Precedes(entries[i].0, entries[k].0) {
      SortedAscends(entries, i, k);
    }
    forall k | 0 <= k < |entries| ensures Ascending(entries[k].1) {
      EntryIn(members, entries[k]);
    }
  }

  lemma {:induction false} NormAscends(v: Value)
    requires WellFormed(v)
    ensures Ascending(Norm(v))
  {
    match v
    case Arr(items) =>
      forall i | 0 <= i < |items| ensures Ascending(NormItems(items, v)[i]) {
        NormAscends(items[i]);
      }
    case Obj(members) =>
      forall i | 0 <= i < |members| ensures Ascending(Norm(members[i].value)) {
        NormAscends(members[i].value);
      }
      ObjectAscends(members);
    case _ =>
  }

  /** The text means the value: a reader of JSON that knows nothing of the printer gets it back, up to what is undefined, and
      finds the keys of every object in ascending order of code units. */
  lemma PrintSaysValue(v: Value)
    requires WellFormed(v)
    ensures JsonReader.Read(Print(v)).Some?
    ensures Says(JsonReader.Read(Print(v)).value, v) && Ascending(JsonReader.Read(Print(v)).value)
  {
    hide Print, Norm, Emit, Says, Ascending, WellFormed, JsonReader.Read;
    PrintIsEmit(v);
    ReadEmit(Norm(v));
    NormSays(v);
    NormAscends(v);
  }

  predicate Capital(u: Unit) {
    0x41 <= u <= 0x5A
  }

  /** Strings are quoted as `JSON.stringify` quotes them: two characters for what has a short escape, six with small
      hexadecimal digits for any other control character and for a lone surrogate, and everything else as it is. */
  lemma EscapeForm(u: Unit)
    ensures var short := u in {0x08, 0x09, 0x0A, 0x0C, 0x0D, 0x22, 0x5C};
            var long := !short && (u < 0x20 || 0xD800 <= u <= 0xDFFF);
            && Quote([u]) == [0x22] + Escape(u) + [0x22]
            && |Escape(u)| == (if short then 2 else if long then 6 else 1)
            && (!short && !long ==> Escape(u) == [u])
            && (long ==> forall i :: 0 <= i < 6 ==> !Capital(Escape(u)[i]))
  {
    assert Body([u]) == Escape(u) by {
      assert [u][1..] == [];
    }
  }
}

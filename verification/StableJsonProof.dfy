/** Printing is canonical: two values print equally exactly when they are the same. The proof goes by a normal form,
    which is what a reader of the text could get back from it. */
module StableJsonProof {
  import Decimal
  import opened Ascii
  import opened JsonData
  import opened StableJson
  import opened Wrappers

  /** A value without what printing forgets. The members of an object are sorted. */
  function Norm(v: Value): Json {
    match v
    case Undefined => JNull
    case Null => JNull
    case Bool(b) => JBool(b)
    case Int(n) => JInt(n)
    case Str(s) => JStr(s)
    case Arr(items) => JArr(NormItems(items, v))
    case Obj(members) => JObj(SortByKey(Present(NormMembers(members, v))))
  }

  function NormItems(items: seq<Value>, ghost v: Value): (r: seq<Json>)
    requires v == Arr(items)
    decreases v, 0
  {
    seq(|items|, i requires 0 <= i < |items| => Norm(items[i]))
  }

  function NormMembers(members: seq<Member>, ghost v: Value): (r: seq<(Text, Option<Json>)>)
    requires v == Obj(members)
    decreases v, 0
  {
    seq(|members|, i requires 0 <= i < |members| =>
      (members[i].key, if members[i].value.Undefined? then None else Some(Norm(members[i].value))))
  }

  function Emit(c: Json): Text {
    match c
    case JNull => Codes("null")
    case JBool(b) => Codes(if b then "true" else "false")
    case JInt(n) => PrintInt(n)
    case JStr(s) => Quote(s)
    case JArr(items) => [OPEN_BRACKET] + Join(EmitItems(items, c)) + [CLOSE_BRACKET]
    case JObj(entries) => [OPEN_BRACE] + Join(Pairs(EmitEntries(entries, c))) + [CLOSE_BRACE]
  }

  function EmitItems(items: seq<Json>, ghost c: Json): (r: seq<Text>)
    requires c == JArr(items)
    decreases c, 0
  {
    seq(|items|, i requires 0 <= i < |items| => Emit(items[i]))
  }

  function EmitEntries(entries: seq<(Text, Json)>, ghost c: Json): (r: seq<(Text, Text)>)
    requires c == JObj(entries)
    decreases c, 0
  {
    seq(|entries|, i requires 0 <= i < |entries| => (entries[i].0, Emit(entries[i].1)))
  }

  // ----- the printer emits the normal form -----

  function MapEntries<A, B>(s: seq<(Text, A)>, f: A -> B): (r: seq<(Text, B)>)
    ensures |r| == |s| && forall i :: 0 <= i < |r| ==> r[i] == (s[i].0, f(s[i].1))
  {
    seq(|s|, i requires 0 <= i < |s| => (s[i].0, f(s[i].1)))
  }

  function MapOption<A, B>(o: Option<A>, f: A -> B): Option<B> {
    if o.Some? then Some(f(o.value)) else None
  }

  lemma {:induction false} InsertMap<A(!new), B(!new)>(q: seq<(Text, A)>, e: (Text, A), f: A -> B)
    ensures InsertByKey(MapEntries(q, f), (e.0, f(e.1))) == MapEntries(InsertByKey(q, e), f)
  {
    if q != [] && !Less(q[|q| - 1].0, e.0) {
      InsertMap(q[..|q| - 1], e, f);
      assert MapEntries(q, f)[..|q| - 1] == MapEntries(q[..|q| - 1], f);
    }
  }

  lemma {:induction false} SortMap<A(!new), B(!new)>(s: seq<(Text, A)>, f: A -> B)
    ensures SortByKey(MapEntries(s, f)) == MapEntries(SortByKey(s), f)
  {
    if s != [] {
      SortMap(s[..|s| - 1], f);
      assert MapEntries(s, f)[..|s| - 1] == MapEntries(s[..|s| - 1], f);
      InsertMap(SortByKey(s[..|s| - 1]), s[|s| - 1], f);
    }
  }

  lemma {:induction false} PresentMap<A(!new), B(!new)>(s: seq<(Text, Option<A>)>, f: A -> B)
    ensures Present(MapEntries(s, o => MapOption(o, f))) == MapEntries(Present(s), f)
  {
    var g := o => MapOption(o, f);
    if s != [] {
      PresentMap(s[..|s| - 1], f);
      assert MapEntries(s, g)[..|s| - 1] == MapEntries(s[..|s| - 1], g);
    }
  }

  lemma {:induction false} PrintIsEmit(v: Value)
    ensures Print(v) == Emit(Norm(v))
  {
    match v
    case Arr(items) =>
      var normed := NormItems(items, v);
      forall i | 0 <= i < |items| ensures Print(items[i]) == Emit(normed[i]) {
        PrintIsEmit(items[i]);
      }
      assert PrintItems(items, v) == EmitItems(normed, JArr(normed));
    case Obj(members) =>
      forall i | 0 <= i < |members| ensures Print(members[i].value) == Emit(Norm(members[i].value)) {
        PrintIsEmit(members[i].value);
      }
      PrintObject(members);
    case _ =>
  }

  lemma PrintMembersMap(members: seq<Member>)
    requires forall i :: 0 <= i < |members| ==> Print(members[i].value) == Emit(Norm(members[i].value))
    ensures PrintMembers(members, Obj(members)) == MapEntries(NormMembers(members, Obj(members)), o => MapOption(o, Emit))
  {
    hide Print, Emit, Norm;
  }

  lemma EmitEntriesMap(entries: seq<(Text, Json)>)
    ensures EmitEntries(entries, JObj(entries)) == MapEntries(entries, Emit)
  {
    hide Emit;
  }

  lemma PrintObject(members: seq<Member>)
    requires forall i :: 0 <= i < |members| ==> Print(members[i].value) == Emit(Norm(members[i].value))
    ensures Print(Obj(members)) == Emit(Norm(Obj(members)))
  {
    hide NormMembers, PrintMembers, EmitEntries, MapEntries, SortByKey, Present, Join, Pairs;
    var normed := NormMembers(members, Obj(members));
    PrintMembersMap(members);
    PresentMap(normed, Emit);
    SortMap(Present(normed), Emit);
    EmitEntriesMap(SortByKey(Present(normed)));
  }
}

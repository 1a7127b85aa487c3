/** The canonical printer behind request fingerprints: `stableStringify` of src/jobs/jobs.service.ts, and the string
    quoting of `JSON.stringify` that it relies on (sections 3 to 7 of RFC 8259; lone surrogates are escaped). */
module StableJson {
  import Decimal
  import opened Ascii
  import opened Wrappers

  /** The values that a payload can hold; numbers are integers. `Undefined` is a member that is there in name only. */
  datatype Value =
    | Undefined
    | Null
    | Bool(b: bool)
    | Int(n: int)
    | Str(s: Text)
    | Arr(items: seq<Value>)
    | Obj(members: seq<Member>)

  // Members in insertion order.
  datatype Member = Member(key: Text, value: Value)

  /** The keys of an object are distinct. */
  predicate WellFormed(v: Value) {
    match v
    case Arr(items) => forall i :: 0 <= i < |items| ==> WellFormed(items[i])
    case Obj(members) =>
      && (forall i, j :: 0 <= i < j < |members| ==> members[i].key != members[j].key)
      && forall i :: 0 <= i < |members| ==> WellFormed(members[i].value)
    case _ => true
  }

  // ----- text -----

  const QUOTE: Unit := 0x22
  const BACKSLASH: Unit := 0x5C
  const COMMA: Unit := 0x2C
  const MINUS: Unit := 0x2D
  const COLON: Unit := 0x3A
  const OPEN_BRACKET: Unit := 0x5B
  const CLOSE_BRACKET: Unit := 0x5D
  const OPEN_BRACE: Unit := 0x7B
  const CLOSE_BRACE: Unit := 0x7D

  predicate HighSurrogate(u: Unit) { 0xD800 <= u <= 0xDBFF }

  predicate LowSurrogate(u: Unit) { 0xDC00 <= u <= 0xDFFF }

  predicate Paired(s: Text) {
    |s| >= 2 && HighSurrogate(s[0]) && LowSurrogate(s[1])
  }

  function HexDigit(d: int): Unit
    requires 0 <= d < 16
  {
    if d < 10 then 0x30 + d else 0x61 + d - 10
  }

  function Hex(u: Unit): (t: Text)
    ensures |t| == 4
  {
    [HexDigit(u / 4096), HexDigit(u / 256 % 16), HexDigit(u / 16 % 16), HexDigit(u % 16)]
  }

  // The letter of a two-character escape, if there is one.
  function ShortEscape(u: Unit): Option<Unit> {
    if u == 0x08 then Some(0x62)
    else if u == 0x09 then Some(0x74)
    else if u == 0x0A then Some(0x6E)
    else if u == 0x0C then Some(0x66)
    else if u == 0x0D then Some(0x72)
    else if u == QUOTE || u == BACKSLASH then Some(u)
    else None
  }

  // How one code unit appears in a string, unless it belongs to a surrogate pair.
  function Escape(u: Unit): (t: Text)
    ensures t != []
  {
    if ShortEscape(u).Some? then [BACKSLASH, ShortEscape(u).value]
    else if u < 0x20 || HighSurrogate(u) || LowSurrogate(u) then [BACKSLASH, 0x75] + Hex(u)
    else [u]
  }

  function Body(s: Text): Text {
    if s == [] then []
    else if Paired(s) then s[..2] + Body(s[2..])
    else Escape(s[0]) + Body(s[1..])
  }

  function Quote(s: Text): Text {
    [QUOTE] + Body(s) + [QUOTE]
  }

  function Join(parts: seq<Text>): Text {
    if parts == [] then []
    else if |parts| == 1 then parts[0]
    else parts[0] + [COMMA] + Join(parts[1..])
  }

  function PrintInt(n: int): Text {
    if n < 0 then [MINUS] + Digits(-n) else Digits(n)
  }

  function Digits(n: nat): (t: Text)
    ensures |t| >= 1 && forall i :: 0 <= i < |t| ==> 0x30 <= t[i] <= 0x39
  {
    Codes(Decimal.Print(n))
  }

  // ----- sorting by key -----

  // The order of code units, which is how keys are sorted.
  predicate Less(a: Text, b: Text) {
    b != [] && (a == [] || a[0] < b[0] || (a[0] == b[0] && Less(a[1..], b[1..])))
  }

  function InsertByKey<T(!new)>(q: seq<(Text, T)>, e: (Text, T)): (r: seq<(Text, T)>)
    ensures forall x :: x in r <==> x == e || x in q
  {
    if q == [] || Less(q[|q| - 1].0, e.0) then q + [e]
    else
      assert q == q[..|q| - 1] + [q[|q| - 1]];
      InsertByKey(q[..|q| - 1], e) + [q[|q| - 1]]
  }

  function SortByKey<T(!new)>(s: seq<(Text, T)>): (r: seq<(Text, T)>)
    ensures forall x :: x in r <==> x in s
  {
    if s == [] then []
    else
      assert s == s[..|s| - 1] + [s[|s| - 1]];
      InsertByKey(SortByKey(s[..|s| - 1]), s[|s| - 1])
  }

  // The members that are there.
  function Present<T(!new)>(s: seq<(Text, Option<T>)>): (r: seq<(Text, T)>)
    ensures forall k, x :: (k, x) in r <==> (k, Some(x)) in s
  {
    if s == [] then []
    else
      assert s == s[..|s| - 1] + [s[|s| - 1]];
      var (key, value) := s[|s| - 1];
      Present(s[..|s| - 1]) + if value.Some? then [(key, value.value)] else []
  }

  // ----- printing -----

  function Print(v: Value): Text {
    match v
    case Undefined => Codes("null")
    case Null => Codes("null")
    case Bool(b) => Codes(if b then "true" else "false")
    case Int(n) => PrintInt(n)
    case Str(s) => Quote(s)
    case Arr(items) => [OPEN_BRACKET] + Join(PrintItems(items, v)) + [CLOSE_BRACKET]
    case Obj(members) => [OPEN_BRACE] + Join(Pairs(SortByKey(Present(PrintMembers(members, v))))) + [CLOSE_BRACE]
  }

  function PrintItems(items: seq<Value>, ghost v: Value): (r: seq<Text>)
    requires v == Arr(items)
    decreases v, 0
  {
    seq(|items|, i requires 0 <= i < |items| => Print(items[i]))
  }

  // The members with their values printed; those that are not there stay out.
  function PrintMembers(members: seq<Member>, ghost v: Value): (r: seq<(Text, Option<Text>)>)
    requires v == Obj(members)
    decreases v, 0
  {
    seq(|members|, i requires 0 <= i < |members| =>
      (members[i].key, if members[i].value.Undefined? then None else Some(Print(members[i].value))))
  }

  function Pairs(entries: seq<(Text, Text)>): (r: seq<Text>)
    ensures |r| == |entries|
    ensures forall i :: 0 <= i < |r| ==> r[i] == Quote(entries[i].0) + [COLON] + entries[i].1
  {
    seq(|entries|, i requires 0 <= i < |entries| => Quote(entries[i].0) + [COLON] + entries[i].1)
  }

  // ----- what printing should tell apart -----

  /** Equal up to the order of keys and to members that are there in name only; in an array, or alone, what is not there
      counts as null. */
  predicate Same(v: Value, w: Value) {
    match (v, w)
    case (Undefined, _) => w.Undefined? || w.Null?
    case (Null, _) => w.Undefined? || w.Null?
    case (Bool(_), _) => v == w
    case (Int(_), _) => v == w
    case (Str(_), _) => v == w
    case (Arr(a), Arr(b)) => |a| == |b| && forall i :: 0 <= i < |a| ==> Same(a[i], b[i])
    case (Obj(a), Obj(b)) =>
      && Covered(a, b) && Covered(b, a)
      && forall i, j :: 0 <= i < |a| && 0 <= j < |b| && Matching(a[i], b[j]) ==> Same(a[i].value, b[j].value)
    case _ => false
  }

  predicate Matching(m: Member, n: Member) {
    m.key == n.key && !m.value.Undefined? && !n.value.Undefined?
  }

  predicate Covered(a: seq<Member>, b: seq<Member>) {
    forall i :: 0 <= i < |a| && !a[i].value.Undefined? ==> exists j :: 0 <= j < |b| && Matching(a[i], b[j])
  }
}

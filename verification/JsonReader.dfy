/** A reader of JSON texts (RFC 8259), for texts without insignificant white space and numbers without fraction and exponent.
    It follows the grammar of sections 2 to 7, on UTF-16 code units, and knows nothing of any printer. */
module JsonReader {
  import opened Ascii
  import opened JsonData
  import opened Sequences
  import opened Wrappers

  // A value that was read, and the text behind it.
  type Taken<T> = Option<(T, Text)>

  predicate StartsWith(t: Text, c: char) {
    t != [] && t[0] == c as int
  }

  // ----- strings (section 7) -----

  /** The character behind a reverse solidus. */
  function Unescaped(letter: Unit): Option<Unit> {
    if letter == '"' as int then Some('"' as int)
    else if letter == '\\' as int then Some('\\' as int)
    else if letter == '/' as int then Some('/' as int)
    else if letter == 'b' as int then Some(0x08)
    else if letter == 'f' as int then Some(0x0C)
    else if letter == 'n' as int then Some(0x0A)
    else if letter == 'r' as int then Some(0x0D)
    else if letter == 't' as int then Some(0x09)
    else None
  }

  function HexValue(u: Unit): (d: Option<int>)
    ensures d.Some? ==> 0 <= d.value < 16
  {
    if '0' as int <= u <= '9' as int then Some(u - '0' as int)
    else if 'a' as int <= u <= 'f' as int then Some(u - 'a' as int + 10)
    else if 'A' as int <= u <= 'F' as int then Some(u - 'A' as int + 10)
    else None
  }

  /** The code unit that four hexadecimal digits stand for. */
  function FourHex(t: Text): Option<Unit>
    requires |t| == 4
  {
    var (a, b, c, d) := (HexValue(t[0]), HexValue(t[1]), HexValue(t[2]), HexValue(t[3]));
    if a.Some? && b.Some? && c.Some? && d.Some?
    then Some(a.value * 4096 + b.value * 256 + c.value * 16 + d.value) else None
  }

  /** One character of a string. */
  function Char(t: Text): (r: Taken<Unit>)
    ensures r.Some? ==> |r.value.1| < |t|
  {
    if t == [] || t[0] < 0x20 || t[0] == '"' as int then None
    else if t[0] != '\\' as int then Some((t[0], t[1..]))
    else if |t| >= 6 && t[1] == 'u' as int then
      var u := FourHex(t[2..6]);
      if u.Some? then Some((u.value, t[6..])) else None
    else if |t| >= 2 && Unescaped(t[1]).Some? then Some((Unescaped(t[1]).value, t[2..]))
    else None
  }

  /** The rest of a string, up to and with its closing quotation mark. */
  function Chars(t: Text): (r: Taken<Text>)
    ensures r.Some? ==> |r.value.1| < |t|
    decreases |t|
  {
    if StartsWith(t, '"') then Some(([], t[1..]))
    else
      var first := Char(t);
      if first.None? then None
      else
        var rest := Chars(first.value.1);
        if rest.None? then None else Some(([first.value.0] + rest.value.0, rest.value.1))
  }

  // ----- numbers (section 6) -----

  predicate IsDigit(u: Unit) {
    '0' as int <= u <= '9' as int
  }

  function Number(digits: Text): int {
    if digits == [] then 0 else 10 * Number(digits[..|digits| - 1]) + (digits[|digits| - 1] - '0' as int)
  }

  /** A natural number, without a leading zero unless it is zero. */
  function Natural(t: Text): (r: Taken<int>)
    ensures r.Some? ==> |r.value.1| < |t|
  {
    var n := RunLength(t, IsDigit);
    if n == 0 || (n > 1 && t[0] == '0' as int) then None else Some((Number(t[..n]), t[n..]))
  }

  // ----- values (sections 2 to 5) -----

  function Literal(t: Text, word: string, value: Json): (r: Taken<Json>)
    requires word != "" && forall i :: 0 <= i < |word| ==> word[i] as int < 128
    ensures r.Some? ==> |r.value.1| < |t|
  {
    if |t| >= |word| && t[..|word|] == Codes(word) then Some((value, t[|word|..])) else None
  }

  function Value(t: Text): (r: Taken<Json>)
    ensures r.Some? ==> |r.value.1| < |t|
    decreases |t|, 1
  {
    if StartsWith(t, 'n') then Literal(t, "null", JNull)
    else if StartsWith(t, 't') then Literal(t, "true", JBool(true))
    else if StartsWith(t, 'f') then Literal(t, "false", JBool(false))
    else if StartsWith(t, '"') then
      var s := Chars(t[1..]);
      if s.None? then None else Some((JStr(s.value.0), s.value.1))
    else if StartsWith(t, '[') then
      if StartsWith(t[1..], ']') then Some((JArr([]), t[2..]))
      else
        var items := Items(t[1..]);
        if items.None? then None else Some((JArr(items.value.0), items.value.1))
    else if StartsWith(t, '{') then
      if StartsWith(t[1..], '}') then Some((JObj([]), t[2..]))
      else
        var entries := Entries(t[1..]);
        if entries.None? then None else Some((JObj(entries.value.0), entries.value.1))
    else if StartsWith(t, '-') then
      var n := Natural(t[1..]);
      if n.None? then None else Some((JInt(-n.value.0), n.value.1))
    else
      var n := Natural(t);
      if n.None? then None else Some((JInt(n.value.0), n.value.1))
  }

  /** At least one value, separated by commas, up to the closing bracket. */
  function Items(t: Text): (r: Taken<seq<Json>>)
    ensures r.Some? ==> |r.value.1| < |t|
    decreases |t|, 2
  {
    var first := Value(t);
    if first.None? then None
    else
      var (item, behind) := first.value;
      if StartsWith(behind, ']') then Some(([item], behind[1..]))
      else if StartsWith(behind, ',') then
        var rest := Items(behind[1..]);
        if rest.None? then None else Some(([item] + rest.value.0, rest.value.1))
      else None
  }

  function Entry(t: Text): (r: Taken<(Text, Json)>)
    ensures r.Some? ==> |r.value.1| < |t|
    decreases |t|, 2
  {
    if !StartsWith(t, '"') then None
    else
      var key := Chars(t[1..]);
      if key.None? || !StartsWith(key.value.1, ':') then None
      else
        var value := Value(key.value.1[1..]);
        if value.None? then None else Some(((key.value.0, value.value.0), value.value.1))
  }

  /** At least one member, separated by commas, up to the closing brace. */
  function Entries(t: Text): (r: Taken<seq<(Text, Json)>>)
    ensures r.Some? ==> |r.value.1| < |t|
    decreases |t|, 3
  {
    var first := Entry(t);
    if first.None? then None
    else
      var (entry, behind) := first.value;
      if StartsWith(behind, '}') then Some(([entry], behind[1..]))
      else if StartsWith(behind, ',') then
        var rest := Entries(behind[1..]);
        if rest.None? then None else Some(([entry] + rest.value.0, rest.value.1))
      else None
  }

  /** What the whole text says. */
  function Read(t: Text): Option<Json> {
    var r := Value(t);
    if r.Some? && r.value.1 == [] then Some(r.value.0) else None
  }
}

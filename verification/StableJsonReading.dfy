/** A reader of JSON texts gets the normal form back from the printed text, whatever may follow it. Hence no two normal
    forms have the same text. */
module StableJsonReading {
  import Decimal
  import JsonReader
  import opened Ascii
  import opened JsonData
  import opened Sequences
  import opened StableJson
  import opened StableJsonProof
  import opened Wrappers

  // ----- strings -----

  lemma HexDigitRead(d: int)
    requires 0 <= d < 16
    ensures JsonReader.HexValue(HexDigit(d)) == Some(d)
  {
  }

  lemma HexRead(u: Unit)
    ensures JsonReader.FourHex(Hex(u)) == Some(u)
  {
    hide HexDigit, JsonReader.HexValue;
    HexDigitRead(u / 4096);
    HexDigitRead(u / 256 % 16);
    HexDigitRead(u / 16 % 16);
    HexDigitRead(u % 16);
    assert u / 16 / 16 == u / 256 && u / 256 / 16 == u / 4096;
  }

  lemma EscapeRead(u: Unit, rest: Text)
    ensures JsonReader.Char(Escape(u) + rest) == Some((u, rest))
  {
    hide Hex;
    var t := Escape(u) + rest;
    if ShortEscape(u).Some? {
      assert t[1] == ShortEscape(u).value && t[2..] == rest;
    } else if u < 0x20 || HighSurrogate(u) || LowSurrogate(u) {
      HexRead(u);
      assert t[1] == 0x75 && t[2..6] == Hex(u) && t[6..] == rest;
    } else {
      assert t[1..] == rest;
    }
  }

  lemma PlainRead(u: Unit, rest: Text)
    requires HighSurrogate(u) || LowSurrogate(u)
    ensures JsonReader.Char([u] + rest) == Some((u, rest))
  {
  }

  // One character more.
  lemma CharsStep(u: Unit, t: Text, rest: Text, s: Text, r: Text)
    requires JsonReader.Char(t) == Some((u, rest)) && JsonReader.Chars(rest) == Some((s, r))
    ensures JsonReader.Chars(t) == Some(([u] + s, r))
  {
  }

  lemma PairStep(high: Unit, low: Unit, rest: Text, s: Text, r: Text)
    requires HighSurrogate(high) && LowSurrogate(low) && JsonReader.Chars(rest) == Some((s, r))
    ensures JsonReader.Chars([high] + ([low] + rest)) == Some(([high] + ([low] + s), r))
  {
    hide JsonReader.Char, JsonReader.Chars;
    PlainRead(low, rest);
    CharsStep(low, [low] + rest, rest, s, r);
    PlainRead(high, [low] + rest);
    CharsStep(high, [high] + ([low] + rest), [low] + rest, [low] + s, r);
  }

  lemma BodyStep(s: Text, rest: Text)
    requires s != []
    ensures Body(s) + rest == if Paired(s) then [s[0]] + ([s[1]] + (Body(s[2..]) + rest)) else Escape(s[0]) + (Body(s[1..]) + rest)
  {
    hide Escape;
  }

  lemma {:induction false} CharsRead(s: Text, r: Text)
    ensures JsonReader.Chars(Body(s) + ([QUOTE] + r)) == Some((s, r))
    decreases |s|
  {
    if s == [] {
      assert Body(s) + ([QUOTE] + r) == [QUOTE] + r && ([QUOTE] + r)[1..] == r;
    } else {
      BodyStep(s, [QUOTE] + r);
      hide JsonReader.Char, JsonReader.Chars, Escape, HighSurrogate, LowSurrogate, Body;
      if Paired(s) {
        CharsRead(s[2..], r);
        assert HighSurrogate(s[0]) && LowSurrogate(s[1]);
        PairStep(s[0], s[1], Body(s[2..]) + ([QUOTE] + r), s[2..], r);
        assert s == [s[0]] + ([s[1]] + s[2..]);
      } else {
        CharsRead(s[1..], r);
        EscapeRead(s[0], Body(s[1..]) + ([QUOTE] + r));
        CharsStep(s[0], Escape(s[0]) + (Body(s[1..]) + ([QUOTE] + r)), Body(s[1..]) + ([QUOTE] + r), s[1..], r);
        assert s == [s[0]] + s[1..];
      }
    }
  }

  lemma QuoteRead(s: Text, r: Text)
    ensures JsonReader.StartsWith(Quote(s) + r, '"') && JsonReader.Chars((Quote(s) + r)[1..]) == Some((s, r))
  {
    CharsRead(s, r);
    assert (Quote(s) + r)[1..] == Body(s) + ([QUOTE] + r);
  }

  // ----- numbers -----

  // What may follow a value.
  predicate Delimited(r: Text) {
    r == [] || r[0] == COMMA || r[0] == CLOSE_BRACKET || r[0] == CLOSE_BRACE
  }

  lemma {:induction false} NumberRead(n: nat)
    ensures JsonReader.Number(Digits(n)) == n
    ensures n >= 10 ==> Digits(n)[0] != 0x30
  {
    if n >= 10 {
      NumberRead(n / 10);
      assert Digits(n)[..|Digits(n)| - 1] == Digits(n / 10);
      assert Digits(n)[|Digits(n)| - 1] == 0x30 + n % 10;
      if n < 100 {
        assert |Digits(n / 10)| == 1 && Digits(n / 10)[0] == 0x30 + n / 10;
      }
    } else {
      assert Digits(n) == [0x30 + n];
      assert Digits(n)[..0] == [];
    }
  }

  lemma NaturalRead(n: nat, r: Text)
    requires Delimited(r)
    ensures JsonReader.Natural(Digits(n) + r) == Some((n, r))
  {
    var t := Digits(n) + r;
    NumberRead(n);
    SmallDigits(n);
    hide Digits, JsonReader.Number;
    RunLengthIs(Digits(n), r, JsonReader.IsDigit);
    assert t[..|Digits(n)|] == Digits(n) && t[|Digits(n)|..] == r;
  }

  lemma SmallDigits(n: nat)
    ensures n < 10 ==> |Digits(n)| == 1
  {
  }

  lemma IntRead(n: int, r: Text)
    requires Delimited(r)
    ensures JsonReader.Value(PrintInt(n) + r) == Some((JInt(n), r))
  {
    hide JsonReader.Natural, JsonReader.Chars, JsonReader.Items, JsonReader.Entries, Digits;
    var t := PrintInt(n) + r;
    if n < 0 {
      NaturalRead(-n, r);
      assert t[0] == MINUS && t[1..] == Digits(-n) + r;
    } else {
      NaturalRead(n, r);
      assert t[0] == Digits(n)[0];
    }
  }

  // ----- values -----

  lemma WordRead(word: string, value: Json, r: Text)
    requires word != "" && forall i :: 0 <= i < |word| ==> word[i] as int < 128
    ensures JsonReader.Literal(Codes(word) + r, word, value) == Some((value, r))
  {
    assert (Codes(word) + r)[..|word|] == Codes(word) && (Codes(word) + r)[|word|..] == r;
  }

  lemma LiteralRead(c: Json, r: Text)
    requires c.JNull? || c.JBool?
    ensures JsonReader.Value(Emit(c) + r) == Some((c, r))
  {
    hide JsonReader.Literal, JsonReader.Chars, JsonReader.Items, JsonReader.Entries, JsonReader.Natural;
    WordRead("null", JNull, r);
    WordRead("true", JBool(true), r);
    WordRead("false", JBool(false), r);
  }

  // What follows the k-th part of a list.
  function Tail(parts: seq<Text>, k: nat, close: Unit, r: Text): Text
    requires k < |parts|
  {
    if k + 1 == |parts| then [close] + r else [COMMA] + Join(parts[k + 1..]) + [close] + r
  }

  lemma JoinStep(parts: seq<Text>, k: nat, close: Unit, r: Text)
    requires k < |parts|
    ensures Join(parts[k..]) + [close] + r == parts[k] + Tail(parts, k, close, r)
    ensures k + 1 < |parts| ==>
              Tail(parts, k, close, r)[0] == COMMA && Tail(parts, k, close, r)[1..] == Join(parts[k + 1..]) + [close] + r
    ensures k + 1 == |parts| ==> Tail(parts, k, close, r)[0] == close && Tail(parts, k, close, r)[1..] == r
  {
    var rest := parts[k..];
    if k + 1 < |parts| {
      assert rest[1..] == parts[k + 1..];
      var later := Join(parts[k + 1..]);
      assert Join(rest) == parts[k] + [COMMA] + later;
      hide Join;
      assert parts[k] + [COMMA] + later + [close] + r == parts[k] + ([COMMA] + later + [close] + r);
      assert ([COMMA] + later + [close] + r)[1..] == later + [close] + r;
    } else {
      assert rest == [parts[k]];
      assert ([close] + r)[1..] == r;
    }
  }

  lemma TailDelimited(parts: seq<Text>, k: nat, close: Unit, r: Text)
    requires k < |parts| && (close == CLOSE_BRACKET || close == CLOSE_BRACE)
    ensures Delimited(Tail(parts, k, close, r))
  {
  }

  // The first code unit of a value opens no other list and closes none.
  lemma Head(c: Json)
    ensures Emit(c) != [] && Emit(c)[0] != CLOSE_BRACKET
  {
    hide Join, Pairs, Body;
  }

  lemma Inside(open: Unit, inner: Text, close: Unit, r: Text)
    ensures ([open] + inner + [close] + r)[1..] == inner + [close] + r
  {
  }

  /** The reader gets every normal form back from its text, and finds what follows it. */
  lemma {:induction false} EmitRead(c: Json, r: Text)
    requires Delimited(r)
    ensures JsonReader.Value(Emit(c) + r) == Some((c, r))
    decreases c, 2
  {
    match c
    case JInt(n) => IntRead(n, r);
    case JStr(s) => StrRead(s, r);
    case JArr(items) => ArrRead(c, r);
    case JObj(entries) => ObjRead(c, r);
    case _ => LiteralRead(c, r);
  }

  lemma StrRead(s: Text, r: Text)
    ensures JsonReader.Value(Quote(s) + r) == Some((JStr(s), r))
  {
    hide JsonReader.Chars, JsonReader.Items, JsonReader.Entries, JsonReader.Natural, JsonReader.Literal, Quote;
    QuoteRead(s, r);
  }

  lemma ArrRead(c: Json, r: Text)
    requires c.JArr?
    ensures JsonReader.Value(Emit(c) + r) == Some((c, r))
    decreases c, 1, |c.items| + 1
  {
    var parts := EmitItems(c.items, c);
    var t := Emit(c) + r;
    Inside(OPEN_BRACKET, Join(parts), CLOSE_BRACKET, r);
    assert t[0] == OPEN_BRACKET && t[1..] == Join(parts) + [CLOSE_BRACKET] + r;
    hide JsonReader.Chars, JsonReader.Entries, JsonReader.Natural, JsonReader.Literal;
    if c.items == [] {
      assert t[2..] == r;
    } else {
      assert parts[0..] == parts && c.items[0..] == c.items;
      Head(c.items[0]);
      JoinStep(parts, 0, CLOSE_BRACKET, r);
      hide Emit, Join, Tail;
      assert t[1] == parts[0][0];
      ItemsRead(c, 0, r);
    }
  }

  lemma {:induction false} ItemsRead(c: Json, k: nat, r: Text)
    requires c.JArr? && k < |c.items|
    ensures JsonReader.Items(Join(EmitItems(c.items, c)[k..]) + [CLOSE_BRACKET] + r) == Some((c.items[k..], r))
    decreases c, 1, |c.items| - k
  {
    hide Join, Emit, Delimited, JsonReader.Value;
    var parts := EmitItems(c.items, c);
    JoinStep(parts, k, CLOSE_BRACKET, r);
    TailDelimited(parts, k, CLOSE_BRACKET, r);
    EmitRead(c.items[k], Tail(parts, k, CLOSE_BRACKET, r));
    if k + 1 < |parts| {
      ItemsRead(c, k + 1, r);
      assert c.items[k..] == [c.items[k]] + c.items[k + 1..];
    } else {
      assert c.items[k..] == [c.items[k]];
    }
  }

  // One member of an object, with what follows it.
  lemma EntryRead(key: Text, c: Json, r: Text)
    requires Delimited(r)
    ensures JsonReader.Entry(Quote(key) + [COLON] + Emit(c) + r) == Some(((key, c), r))
    decreases c, 3
  {
    hide Quote, Emit, Delimited, JsonReader.Chars, JsonReader.Value;
    var rest := [COLON] + Emit(c) + r;
    assert Quote(key) + [COLON] + Emit(c) + r == Quote(key) + rest;
    QuoteRead(key, rest);
    assert rest[0] == COLON && rest[1..] == Emit(c) + r;
    EmitRead(c, r);
  }

  lemma ObjRead(c: Json, r: Text)
    requires c.JObj?
    ensures JsonReader.Value(Emit(c) + r) == Some((c, r))
    decreases c, 1, |c.entries| + 1
  {
    var parts := Pairs(EmitEntries(c.entries, c));
    var t := Emit(c) + r;
    Inside(OPEN_BRACE, Join(parts), CLOSE_BRACE, r);
    assert t[0] == OPEN_BRACE && t[1..] == Join(parts) + [CLOSE_BRACE] + r;
    hide JsonReader.Chars, JsonReader.Items, JsonReader.Natural, JsonReader.Literal;
    if c.entries == [] {
      assert t[2..] == r;
    } else {
      assert parts[0..] == parts && c.entries[0..] == c.entries && parts[0][0] == QUOTE;
      JoinStep(parts, 0, CLOSE_BRACE, r);
      hide Emit, Join, Tail;
      assert t[1] == QUOTE;
      EntriesRead(c, 0, r);
    }
  }

  lemma {:induction false} EntriesRead(c: Json, k: nat, r: Text)
    requires c.JObj? && k < |c.entries|
    ensures JsonReader.Entries(Join(Pairs(EmitEntries(c.entries, c))[k..]) + [CLOSE_BRACE] + r) == Some((c.entries[k..], r))
    decreases c, 1, |c.entries| - k
  {
    hide Join, Emit, Delimited, Quote, JsonReader.Entry;
    var parts := Pairs(EmitEntries(c.entries, c));
    JoinStep(parts, k, CLOSE_BRACE, r);
    TailDelimited(parts, k, CLOSE_BRACE, r);
    EntryRead(c.entries[k].0, c.entries[k].1, Tail(parts, k, CLOSE_BRACE, r));
    if k + 1 < |parts| {
      EntriesRead(c, k + 1, r);
      assert c.entries[k..] == [c.entries[k]] + c.entries[k + 1..];
    } else {
      assert c.entries[k..] == [c.entries[k]];
    }
  }

  lemma ReadEmit(c: Json)
    ensures JsonReader.Read(Emit(c)) == Some(c)
  {
    hide Emit, JsonReader.Value;
    assert Emit(c) + [] == Emit(c);
    EmitRead(c, []);
  }

  /** No two normal forms have the same text. */
  lemma EmitInjective(c: Json, d: Json)
    requires Emit(c) == Emit(d)
    ensures c == d
  {
    ReadEmit(c);
    ReadEmit(d);
  }
}

/** The command line of the tmux runner script and how a shell splits it (Shell Command Language of IEEE Std 1003.1,
    sections 2.2.1, 2.2.2 and 2.3). Mirrors `shellQuote` and `buildRunnerScript` of src/jobs/tmux-session-runner.service.ts. */
module ShellWords {
  import opened Sequences
  import opened Wrappers

  // ----- quoting -----

  function Escaped(value: string): string {
    if value == [] then []
    else if value[0] == '\'' then ['\'', '\\', '\'', '\''] + Escaped(value[1..])
    else [value[0]] + Escaped(value[1..])
  }

  function ShellQuote(value: string): string {
    ['\''] + Escaped(value) + ['\'']
  }

  // ----- the shell -----

  datatype Token = Word(value: string) | Input

  /** What a shell makes of one command: its tokens. There are none when the text ends inside quotes, or when an unquoted
      character might mean something else than itself. */
  datatype Line = Unreadable | Line(tokens: seq<Token>)

  predicate Ordinary(c: char) {
    'a' <= c <= 'z' || 'A' <= c <= 'Z' || '0' <= c <= '9' || c == '-' || c == '_' || c == '.' || c == '/'
  }

  function Flush(word: Option<string>): seq<Token> {
    if word.Some? then [Word(word.value)] else []
  }

  function After(tokens: seq<Token>, rest: Line): Line {
    if rest.Unreadable? then Unreadable else Line(tokens + rest.tokens)
  }

  predicate Unquoted(c: char) {
    c != '\''
  }

  /** Splits a text, with the word begun so far. */
  function Split(text: string, word: Option<string>): Line
    decreases |text|
  {
    if text == [] then Line(Flush(word))
    else
      var c, rest := text[0], text[1..];
      if c == '\n' then Line(Flush(word))
      else if c == ' ' || c == '\t' then After(Flush(word), Split(rest, None))
      else if c == '\'' then
        var i := RunLength(rest, Unquoted);
        if i == |rest| || '\0' in rest[..i] then Unreadable else Split(rest[i + 1..], Some(word.GetOr([]) + rest[..i]))
      else if c == '\\' then
        if rest == [] || rest[0] == '\0' then Unreadable
        else if rest[0] == '\n' then Split(rest[1..], word)
        else Split(rest[1..], Some(word.GetOr([]) + [rest[0]]))
      else if c == '<' then
        if word.Some? then Unreadable else After([Input], Split(rest, None))
      else if Ordinary(c) then Split(rest, Some(word.GetOr([]) + [c]))
      else Unreadable
  }

  // ----- quoting is undone -----

  predicate NulFree(s: string) {
    '\0' !in s
  }

  lemma SplitOrdinary(c: char, rest: string, word: Option<string>)
    requires Ordinary(c)
    ensures Split([c] + rest, word) == Split(rest, Some(word.GetOr([]) + [c]))
  {
    assert ([c] + rest)[1..] == rest;
  }

  lemma SplitEscaped(c: char, rest: string, word: Option<string>)
    requires c != '\n' && c != '\0'
    ensures Split(['\\', c] + rest, word) == Split(rest, Some(word.GetOr([]) + [c]))
  {
    assert (['\\', c] + rest)[1..] == [c] + rest;
    assert ([c] + rest)[1..] == rest;
  }

  lemma SplitQuoted(inside: string, rest: string, word: Option<string>)
    requires '\'' !in inside && NulFree(inside)
    ensures Split(['\''] + inside + ['\''] + rest, word) == Split(rest, Some(word.GetOr([]) + inside))
  {
    var text := ['\''] + inside + ['\''] + rest;
    assert text[1..] == inside + ['\''] + rest;
    assert text[1..] == inside + (['\''] + rest);
    RunLengthIs(inside, ['\''] + rest, Unquoted);
    assert text[1..][..|inside|] == inside;
    assert text[1..][|inside| + 1..] == rest;
  }

  // Within quotes, after `inside`, the rest of an escaped value is read as that value.
  lemma {:induction false} SplitInside(inside: string, value: string, rest: string, word: Option<string>)
    requires '\'' !in inside && NulFree(inside) && NulFree(value)
    ensures Split(['\''] + inside + Escaped(value) + ['\''] + rest, word) == Split(rest, Some(word.GetOr([]) + inside + value))
    decreases |value|
  {
    hide Split;
    var text := ['\''] + inside + Escaped(value) + ['\''] + rest;
    if value == [] {
      assert text == ['\''] + inside + ['\''] + rest;
      SplitQuoted(inside, rest, word);
      assert word.GetOr([]) + inside + value == word.GetOr([]) + inside;
    } else if value[0] == '\'' {
      // The quotes close, an escaped quote follows, and the quotes open again.
      var later := ['\''] + [] + Escaped(value[1..]) + ['\''] + rest;
      assert text == ['\''] + inside + ['\''] + (['\\', '\''] + later);
      SplitQuoted(inside, ['\\', '\''] + later, word);
      SplitEscaped('\'', later, Some(word.GetOr([]) + inside));
      SplitInside([], value[1..], rest, Some(word.GetOr([]) + inside + ['\'']));
      assert word.GetOr([]) + inside + ['\''] + [] + value[1..] == word.GetOr([]) + inside + value;
    } else {
      assert text == ['\''] + (inside + [value[0]]) + Escaped(value[1..]) + ['\''] + rest;
      SplitInside(inside + [value[0]], value[1..], rest, word);
      assert word.GetOr([]) + (inside + [value[0]]) + value[1..] == word.GetOr([]) + inside + value;
    }
  }

  /** A shell reads a quoted value as that value, whatever it holds and wherever it stands. */
  lemma QuoteRoundTrip(value: string, rest: string, word: Option<string>)
    requires NulFree(value)
    ensures Split(ShellQuote(value) + rest, word) == Split(rest, Some(word.GetOr([]) + value))
  {
    SplitInside([], value, rest, word);
    assert ShellQuote(value) + rest == ['\''] + [] + Escaped(value) + ['\''] + rest;
    assert word.GetOr([]) + [] + value == word.GetOr([]) + value;
  }

  // ----- whole lines -----

  /** One word of a line as it is written: quoted, or bare. */
  datatype Written = Quoted(value: string) | Bare(value: string) {
    function Text(): string {
      if Quoted? then ShellQuote(value) else value
    }

    predicate Readable() {
      if Quoted? then NulFree(value) else value != [] && forall i :: 0 <= i < |value| ==> Ordinary(value[i])
    }
  }

  // Words separated by blanks, and then `tail`.
  function Spaced(words: seq<Written>, tail: string): string {
    if words == [] then tail else words[0].Text() + [' '] + Spaced(words[1..], tail)
  }

  function Meaning(words: seq<Written>): (r: seq<Token>)
    ensures |r| == |words| && forall i :: 0 <= i < |r| ==> r[i] == Word(words[i].value)
  {
    seq(|words|, i requires 0 <= i < |words| => Word(words[i].value))
  }

  lemma {:induction false} SplitBare(value: string, rest: string, word: Option<string>)
    requires forall i :: 0 <= i < |value| ==> Ordinary(value[i])
    requires value != [] || word.Some?
    ensures Split(value + rest, word) == Split(rest, Some(word.GetOr([]) + value))
    decreases |value|
  {
    if value == [] {
      assert value + rest == rest && word.GetOr([]) + value == word.GetOr([]);
    } else {
      assert value + rest == [value[0]] + (value[1..] + rest);
      SplitOrdinary(value[0], value[1..] + rest, word);
      SplitBare(value[1..], rest, Some(word.GetOr([]) + [value[0]]));
      assert word.GetOr([]) + [value[0]] + value[1..] == word.GetOr([]) + value;
    }
  }

  lemma SplitWritten(w: Written, rest: string)
    requires w.Readable()
    ensures Split(w.Text() + rest, None) == Split(rest, Some(w.value))
  {
    assert [] + w.value == w.value;
    if w.Quoted? {
      QuoteRoundTrip(w.value, rest, None);
    } else {
      SplitBare(w.value, rest, None);
    }
  }

  lemma SplitBlank(rest: string, word: Option<string>)
    ensures Split([' '] + rest, word) == After(Flush(word), Split(rest, None))
  {
    assert ([' '] + rest)[1..] == rest;
  }

  lemma AfterAfter(a: seq<Token>, b: seq<Token>, rest: Line)
    ensures After(a, After(b, rest)) == After(a + b, rest)
    ensures After([], rest) == rest
  {
    if rest.Line? {
      assert a + (b + rest.tokens) == a + b + rest.tokens && [] + rest.tokens == rest.tokens;
    }
  }

  lemma {:induction false} SplitSpaced(words: seq<Written>, tail: string)
    requires forall i :: 0 <= i < |words| ==> words[i].Readable()
    ensures Split(Spaced(words, tail), None) == After(Meaning(words), Split(tail, None))
  {
    hide Split;
    AfterAfter([], [], Split(tail, None));
    if words != [] {
      var later := Spaced(words[1..], tail);
      assert Spaced(words, tail) == words[0].Text() + ([' '] + later);
      SplitWritten(words[0], [' '] + later);
      SplitBlank(later, Some(words[0].value));
      SplitSpaced(words[1..], tail);
      AfterAfter([Word(words[0].value)], Meaning(words[1..]), Split(tail, None));
      assert Meaning(words) == [Word(words[0].value)] + Meaning(words[1..]);
    }
  }

  /** The line that replaces the shell with a command and gives it a file to read. */
  function CommandLine(words: seq<Written>, input: string): string {
    Spaced(words, ['<', ' '] + ShellQuote(input) + ['\n'])
  }

  /** A shell reads the line back as the very words, and the very file name. */
  lemma CommandLineRoundTrip(words: seq<Written>, input: string)
    requires NulFree(input) && forall i :: 0 <= i < |words| ==> words[i].Readable()
    ensures Split(CommandLine(words, input), None) == Line(Meaning(words) + [Input, Word(input)])
  {
    hide Split, Spaced, ShellQuote;
    var quoted := ShellQuote(input) + ['\n'];
    assert ['<', ' '] + ShellQuote(input) + ['\n'] == ['<'] + ([' '] + quoted);
    SplitSpaced(words, ['<'] + ([' '] + quoted));
    SplitInput([' '] + quoted);
    SplitBlank(quoted, None);
    QuoteRoundTrip(input, ['\n'], None);
    assert [] + input == input;
    SplitEnd(Some(input));
    assert [Input] + ([] + [Word(input)]) == [Input, Word(input)];
  }

  lemma SplitInput(rest: string)
    ensures Split(['<'] + rest, None) == After([Input], Split(rest, None))
  {
    assert (['<'] + rest)[1..] == rest;
  }

  lemma SplitEnd(word: Option<string>)
    ensures Split(['\n'], word) == Line(Flush(word))
  {
  }
}

/** From the runner script to the capture wrapper: the command line that the script builds, and what the wrapper's own
    argument parser makes of it. Mirrors `buildRunnerScript` of src/jobs/tmux-session-runner.service.ts and the option
    parser of src/jobs/tmux-capture-wrapper.ts. */
module RunnerScript {
  import Decimal
  import opened Sequences
  import opened ShellWords
  import opened Wrappers

  function Dashes(): string {
    ['-', '-']
  }

  predicate HasDashes(s: string) {
    |s| >= 2 && s[0] == '-' && s[1] == '-'
  }

  datatype ParseError = MissingSeparator | InvalidOption | MissingOptions

  /** What the wrapper takes from its arguments. */
  datatype Parsed = Parsed(options: map<string, string>, command: string, commandArgs: seq<string>, cap: nat, grace: nat)

  // ----- the parser -----

  function IndexOf(args: seq<string>, x: string): (i: nat)
    ensures i <= |args| && (i < |args| ==> args[i] == x) && forall j :: 0 <= j < i ==> args[j] != x
  {
    if args == [] || args[0] == x then 0
    else
      var i := IndexOf(args[1..], x);
      assert forall j :: 1 <= j < 1 + i ==> args[j] == args[1..][j - 1];
      1 + i
  }

  // The options before the separator, taken in pairs from `index` on.
  function Options(args: seq<string>, separator: nat, index: nat, options: map<string, string>)
    : Result<map<string, string>, ParseError>
    requires separator < |args|
    decreases separator - index
  {
    if index >= separator then Ok(options)
    else if !HasDashes(args[index]) then Err(InvalidOption)
    else Options(args, separator, index + 2, options[args[index][2..] := args[index + 1]])
  }

  /** `Number.parseInt` in base ten: blanks, a sign, and the digits that follow. */
  function ParseInt(text: string): Option<int> {
    if text != [] && text[0] in {' ', '\t', '\n', '\r'} then ParseInt(text[1..])
    else if text != [] && text[0] == '-' then
      var n := ParseDigits(text[1..]);
      if n.Some? then Some(-n.value) else None
    else if text != [] && text[0] == '+' then ParseDigits(text[1..])
    else ParseDigits(text)
  }

  function ParseDigits(text: string): Option<int> {
    var digits := text[..RunLength(text, IsDigit)];
    if digits == [] then None else Some(Decimal.Parse(digits))
  }

  predicate IsDigit(c: char) {
    '0' <= c <= '9'
  }

  lemma ParseIntPrint(n: nat)
    ensures ParseInt(Decimal.Print(n)) == Some(n)
  {
    var text := Decimal.Print(n);
    RunLengthIs(text, [], IsDigit);
    Decimal.ParsePrint(n);
    assert text + [] == text && text[..|text|] == text;
  }

  function Get(options: map<string, string>, name: string): string {
    if name in options then options[name] else []
  }

  // The options that must be there, apart from the numbers.
  function FileOptions(): seq<string> {
    ["stdout", "stderr", "stdout-tail", "stderr-tail", "metadata", "exit-code"]
  }

  function Parse(args: seq<string>): Result<Parsed, ParseError> {
    var separator := IndexOf(args, Dashes());
    if separator == |args| then Err(MissingSeparator)
    else
      var options := Options(args, separator, 0, map[]);
      if options.Err? then Err(options.error)
      else
        var cap, grace := ParseInt(Get(options.value, "cap")), ParseInt(Get(options.value, "sigkill-grace-ms"));
        if separator + 1 == |args| || args[separator + 1] == [] then Err(MissingOptions)
        else if cap.None? || cap.value <= 0 || grace.None? || grace.value <= 0 then Err(MissingOptions)
        else if exists i :: 0 <= i < |FileOptions()| && Get(options.value, FileOptions()[i]) == [] then Err(MissingOptions)
        else Ok(Parsed(options.value, args[separator + 1], args[separator + 2..], cap.value, grace.value))
  }

  /** The loop that reads the options. */
  method ReadOptions(args: seq<string>, separator: nat) returns (r: Result<map<string, string>, ParseError>)
    requires separator < |args|
    ensures r == Options(args, separator, 0, map[])
  {
    var options: map<string, string> := map[];
    var index := 0;
    while index < separator
      invariant Options(args, separator, index, options) == Options(args, separator, 0, map[])
    {
      var key, value := args[index], args[index + 1];
      if key == [] || !HasDashes(key) {
        return Err(InvalidOption);
      }
      options := options[key[2..] := value];
      index := index + 2;
    }
    return Ok(options);
  }

  // ----- what the script passes -----

  type Setting = (string, string)

  // Every option as two arguments.
  function Arguments(settings: seq<Setting>): (r: seq<string>)
    ensures |r| == 2 * |settings|
    ensures forall i :: 0 <= i < |settings| ==> r[2 * i] == Dashes() + settings[i].0 && r[2 * i + 1] == settings[i].1
  {
    if settings == [] then []
    else
      var last := settings[|settings| - 1];
      Arguments(settings[..|settings| - 1]) + [Dashes() + last.0, last.1]
  }

  function Collected(settings: seq<Setting>): map<string, string> {
    if settings == [] then map[]
    else var last := settings[|settings| - 1]; Collected(settings[..|settings| - 1])[last.0 := last.1]
  }

  predicate Passable(settings: seq<Setting>) {
    forall i :: 0 <= i < |settings| ==> settings[i].0 != [] && settings[i].1 != Dashes()
  }

  lemma SeparatorFound(settings: seq<Setting>, rest: seq<string>)
    requires Passable(settings)
    ensures IndexOf(Arguments(settings) + [Dashes()] + rest, Dashes()) == 2 * |settings|
  {
    var args := Arguments(settings) + [Dashes()] + rest;
    assert args[2 * |settings|] == Dashes();
    forall j | 0 <= j < 2 * |settings| ensures args[j] != Dashes() {
      var i := j / 2;
      assert Arguments(settings)[2 * i] == Dashes() + settings[i].0 && Arguments(settings)[2 * i + 1] == settings[i].1;
      assert j == 2 * i || j == 2 * i + 1;
    }
  }

  lemma {:induction false} OptionsCollect(settings: seq<Setting>, args: seq<string>, k: nat)
    requires k <= |settings| && 2 * |settings| < |args| && args[..2 * |settings|] == Arguments(settings)
    ensures Options(args, 2 * |settings|, 2 * k, Collected(settings[..k])) == Ok(Collected(settings))
    decreases |settings| - k
  {
    if k < |settings| {
      var key, value := args[2 * k], args[2 * k + 1];
      assert key == args[..2 * |settings|][2 * k] == Dashes() + settings[k].0;
      assert value == args[..2 * |settings|][2 * k + 1] == settings[k].1;
      assert key[2..] == settings[k].0;
      assert settings[..k + 1][..k] == settings[..k];
      OptionsCollect(settings, args, k + 1);
    } else {
      assert settings[..k] == settings;
    }
  }

  /** The first separator is the one that the script put there, and the wrapper gets back every option, the command and
      its arguments, even where these look like separators or options themselves. */
  lemma ParseRecovers(settings: seq<Setting>, command: string, commandArgs: seq<string>)
    requires Passable(settings)
    ensures var args := Arguments(settings) + [Dashes()] + [command] + commandArgs;
            var separator := IndexOf(args, Dashes());
            && separator + 1 < |args|
            && Options(args, separator, 0, map[]) == Ok(Collected(settings))
            && args[separator + 1] == command && args[separator + 2..] == commandArgs
  {
    var args := Arguments(settings) + [Dashes()] + [command] + commandArgs;
    assert args == Arguments(settings) + [Dashes()] + ([command] + commandArgs);
    SeparatorFound(settings, [command] + commandArgs);
    assert args[..2 * |settings|] == Arguments(settings);
    assert settings[..0] == [];
    OptionsCollect(settings, args, 0);
  }

  lemma {:induction false} CollectedAt(settings: seq<Setting>, i: nat)
    requires i < |settings| && forall j :: i < j < |settings| ==> settings[j].0 != settings[i].0
    ensures settings[i].0 in Collected(settings) && Collected(settings)[settings[i].0] == settings[i].1
  {
    if i < |settings| - 1 {
      CollectedAt(settings[..|settings| - 1], i);
    }
  }

  // ----- the script -----

  /** What the script is made of. The files of a session lie in its directory. */
  datatype Script = Script(node: string, directory: string, cap: nat, grace: nat, command: string,
                           commandArgs: seq<string>)
  {
    function File(name: string): (path: string)
      ensures path != [] && path != Dashes()
    {
      assert (directory + ['/'] + name)[|directory|] == '/';
      directory + ['/'] + name
    }

    // The options that are written in quotes.
    function Files(): seq<Setting> {
      [("stdout", File("stdout.log")), ("stderr", File("stderr.log")), ("stdout-tail", File("stdout.tail")),
       ("stderr-tail", File("stderr.tail")), ("metadata", File("capture.json")), ("exit-code", File("exit-code"))]
    }

    function Numbers(): seq<Setting> {
      [("cap", Decimal.Print(cap)), ("sigkill-grace-ms", Decimal.Print(grace))]
    }

    predicate Readable() {
      && NulFree(node) && NulFree(directory) && NulFree(command)
      && forall i :: 0 <= i < |commandArgs| ==> NulFree(commandArgs[i])
    }

    function Settings(): seq<Setting> {
      Numbers() + Files()
    }

    // What the wrapper should find after its own name.
    function Argv(): seq<string> {
      Arguments(Settings()) + [Dashes()] + [command] + commandArgs
    }

    function Words(): seq<Written> {
      [Bare("exec"), Quoted(node), Quoted(File("capture-wrapper.js"))] + WriteSettings(Numbers(), false) + WriteSettings(Files(), true)
      + [Bare(Dashes()), Quoted(command)] + Quotes(commandArgs)
    }

    /** The line of the script that starts the wrapper. */
    function ExecLine(): string {
      CommandLine(Words(), File("prompt.txt"))
    }
  }

  function WriteSettings(settings: seq<Setting>, quoted: bool): seq<Written> {
    if settings == [] then []
    else
      var (name, value) := settings[|settings| - 1];
      WriteSettings(settings[..|settings| - 1], quoted) + [Bare(Dashes() + name), if quoted then Quoted(value) else Bare(value)]
  }

  function Quotes(values: seq<string>): (r: seq<Written>)
    ensures |r| == |values| && forall i :: 0 <= i < |r| ==> r[i] == Quoted(values[i])
  {
    seq(|values|, i requires 0 <= i < |values| => Quoted(values[i]))
  }

  function AsWords(values: seq<string>): (r: seq<Token>)
    ensures |r| == |values| && forall i :: 0 <= i < |r| ==> r[i] == Word(values[i])
  {
    seq(|values|, i requires 0 <= i < |values| => Word(values[i]))
  }

  lemma {:induction false} SettingsMean(settings: seq<Setting>, quoted: bool)
    ensures Meaning(WriteSettings(settings, quoted)) == AsWords(Arguments(settings))
  {
    if settings != [] {
      SettingsMean(settings[..|settings| - 1], quoted);
    }
  }

  predicate OrdinaryText(s: string) {
    s != [] && forall i :: 0 <= i < |s| ==> Ordinary(s[i])
  }

  lemma {:induction false} SettingsReadable(settings: seq<Setting>, quoted: bool)
    requires forall i :: 0 <= i < |settings| ==>
               OrdinaryText(settings[i].0) && if quoted then NulFree(settings[i].1) else OrdinaryText(settings[i].1)
    ensures forall i :: 0 <= i < |WriteSettings(settings, quoted)| ==> WriteSettings(settings, quoted)[i].Readable()
  {
    if settings != [] {
      SettingsReadable(settings[..|settings| - 1], quoted);
    }
  }

  lemma {:induction false} ArgumentsConcat(a: seq<Setting>, b: seq<Setting>)
    ensures Arguments(a + b) == Arguments(a) + Arguments(b)
  {
    if b == [] {
      assert a + b == a;
    } else {
      var last := |b| - 1;
      ArgumentsConcat(a, b[..last]);
      assert (a + b)[..|a + b| - 1] == a + b[..last];
    }
  }

  lemma ReadableConcat(a: seq<Written>, b: seq<Written>)
    requires forall i :: 0 <= i < |a| ==> a[i].Readable()
    requires forall i :: 0 <= i < |b| ==> b[i].Readable()
    ensures forall i :: 0 <= i < |a + b| ==> (a + b)[i].Readable()
  {
    hide Written.Readable;
  }

  lemma MeaningConcat(a: seq<Written>, b: seq<Written>)
    ensures Meaning(a + b) == Meaning(a) + Meaning(b)
  {
  }

  lemma AsWordsConcat(a: seq<string>, b: seq<string>)
    ensures AsWords(a + b) == AsWords(a) + AsWords(b)
  {
  }

  lemma NumbersReadable(c: Script)
    ensures forall i :: 0 <= i < |WriteSettings(c.Numbers(), false)| ==> WriteSettings(c.Numbers(), false)[i].Readable()
  {
    SettingsReadable(c.Numbers(), false);
  }

  lemma FilesReadable(c: Script)
    requires c.Readable()
    ensures forall i :: 0 <= i < |WriteSettings(c.Files(), true)| ==> WriteSettings(c.Files(), true)[i].Readable()
  {
    SettingsReadable(c.Files(), true);
  }

  lemma WordsReadable(c: Script)
    requires c.Readable()
    ensures forall i :: 0 <= i < |c.Words()| ==> c.Words()[i].Readable()
  {
    hide Script.Numbers, Script.Files, WriteSettings;
    var head, a, b := [Bare("exec"), Quoted(c.node), Quoted(c.File("capture-wrapper.js"))],
      WriteSettings(c.Numbers(), false), WriteSettings(c.Files(), true);
    var separator := [Bare(Dashes()), Quoted(c.command)];
    NumbersReadable(c);
    FilesReadable(c);
    ReadableConcat(head, a);
    ReadableConcat(head + a, b);
    ReadableConcat(head + a + b, separator);
    ReadableConcat(head + a + b + separator, Quotes(c.commandArgs));
  }

  lemma WordsMean(c: Script)
    ensures Meaning(c.Words())
         == [Word("exec"), Word(c.node), Word(c.File("capture-wrapper.js"))] + AsWords(c.Argv())
  {
    hide Script.Numbers, Script.Files, Script.File, WriteSettings, Arguments, Meaning, AsWords;
    var a, b := c.Numbers(), c.Files();
    HeadMeans(c);
    SettingsMean(a, false);
    SettingsMean(b, true);
    ArgumentsConcat(a, b);
    var head, separator := [Bare("exec"), Quoted(c.node), Quoted(c.File("capture-wrapper.js"))], [Bare(Dashes()), Quoted(c.command)];
    MeaningConcat(head, WriteSettings(a, false));
    MeaningConcat(head + WriteSettings(a, false), WriteSettings(b, true));
    MeaningConcat(head + WriteSettings(a, false) + WriteSettings(b, true), separator);
    MeaningConcat(head + WriteSettings(a, false) + WriteSettings(b, true) + separator, Quotes(c.commandArgs));
    AsWordsConcat(Arguments(a), Arguments(b));
    AsWordsConcat(Arguments(a + b), [Dashes()] + [c.command]);
    AsWordsConcat(Arguments(a + b) + ([Dashes()] + [c.command]), c.commandArgs);
    assert c.Argv() == Arguments(a + b) + ([Dashes()] + [c.command]) + c.commandArgs;
  }

  lemma HeadMeans(c: Script)
    ensures Meaning([Bare("exec"), Quoted(c.node), Quoted(c.File("capture-wrapper.js"))])
         == [Word("exec"), Word(c.node), Word(c.File("capture-wrapper.js"))]
    ensures Meaning([Bare(Dashes()), Quoted(c.command)]) == AsWords([Dashes()] + [c.command])
    ensures Meaning(Quotes(c.commandArgs)) == AsWords(c.commandArgs)
  {
  }

  /** The shell starts the wrapper with exactly the arguments that the script meant, and gives it the prompt to read. */
  lemma ExecLineRoundTrip(c: Script)
    requires c.Readable()
    ensures Split(c.ExecLine(), None)
         == Line([Word("exec"), Word(c.node), Word(c.File("capture-wrapper.js"))] + AsWords(c.Argv())
                 + [Input, Word(c.File("prompt.txt"))])
  {
    hide Script.Words, Script.Argv;
    WordsReadable(c);
    WordsMean(c);
    CommandLineRoundTrip(c.Words(), c.File("prompt.txt"));
  }

  // The lengths of the option names, which tell all but two pairs of them apart.
  function NameLengths(): seq<nat> {
    [3, 16, 6, 6, 11, 11, 8, 9]
  }

  lemma SettingNames(c: Script)
    ensures var settings := c.Settings();
            && |settings| == 8 && (forall i :: 0 <= i < 8 ==> |settings[i].0| == NameLengths()[i])
            && settings[2].0[3] == settings[4].0[3] == 'o' && settings[3].0[3] == settings[5].0[3] == 'e'
  {
  }

  lemma NamesDiffer(c: Script, i: nat, j: nat)
    requires i < j < 8 == |c.Settings()|
    ensures c.Settings()[i].0 != c.Settings()[j].0
  {
    hide Script.Settings;
    SettingNames(c);
  }

  /** The wrapper finds every option as the script set it. */
  lemma OptionsFound(c: Script, i: nat)
    requires i < |c.Settings()|
    ensures Get(Collected(c.Settings()), c.Settings()[i].0) == c.Settings()[i].1
  {
    hide Script.Settings;
    SettingNames(c);
    forall j | i < j < |c.Settings()| ensures c.Settings()[j].0 != c.Settings()[i].0 {
      NamesDiffer(c, i, j);
    }
    CollectedAt(c.Settings(), i);
  }

  lemma SettingsPassable(c: Script)
    ensures Passable(c.Settings())
  {
    assert Decimal.Print(c.cap)[0] != '-' && Decimal.Print(c.grace)[0] != '-';
  }

  lemma FilesFound(c: Script, i: nat)
    requires i < |FileOptions()|
    ensures Get(Collected(c.Settings()), FileOptions()[i]) != []
  {
    OptionsFound(c, i + 2);
  }

  /** The wrapper accepts the arguments exactly when there is a command to run and both numbers are positive, and then it
      has the same options, numbers, command and arguments. */
  lemma WrapperRecovers(c: Script)
    ensures Parse(c.Argv()) == if c.command == [] || c.cap == 0 || c.grace == 0 then Err(MissingOptions)
                               else Ok(Parsed(Collected(c.Settings()), c.command, c.commandArgs, c.cap, c.grace))
  {
    hide Script.Settings, ParseInt, Get, FileOptions;
    SettingsPassable(c);
    ParseRecovers(c.Settings(), c.command, c.commandArgs);
    NumbersFound(c);
    forall i | 0 <= i < |FileOptions()| ensures Get(Collected(c.Settings()), FileOptions()[i]) != [] {
      FilesFound(c, i);
    }
  }

  lemma NumbersFound(c: Script)
    ensures ParseInt(Get(Collected(c.Settings()), "cap")) == Some(c.cap)
    ensures ParseInt(Get(Collected(c.Settings()), "sigkill-grace-ms")) == Some(c.grace)
  {
    hide ParseInt, Get, Decimal.Print;
    OptionsFound(c, 0);
    OptionsFound(c, 1);
    ParseIntPrint(c.cap);
    ParseIntPrint(c.grace);
  }

  /** What the wrapper has understood, option by option: the two numbers, and the files of the session by their paths. */
  lemma OptionsAreTheFiles(c: Script)
    requires Parse(c.Argv()).Ok?
    ensures var parsed := Parse(c.Argv()).value; var options := parsed.options;
            && parsed.cap == c.cap && parsed.grace == c.grace && parsed.command == c.command && parsed.commandArgs == c.commandArgs
            && Get(options, "stdout") == c.directory + "/stdout.log" && Get(options, "stderr") == c.directory + "/stderr.log"
            && Get(options, "stdout-tail") == c.directory + "/stdout.tail"
            && Get(options, "stderr-tail") == c.directory + "/stderr.tail"
            && Get(options, "metadata") == c.directory + "/capture.json"
            && Get(options, "exit-code") == c.directory + "/exit-code"
  {
    WrapperRecovers(c);
    FilePaths(c);
    OptionsFound(c, 2);
    OptionsFound(c, 3);
    OptionsFound(c, 4);
    OptionsFound(c, 5);
    OptionsFound(c, 6);
    OptionsFound(c, 7);
    hide Parse, Get, Collected, Script.Argv, Script.Settings;
  }

  lemma FilePaths(c: Script)
    ensures var s := c.Settings();
            && |s| == 8 && s[2] == ("stdout", c.directory + "/stdout.log") && s[3] == ("stderr", c.directory + "/stderr.log")
            && s[4] == ("stdout-tail", c.directory + "/stdout.tail") && s[5] == ("stderr-tail", c.directory + "/stderr.tail")
            && s[6] == ("metadata", c.directory + "/capture.json") && s[7] == ("exit-code", c.directory + "/exit-code")
  {
    PathIs(c, "stdout.log", "/stdout.log");
    PathIs(c, "stderr.log", "/stderr.log");
    PathIs(c, "stdout.tail", "/stdout.tail");
    PathIs(c, "stderr.tail", "/stderr.tail");
    PathIs(c, "capture.json", "/capture.json");
    PathIs(c, "exit-code", "/exit-code");
    hide Script.File, Decimal.Print;
  }

  lemma PathIs(c: Script, name: string, path: string)
    requires path == ['/'] + name
    ensures c.File(name) == c.directory + path
  {
    assert c.directory + ['/'] + name == c.directory + (['/'] + name);
  }
}

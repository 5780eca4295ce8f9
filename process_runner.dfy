/**
 * The argument template engine of `ProcessRunner`: the tokenizer behind
 * `SplitArguments`, `%name%` placeholder expansion through
 * `PatternValuesCollection`, the `Arguments` getter (display join) and setter
 * (clear and refill `ArgumentsList`), and the static `Run` overloads with the
 * launch of a child process reduced to a record in a `ProcessHost`.
 */
module ProcessRunner {
  import opened Wrappers
  import opened Text

  // ---------------------------------------------------------------------
  // SplitArguments: the pattern [^\s"']+ | "([^"]*)" | '([^']*)'
  // ---------------------------------------------------------------------

  /** A character the first alternative `[^\s"']` accepts. */
  predicate PlainChar(c: char) {
    !IsWhiteSpace(c) && c != '"' && c != '\''
  }

  predicate IsQuote(c: char) {
    c == '"' || c == '\''
  }

  /** The length of the maximal run of plain characters at the start of `s`. */
  function RunLength(s: string): (n: nat)
    requires s != [] && PlainChar(s[0])
    ensures 0 < n <= |s|
    ensures forall j :: 0 <= j < n ==> PlainChar(s[j])
    ensures n == |s| || !PlainChar(s[n])
  {
    if |s| == 1 || !PlainChar(s[1]) then 1 else 1 + RunLength(s[1..])
  }

  /**
   * What a token of `SplitArguments` can be: a maximal run of plain
   * characters, or the inside of a quoted pair, which cannot hold its own
   * quote character.
   */
  predicate TokenShape(t: string) {
    (|t| > 0 && forall j :: 0 <= j < |t| ==> PlainChar(t[j])) || '"' !in t || '\'' !in t
  }

  /**
   * `SplitArguments`: the matches of the pattern, left to right. White space
   * matches nothing; a quote opens a quoted token only if the same quote
   * closes it later, otherwise that quote character is passed over.
   */
  function SplitArguments(s: string): (tokens: seq<string>)
    ensures forall i :: 0 <= i < |tokens| ==> TokenShape(tokens[i])
    decreases |s|
  {
    if s == [] then []
    else if IsWhiteSpace(s[0]) then SplitArguments(s[1..])
    else if IsQuote(s[0]) then
      match IndexOf(s[1..], s[0])
      case None => SplitArguments(s[1..])
      case Some(k) => [s[1..k + 1]] + SplitArguments(s[k + 2..])
    else
      var n := RunLength(s);
      [s[..n]] + SplitArguments(s[n..])
  }

  /** A quoted token: its inside is one token and scanning resumes after the closing quote. */
  lemma QuotedToken(q: char, x: string, rest: string)
    requires IsQuote(q) && q !in x
    ensures SplitArguments([q] + x + [q] + rest) == [x] + SplitArguments(rest)
  {
    var s := [q] + x + [q] + rest;
    assert s[1..] == x + [q] + rest;
    assert IndexOf(s[1..], q) == Some(|x|) by {
      assert s[1..][|x|] == q;
      assert s[1..][..|x|] == x;
    }
    assert s[1..|x| + 1] == x;
    assert s[|x| + 2..] == rest;
  }

  /** A quote that is never closed is skipped, and the text after it is scanned as usual. */
  lemma UnclosedQuote(q: char, rest: string)
    requires IsQuote(q) && q !in rest
    ensures SplitArguments([q] + rest) == SplitArguments(rest)
  {
    assert ([q] + rest)[1..] == rest;
  }

  /** A run of plain characters ended by white space (or the end) is one token. */
  lemma PlainToken(x: string, rest: string)
    requires x != [] && forall j :: 0 <= j < |x| ==> PlainChar(x[j])
    requires rest == [] || IsWhiteSpace(rest[0])
    ensures SplitArguments(x + rest) == [x] + SplitArguments(rest)
  {
    var s := x + rest;
    assert s[0] == x[0];
    var n := RunLength(s);
    assert forall j :: 0 <= j < |x| ==> s[j] == x[j];
    assert rest != [] ==> s[|x|] == rest[0];
    assert n == |x|;
    assert s[..n] == x && s[n..] == rest;
  }

  // ---------------------------------------------------------------------
  // The Arguments getter: join with spaces, quoting tokens that hold a space
  // ---------------------------------------------------------------------

  function Quote(x: string): string {
    if ' ' in x then "\"" + x + "\"" else x
  }

  /** The `Arguments` getter on a given `ArgumentsList`. */
  function Display(xs: seq<string>): string {
    if xs == [] then ""
    else if |xs| == 1 then Quote(xs[0])
    else Quote(xs[0]) + " " + Display(xs[1..])
  }

  /** A token that survives the display: non-empty, no quote, and no white space but `' '`. */
  predicate Displayable(x: string) {
    x != [] && forall j :: 0 <= j < |x| ==> x[j] == ' ' || PlainChar(x[j])
  }

  /** One displayed token followed by white space (or nothing) scans back to itself. */
  lemma QuoteToken(x: string, rest: string)
    requires Displayable(x)
    requires rest == [] || IsWhiteSpace(rest[0])
    ensures SplitArguments(Quote(x) + rest) == [x] + SplitArguments(rest)
  {
    if ' ' in x {
      assert '"' !in x;
      assert Quote(x) + rest == ['"'] + x + ['"'] + rest;
      QuotedToken('"', x, rest);
    } else {
      forall j | 0 <= j < |x|
        ensures PlainChar(x[j])
      {
        assert x[j] in x;
      }
      PlainToken(x, rest);
    }
  }

  /**
   * Round trip of the getter and the tokenizer: when every token is
   * non-empty and holds no quote and no white space other than `' '`,
   * splitting the displayed string gives back the tokens.
   */
  lemma {:induction false} DisplayRoundTrip(xs: seq<string>)
    requires forall i :: 0 <= i < |xs| ==> Displayable(xs[i])
    ensures SplitArguments(Display(xs)) == xs
  {
    if |xs| == 1 {
      QuoteToken(xs[0], "");
      assert Quote(xs[0]) + "" == Quote(xs[0]);
    } else if |xs| > 1 {
      var rest := " " + Display(xs[1..]);
      QuoteToken(xs[0], rest);
      assert Display(xs) == Quote(xs[0]) + rest;
      assert rest[1..] == Display(xs[1..]);
      DisplayRoundTrip(xs[1..]);
    }
  }

  // ---------------------------------------------------------------------
  // Placeholder expansion (the loop of the Arguments setter)
  // ---------------------------------------------------------------------

  /** `%name%`: starts and ends with `%`, longer than 2, not starting with `%%`. */
  predicate IsPlaceholder(t: string) {
    |t| > 2 && t[0] == '%' && t[|t| - 1] == '%' && t[1] != '%'
  }

  function PlaceholderName(t: string): string
    requires IsPlaceholder(t)
  {
    t[1..|t| - 1]
  }

  /** What one token contributes to `ArgumentsList`. */
  function ExpandToken(t: string, values: map<string, seq<string>>): seq<string> {
    if !IsPlaceholder(t) then [t]
    else if PlaceholderName(t) in values then values[PlaceholderName(t)]
    else []
  }

  function Expand(tokens: seq<string>, values: map<string, seq<string>>): seq<string> {
    if tokens == [] then [] else ExpandToken(tokens[0], values) + Expand(tokens[1..], values)
  }

  /** Expansion works token by token, preserving order. */
  lemma {:induction false} ExpandAppend(a: seq<string>, b: seq<string>, values: map<string, seq<string>>)
    ensures Expand(a + b, values) == Expand(a, values) + Expand(b, values)
  {
    if a != [] {
      assert (a + b)[0] == a[0] && (a + b)[1..] == a[1..] + b;
      ExpandAppend(a[1..], b, values);
    } else {
      assert a + b == b;
    }
  }

  /** Tokens that are not placeholders are copied unchanged. */
  lemma {:induction false} ExpandPlain(tokens: seq<string>, values: map<string, seq<string>>)
    requires forall i :: 0 <= i < |tokens| ==> !IsPlaceholder(tokens[i])
    ensures Expand(tokens, values) == tokens
  {
    if tokens != [] {
      ExpandPlain(tokens[1..], values);
    }
  }

  /** `%name%` is the placeholder of `name` when `name` is not empty and does not start with `%`. */
  lemma PlaceholderOf(name: string)
    requires |name| > 0 && name[0] != '%'
    ensures IsPlaceholder("%" + name + "%") && PlaceholderName("%" + name + "%") == name
  {
    var t := "%" + name + "%";
    assert t[1] == name[0];
    assert t[1..|t| - 1] == name;
  }

  /**
   * A registered placeholder is replaced in place by its whole list, an
   * unregistered one is dropped, and the tokens around it are kept.
   */
  lemma ExpandPlaceholder(before: seq<string>, name: string, after: seq<string>, values: map<string, seq<string>>)
    requires forall i :: 0 <= i < |before| ==> !IsPlaceholder(before[i])
    requires forall i :: 0 <= i < |after| ==> !IsPlaceholder(after[i])
    requires |name| > 0 && name[0] != '%'
    ensures var t := "%" + name + "%";
            Expand(before + [t] + after, values)
            == before + (if name in values then values[name] else []) + after
  {
    var t := "%" + name + "%";
    var middle := if name in values then values[name] else [];
    PlaceholderOf(name);
    assert ExpandToken(t, values) == middle;
    assert Expand([t], values) == middle by {
      assert [t][1..] == [];
      assert Expand([t], values) == ExpandToken(t, values) + Expand([], values);
    }
    ExpandAppend(before + [t], after, values);
    ExpandAppend(before, [t], values);
    ExpandPlain(before, values);
    ExpandPlain(after, values);
    assert Expand(before + [t] + after, values) == Expand(before + [t], values) + Expand(after, values);
    assert Expand(before + [t], values) == before + middle;
  }

  // ---------------------------------------------------------------------
  // PatternValuesCollection
  // ---------------------------------------------------------------------

  /** `ArgumentException` from `Dictionary.Add` on a key already present. */
  datatype CollectionError = DuplicateKey(key: string)

  class PatternValuesCollection {
    var dict: map<string, seq<string>>

    constructor()
      ensures dict == map[]
    {
      dict := map[];
    }

    function Count(): (n: nat)
      reads this
      ensures n == |dict.Keys|
    {
      |dict|
    }

    function TryGetValue(key: string): (r: Option<seq<string>>)
      reads this
      ensures r.Some? <==> key in dict
      ensures r.Some? ==> r.value == dict[key]
    {
      if key in dict then Some(dict[key]) else None
    }

    predicate ContainsKey(key: string)
      reads this
    {
      key in dict
    }

    /** `Add(key, params values)`: inserts or replaces the key's list. */
    method Add(key: string, values: seq<string>)
      modifies this
      ensures dict == old(dict)[key := values]
      ensures TryGetValue(key) == Some(values)
      ensures forall k :: k != key ==> TryGetValue(k) == old(TryGetValue(k))
      ensures Count() == old(Count()) + (if old(ContainsKey(key)) then 0 else 1)
    {
      dict := dict[key := values];
    }

    /** `Add(KeyValuePair)`: fails on a key already present, leaving the collection as it was. */
    method AddPair(key: string, values: seq<string>) returns (r: Result<(), CollectionError>)
      modifies this
      ensures key in old(dict) ==> r == Err(DuplicateKey(key)) && dict == old(dict)
      ensures key !in old(dict) ==> r.Ok? && dict == old(dict)[key := values]
      ensures key !in old(dict) ==> Count() == old(Count()) + 1 && TryGetValue(key) == Some(values)
    {
      if key in dict {
        return Err(DuplicateKey(key));
      }
      dict := dict[key := values];
      return Ok(());
    }

    method Clear()
      modifies this
      ensures dict == map[]
    {
      dict := map[];
    }

    /** `Remove(key)`: reports whether the key was present. */
    method Remove(key: string) returns (present: bool)
      modifies this
      ensures present <==> key in old(dict)
      ensures dict == old(dict) - {key}
      ensures TryGetValue(key).None? && Count() == old(Count()) - (if present then 1 else 0)
    {
      present := key in dict;
      dict := dict - {key};
    }
  }

  // ---------------------------------------------------------------------
  // Launching, reduced to a record
  // ---------------------------------------------------------------------

  /** One child process: the file, its argument vector, and whether the caller waited. */
  datatype Launch = Launch(filename: string, argv: seq<string>, wait: bool)

  /**
   * The operating system as seen by the runners: the launches so far, in
   * order, and the exit code the n-th launched process would report.
   */
  class ProcessHost {
    var launched: seq<Launch>
    const exitCodes: nat -> int

    constructor(exitCodes: nat -> int)
      ensures launched == [] && this.exitCodes == exitCodes
    {
      launched := [];
      this.exitCodes := exitCodes;
    }

    /** The exit code `Run(wait)` reports for a launch made now. */
    function NextExitCode(wait: bool): int
      reads this
    {
      if wait then exitCodes(|launched|) else 0
    }
  }

  // ---------------------------------------------------------------------
  // ProcessRunner
  // ---------------------------------------------------------------------

  class ProcessRunner {
    var argumentsList: seq<string>
    var filename: string
    const patternValues: PatternValuesCollection

    constructor()
      ensures argumentsList == [] && filename == ""
      ensures fresh(patternValues) && patternValues.dict == map[]
    {
      argumentsList := [];
      filename := "";
      patternValues := new PatternValuesCollection();
    }

    /** The `Arguments` getter. */
    function Arguments(): string
      reads this
    {
      Display(argumentsList)
    }

    /**
     * The `Arguments` setter: clears `ArgumentsList`, then appends the
     * expansion of each token of the template against the current
     * `PatternValues`.
     */
    method SetArguments(value: string)
      modifies this
      ensures argumentsList == Expand(SplitArguments(value), patternValues.dict)
      ensures filename == old(filename)
    {
      argumentsList := [];
      var tokens := SplitArguments(value);
      var i := 0;
      while i < |tokens|
        invariant 0 <= i <= |tokens|
        invariant argumentsList == Expand(tokens[..i], patternValues.dict)
        invariant filename == old(filename)
      {
        var arg := tokens[i];
        var realValue := [arg];
        ExpandAppend(tokens[..i], [arg], patternValues.dict);
        assert tokens[..i + 1] == tokens[..i] + [arg];
        if IsPlaceholder(arg) {
          var argName := arg[1..|arg| - 1];
          var found := patternValues.TryGetValue(argName);
          if found.None? {
            i := i + 1;
            continue;
          }
          realValue := found.value;
        }
        argumentsList := argumentsList + realValue;
        i := i + 1;
      }
      assert tokens[..i] == tokens;
    }

    /** `ArgumentsList.AddRange(args)`. */
    method AddArguments(args: seq<string>)
      modifies this
      ensures argumentsList == old(argumentsList) + args
      ensures filename == old(filename)
    {
      argumentsList := argumentsList + args;
    }

    /**
     * `Run(wait)`, as far as the arguments go: one launch of `filename` with
     * `ArgumentsList`; the exit code when waiting, 0 otherwise.
     */
    method Run(wait: bool, host: ProcessHost) returns (exitCode: int)
      modifies host
      ensures host.launched == old(host.launched) + [Launch(filename, argumentsList, wait)]
      ensures exitCode == old(host.NextExitCode(wait))
    {
      exitCode := host.NextExitCode(wait);
      host.launched := host.launched + [Launch(filename, argumentsList, wait)];
    }
  }

  /** The list overload of the static `Run`: the arguments go out verbatim, unexpanded. */
  method RunList(filename: string, args: seq<string>, wait: bool, host: ProcessHost) returns (exitCode: int)
    modifies host
    ensures host.launched == old(host.launched) + [Launch(filename, args, wait)]
    ensures exitCode == old(host.NextExitCode(wait))
  {
    var runner := new ProcessRunner();
    runner.filename := filename;
    runner.AddArguments(args);
    assert runner.argumentsList == args;
    exitCode := runner.Run(wait, host);
  }

  /**
   * The string overload of the static `Run`: the template is split and
   * expanded against a fresh, empty `PatternValues`, so every placeholder in
   * it is dropped.
   */
  method RunString(filename: string, args: string, wait: bool, host: ProcessHost) returns (exitCode: int)
    modifies host
    ensures host.launched == old(host.launched) + [Launch(filename, Expand(SplitArguments(args), map[]), wait)]
    ensures exitCode == old(host.NextExitCode(wait))
  {
    var runner := new ProcessRunner();
    runner.filename := filename;
    runner.SetArguments(args);
    exitCode := runner.Run(wait, host);
  }

  /** The tokens that are not placeholders, in order. */
  function NonPlaceholders(tokens: seq<string>): seq<string> {
    if tokens == [] then [] else (if IsPlaceholder(tokens[0]) then [] else [tokens[0]]) + NonPlaceholders(tokens[1..])
  }

  /**
   * Against an empty collection, expansion keeps exactly the tokens that are
   * not placeholders, in their order and with their repetitions.
   */
  lemma {:induction false} ExpandEmpty(tokens: seq<string>)
    ensures Expand(tokens, map[]) == NonPlaceholders(tokens)
  {
    if tokens != [] {
      ExpandEmpty(tokens[1..]);
    }
  }

  /** Hence a token survives expansion against an empty collection exactly when it is not a placeholder. */
  lemma {:induction false} NonPlaceholdersMembers(tokens: seq<string>, x: string)
    ensures x in NonPlaceholders(tokens) <==> x in tokens && !IsPlaceholder(x)
  {
    if tokens != [] {
      NonPlaceholdersMembers(tokens[1..], x);
      assert tokens == [tokens[0]] + tokens[1..];
    }
  }
}

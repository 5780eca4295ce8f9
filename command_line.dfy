/**
 * `CommandLine.Parse`: binds the arguments after the command to a plugin.
 * The handler table comes from the plugin's declaration table (reflection
 * written out), each argument is matched against the short pattern
 * `^-([\w\d])(?:=(?:"([^"]*)"|(.*)))?$` and then the long pattern
 * `^--([\w\d-]+)(?:=(?:"([^"]*)"|(.*)))?$`, matched options are converted
 * and stored into the plugin, `--config=<path>` loads a configuration file,
 * and everything else is collected for the rest option.
 */
module CommandLine {
  import opened Wrappers
  import opened Text
  import opened Schema
  import opened Config
  import opened Plugin

  // ---------------------------------------------------------------------
  // The two token patterns
  // ---------------------------------------------------------------------

  /** A character of `[\w\d-]`, the long name's class. */
  predicate IsNameChar(c: char) {
    IsWordChar(c) || c == '-'
  }

  /** The length of the run of name characters at the start of `s`. */
  function NameLength(s: string): (n: nat)
    ensures n <= |s|
    ensures forall j :: 0 <= j < n ==> IsNameChar(s[j])
    ensures n == |s| || !IsNameChar(s[n])
  {
    if s == [] || !IsNameChar(s[0]) then 0 else 1 + NameLength(s[1..])
  }

  /** `$`: the end of the text, or just before a final newline. */
  predicate AtEnd(r: string) {
    r == "" || r == "\n"
  }

  /** The text between `"` and `"` when `w` is exactly a quoted string with no inner quote. */
  predicate IsQuoted(w: string) {
    |w| >= 2 && w[0] == '"' && w[|w| - 1] == '"' && '"' !in w[1..|w| - 1]
  }

  /**
   * The value after `=`: `"([^"]*)"` first, then `(.*)`; either must be
   * followed by `$`, and `.` does not match a newline.
   */
  function ValueText(v: string): (r: Option<string>)
    ensures r.Some? ==> '"' !in r.value || '\n' !in r.value
  {
    var w := if |v| > 0 && v[|v| - 1] == '\n' then v[..|v| - 1] else v;
    if IsQuoted(w) then Some(w[1..|w| - 1])
    else if '\n' !in w then Some(w)
    else None
  }

  /** What follows the option name: nothing (value ""), or `=` and a value. */
  function ValuePart(r: string): Option<string> {
    if AtEnd(r) then Some("")
    else if r[0] == '=' then ValueText(r[1..])
    else None
  }

  /** The short pattern: `-`, exactly one word character, an optional `=value`. */
  function MatchShort(arg: string): (r: Option<(char, string)>)
    ensures r.Some? ==> |arg| >= 2 && arg[0] == '-' && IsWordChar(arg[1]) && r.value.0 == arg[1]
                        && (AtEnd(arg[2..]) || arg[2] == '=')
  {
    if |arg| >= 2 && arg[0] == '-' && IsWordChar(arg[1]) then
      match ValuePart(arg[2..])
      case Some(v) => Some((arg[1], v))
      case None => None
    else None
  }

  /** The long pattern: `--`, one or more name characters, an optional `=value`. */
  function MatchLong(arg: string): (r: Option<(string, string)>)
    ensures r.Some? ==> |arg| >= 3 && arg[..2] == "--" && r.value.0 != []
                        && 2 + |r.value.0| <= |arg| && arg[2..2 + |r.value.0|] == r.value.0
  {
    if |arg| >= 3 && arg[..2] == "--" then
      var n := NameLength(arg[2..]);
      if n == 0 then None
      else match ValuePart(arg[2 + n..])
        case Some(v) => Some((arg[2..2 + n], v))
        case None => None
    else None
  }

  /** `Deconstruct` on the short name's characters: all but the last, and the last. */
  function Deconstruct(arr: seq<char>): (r: (seq<char>, char))
    ensures |arr| >= 1 ==> r.0 + [r.1] == arr
    ensures |arr| == 0 ==> r == ([], '\0')
  {
    if |arr| == 0 then ([], '\0')
    else if |arr| == 1 then ([], arr[0])
    else (arr[..|arr| - 1], arr[|arr| - 1])
  }

  /**
   * The short pattern captures exactly one character, so the loop over the
   * head of `Deconstruct` never runs: the head is always empty.
   */
  lemma ShortHeadEmpty(arg: string)
    requires MatchShort(arg).Some?
    ensures Deconstruct([MatchShort(arg).value.0]).0 == []
    ensures Deconstruct([MatchShort(arg).value.0]).1 == arg[1]
  {
  }

  /** A cluster such as `-ab` matches neither pattern, so it is a positional argument. */
  lemma ClusterIsPositional(a: char, b: char, tail: string)
    requires IsWordChar(a) && IsWordChar(b)
    ensures MatchShort(['-', a, b] + tail).None?
    ensures MatchLong(['-', a, b] + tail).None?
  {
    var arg := ['-', a, b] + tail;
    assert arg[2..] == [b] + tail;
    assert arg[2..][0] == b && b != '=' && b != '\n';
    assert arg[..2] != "--" by { assert arg[1] == a; }
  }

  /** `-c="x"` gives the inner text `x`. */
  lemma ShortQuotedValue(c: char, x: string)
    requires IsWordChar(c) && '"' !in x
    ensures MatchShort(['-', c, '=', '"'] + x + ['"']) == Some((c, x))
  {
    var arg := ['-', c, '=', '"'] + x + ['"'];
    var w := arg[3..];
    assert w == ['"'] + x + ['"'];
    assert w[1..|w| - 1] == x;
    assert arg[2..][1..] == w;
  }

  /** `-c=v`, with no newline in `v` and `v` not a quoted string, gives `v` unchanged. */
  lemma ShortRawValue(c: char, v: string)
    requires IsWordChar(c) && '\n' !in v && !IsQuoted(v)
    ensures MatchShort(['-', c, '='] + v) == Some((c, v))
  {
    var arg := ['-', c, '='] + v;
    assert arg[2..] == ['='] + v;
    assert arg[2..][1..] == v;
  }

  /** `-c` alone gives the value "". */
  lemma ShortNoValue(c: char)
    requires IsWordChar(c)
    ensures MatchShort(['-', c]) == Some((c, ""))
  {
    assert ['-', c][2..] == "";
  }

  /** `--name=v` with a plain name gives that name and the value as for a short option. */
  lemma LongValue(name: string, v: string)
    requires name != [] && forall j :: 0 <= j < |name| ==> IsNameChar(name[j])
    requires ValueText(v).Some?
    ensures MatchShort("--" + name + "=" + v).None?
    ensures MatchLong("--" + name + "=" + v) == Some((name, ValueText(v).value))
  {
    var arg := "--" + name + "=" + v;
    assert arg[1] == '-';
    LongMatch(arg, name, "=" + v);
    assert ValuePart("=" + v) == ValueText(v) by {
      assert ("=" + v)[0] == '=' && ("=" + v)[1..] == v;
    }
  }

  /** `--` followed by a plain name and a text that does not continue the name. */
  lemma LongMatch(arg: string, name: string, rest: string)
    requires name != [] && forall j :: 0 <= j < |name| ==> IsNameChar(name[j])
    requires rest == [] || !IsNameChar(rest[0])
    requires arg == "--" + name + rest
    ensures MatchLong(arg) == match ValuePart(rest) case Some(v) => Some((name, v)) case None => None
  {
    assert arg[..2] == "--";
    assert arg[2..] == name + rest;
    NameLengthOf(name, rest);
    assert arg[2 + |name|..] == rest;
    assert arg[2..2 + |name|] == name;
  }

  /** A run of name characters ended by another character (or the end) is the whole name. */
  lemma {:induction false} NameLengthOf(name: string, rest: string)
    requires forall j :: 0 <= j < |name| ==> IsNameChar(name[j])
    requires rest == [] || !IsNameChar(rest[0])
    ensures NameLength(name + rest) == |name|
  {
    if name != [] {
      assert (name + rest)[0] == name[0] && (name + rest)[1..] == name[1..] + rest;
      NameLengthOf(name[1..], rest);
    } else {
      assert name + rest == rest;
    }
  }

  // ---------------------------------------------------------------------
  // Handlers: the declaration table checked and turned into a lookup table
  // ---------------------------------------------------------------------

  /** `TargetHandler`: the lower-cased long name, the short name, and the member it sets. */
  datatype Handler = Handler(name: string, shortName: Option<char>, isRequired: bool, member: Member)

  function OptionHandler(o: OptionAttribute, m: Member): Handler {
    Handler(Lower(o.longName), Some(o.shortName), o.isRequired, m)
  }

  function RestHandler(r: RestOptionAttribute, m: Member): Handler {
    Handler("", None, false, m)
  }

  /** The types an option member may have. */
  predicate Allowed(t: ClrType) {
    t == StringType || t == IntType || t == BoolType
  }

  /** `ValidateProperty` / `ValidateField` / `ValidateMethod` for an option. */
  function ValidateOption(m: Member): Option<Reason> {
    match m
    case Property(n, t, hasSetter) =>
      if !hasSetter then Some(NoSetter(n))
      else if !Allowed(t) then Some(UnsupportedType(n, t))
      else None
    case Field(n, t) =>
      if !Allowed(t) then Some(UnsupportedType(n, t)) else None
    case Method(n, ps) =>
      if |ps| > 1 then Some(TooManyParameters(n))
      else if |ps| == 1 && !Allowed(ps[0]) then Some(UnsupportedParameterType(n, ps[0]))
      else None
  }

  /** The same checks for a rest option, whose only type is `string[]`. */
  function ValidateRest(m: Member): Option<Reason> {
    match m
    case Property(n, t, hasSetter) =>
      if !hasSetter then Some(NoSetter(n))
      else if t != StringArrayType then Some(UnsupportedType(n, t))
      else None
    case Field(n, t) =>
      if t != StringArrayType then Some(UnsupportedType(n, t)) else None
    case Method(n, ps) =>
      if |ps| > 1 then Some(TooManyParameters(n))
      else if |ps| == 1 && ps[0] != StringArrayType then Some(UnsupportedParameterType(n, ps[0]))
      else None
  }

  /** A declaration the checks accept. */
  predicate ValidDeclaration(d: Declaration) {
    (d.option.Some? ==> ValidateOption(d.member).None?)
    && (d.rest.Some? ==> ValidateRest(d.member).None?)
  }

  datatype HandlerTable = HandlerTable(handlers: seq<Handler>, restHandler: Option<Handler>)

  /** One declaration: its option is checked and added, then its rest option checked and made current. */
  function AddDeclaration(table: HandlerTable, d: Declaration): Result<HandlerTable, OptionError> {
    var withOption :-
      match d.option
      case None => Ok(table)
      case Some(o) =>
        match ValidateOption(d.member)
        case Some(reason) => Err(OptionException(o, reason))
        case None => Ok(table.(handlers := table.handlers + [OptionHandler(o, d.member)]));
    match d.rest
    case None => Ok(withOption)
    case Some(r) =>
      match ValidateRest(d.member)
      case Some(reason) => Err(RestOptionException(r, reason))
      case None => Ok(withOption.(restHandler := Some(RestHandler(r, d.member))))
  }

  function CollectHandlers(table: HandlerTable, decls: seq<Declaration>): Result<HandlerTable, OptionError>
    decreases |decls|
  {
    if decls == [] then Ok(table)
    else
      var next :- AddDeclaration(table, decls[0]);
      CollectHandlers(next, decls[1..])
  }

  /** `GetHandlers`: the declarations in discovery order. */
  function GetHandlers(decls: seq<Declaration>): Result<HandlerTable, OptionError> {
    CollectHandlers(HandlerTable([], None), decls)
  }

  /** The handler of the last declaration that carries a rest option, if any. */
  function LastRest(decls: seq<Declaration>): Option<Handler>
    decreases |decls|
  {
    if decls == [] then None
    else
      var d := decls[|decls| - 1];
      if d.rest.Some? then Some(RestHandler(d.rest.value, d.member)) else LastRest(decls[..|decls| - 1])
  }

  /** The option handlers of the declarations, in discovery order. */
  function OptionHandlers(decls: seq<Declaration>): seq<Handler>
    decreases |decls|
  {
    if decls == [] then []
    else
      var d := decls[|decls| - 1];
      OptionHandlers(decls[..|decls| - 1]) + (if d.option.Some? then [OptionHandler(d.option.value, d.member)] else [])
  }

  /**
   * Collecting succeeds exactly when every declaration passes the checks;
   * then the option handlers are appended in order and the rest handler is
   * that of the last rest declaration (an earlier one is silently replaced).
   */
  lemma {:induction false} CollectHandlersSpec(table: HandlerTable, decls: seq<Declaration>)
    ensures CollectHandlers(table, decls).Ok? <==> forall i :: 0 <= i < |decls| ==> ValidDeclaration(decls[i])
    ensures CollectHandlers(table, decls).Ok? ==>
              CollectHandlers(table, decls).value.handlers == table.handlers + OptionHandlers(decls)
              && CollectHandlers(table, decls).value.restHandler
                 == (if LastRest(decls).Some? then LastRest(decls) else table.restHandler)
    decreases |decls|
  {
    if decls != [] {
      var d := decls[0];
      var step := AddDeclaration(table, d);
      AddDeclarationSpec(table, d);
      if step.Ok? {
        CollectHandlersSpec(step.value, decls[1..]);
        assert forall i :: 1 <= i < |decls| ==> decls[i] == decls[1..][i - 1];
        OptionHandlersCons(d, decls[1..]);
        LastRestCons(d, decls[1..]);
        assert decls == [d] + decls[1..];
      }
    }
  }

  /** One declaration is added exactly when it is valid: its option appended, its rest option made current. */
  lemma AddDeclarationSpec(table: HandlerTable, d: Declaration)
    ensures AddDeclaration(table, d).Ok? <==> ValidDeclaration(d)
    ensures AddDeclaration(table, d).Ok? ==>
              AddDeclaration(table, d).value
              == HandlerTable(table.handlers + (if d.option.Some? then [OptionHandler(d.option.value, d.member)] else []),
                              if d.rest.Some? then Some(RestHandler(d.rest.value, d.member)) else table.restHandler)
  {
    if d.option.None? {
      assert table.handlers + [] == table.handlers;
    }
  }

  lemma {:induction false} OptionHandlersCons(d: Declaration, decls: seq<Declaration>)
    ensures OptionHandlers([d] + decls)
         == (if d.option.Some? then [OptionHandler(d.option.value, d.member)] else []) + OptionHandlers(decls)
    decreases |decls|
  {
    var all := [d] + decls;
    if decls == [] {
      assert all[..|all| - 1] == [];
    } else {
      assert all[..|all| - 1] == [d] + decls[..|decls| - 1];
      assert all[|all| - 1] == decls[|decls| - 1];
      OptionHandlersCons(d, decls[..|decls| - 1]);
    }
  }

  lemma {:induction false} LastRestCons(d: Declaration, decls: seq<Declaration>)
    ensures LastRest([d] + decls)
         == (if LastRest(decls).Some? then LastRest(decls)
             else if d.rest.Some? then Some(RestHandler(d.rest.value, d.member)) else None)
    decreases |decls|
  {
    var all := [d] + decls;
    if decls == [] {
      assert all[..|all| - 1] == [];
    } else {
      assert all[..|all| - 1] == [d] + decls[..|decls| - 1];
      assert all[|all| - 1] == decls[|decls| - 1];
      LastRestCons(d, decls[..|decls| - 1]);
    }
  }

  /** `GetHandlers` succeeds iff every declaration is valid; the last rest option wins. */
  lemma GetHandlersSpec(decls: seq<Declaration>)
    ensures GetHandlers(decls).Ok? <==> forall i :: 0 <= i < |decls| ==> ValidDeclaration(decls[i])
    ensures GetHandlers(decls).Ok? ==> GetHandlers(decls).value == HandlerTable(OptionHandlers(decls), LastRest(decls))
  {
    CollectHandlersSpec(HandlerTable([], None), decls);
  }

  /** `handlers.FirstOrDefault(x => x.ShortName == c)`. */
  function FindShort(handlers: seq<Handler>, c: char): (r: Option<Handler>)
    ensures r.None? <==> forall i :: 0 <= i < |handlers| ==> handlers[i].shortName != Some(c)
    ensures r.Some? ==> exists i :: 0 <= i < |handlers| && handlers[i] == r.value && r.value.shortName == Some(c)
                                    && forall j :: 0 <= j < i ==> handlers[j].shortName != Some(c)
  {
    if handlers == [] then None
    else if handlers[0].shortName == Some(c) then Some(handlers[0])
    else
      var r := FindShort(handlers[1..], c);
      assert forall j :: 1 <= j < |handlers| ==> handlers[j] == handlers[1..][j - 1];
      assert r.Some? ==> exists i :: 0 <= i < |handlers| && handlers[i] == r.value && r.value.shortName == Some(c)
                                    && forall j :: 0 <= j < i ==> handlers[j].shortName != Some(c) by {
        if r.Some? {
          var i :| 0 <= i < |handlers[1..]| && handlers[1..][i] == r.value && r.value.shortName == Some(c)
                   && forall j :: 0 <= j < i ==> handlers[1..][j].shortName != Some(c);
          assert handlers[i + 1] == r.value;
        }
      }
      r
  }

  /** `handlers.FirstOrDefault(x => x.Name == name)`. */
  function FindLong(handlers: seq<Handler>, name: string): (r: Option<Handler>)
    ensures r.None? <==> forall i :: 0 <= i < |handlers| ==> handlers[i].name != name
    ensures r.Some? ==> exists i :: 0 <= i < |handlers| && handlers[i] == r.value && r.value.name == name
                                    && forall j :: 0 <= j < i ==> handlers[j].name != name
  {
    if handlers == [] then None
    else if handlers[0].name == name then Some(handlers[0])
    else
      var r := FindLong(handlers[1..], name);
      assert forall j :: 1 <= j < |handlers| ==> handlers[j] == handlers[1..][j - 1];
      assert r.Some? ==> exists i :: 0 <= i < |handlers| && handlers[i] == r.value && r.value.name == name
                                    && forall j :: 0 <= j < i ==> handlers[j].name != name by {
        if r.Some? {
          var i :| 0 <= i < |handlers[1..]| && handlers[1..][i] == r.value && r.value.name == name
                   && forall j :: 0 <= j < i ==> handlers[1..][j].name != name;
          assert handlers[i + 1] == r.value;
        }
      }
      r
  }

  // ---------------------------------------------------------------------
  // Setting a member
  // ---------------------------------------------------------------------

  /** The value handed to `Set`: an option's text, or the positional arguments. */
  datatype Arg = Text(text: string) | Texts(items: seq<string>)

  /** The exceptions `Parse` lets through. */
  datatype ParseError =
    | SchemaError(schemaError: OptionError)            // OptionException / RestOptionException
    | FormatError(text: string)                  // FormatException from int.Parse
    | OverflowError(text: string)                // OverflowException from int.Parse
    | UnsupportedRestValue                       // InvalidOperationException: not a string[]
    | UnsupportedTypeError(fullName: string)     // InvalidOperationException: unsupported type
    | ConfigFailed(configError: ConfigError)           // opening or parsing the --config file

  /** `value.ToString()`. */
  function ArgString(value: Arg): string {
    match value
    case Text(s) => s
    case Texts(_) => "System.String[]"
  }

  /** `Convert(type, value)`. */
  function Convert(t: ClrType, value: Arg): (r: Result<SlotValue, ParseError>)
    ensures t == StringType ==> r == Ok(Str(ArgString(value)))
    ensures t == BoolType ==> r == Ok(Bool(true))
    ensures t == IntType ==> (r.Ok? <==> ParseInt32(ArgString(value)).Parsed?)
    ensures t == IntType && r.Ok? ==> r.value == Int(ParseInt32(ArgString(value)).value)
    ensures t == StringArrayType ==> (r.Ok? <==> value.Texts?)
  {
    match t
    case StringType => Ok(Str(ArgString(value)))
    case IntType =>
      (match ParseInt32(ArgString(value))
       case Parsed(n) => Ok(Int(n))
       case BadFormat => Err(FormatError(ArgString(value)))
       case Overflow => Err(OverflowError(ArgString(value))))
    case BoolType => Ok(Bool(true))
    case StringArrayType =>
      if value.Texts? then Ok(StrList(value.items)) else Err(UnsupportedRestValue)
    case OtherType(n) => Err(UnsupportedTypeError(n))
  }

  /** The part of a plugin instance the binder changes. */
  datatype Target = Target(slots: map<string, SlotValue>, calls: seq<Call>)

  /** `TargetHandler.Set`: store into the property or field, or invoke the method. */
  function Set(h: Handler, target: Target, value: Arg): Result<Target, ParseError> {
    match h.member
    case Property(n, t, _) =>
      var v :- Convert(t, value);
      Ok(target.(slots := target.slots[n := v]))
    case Field(n, t) =>
      var v :- Convert(t, value);
      Ok(target.(slots := target.slots[n := v]))
    case Method(n, ps) =>
      if ps == [] then Ok(target.(calls := target.calls + [Call(n, [])]))
      else
        var v :- Convert(ps[0], value);
        Ok(target.(calls := target.calls + [Call(n, [v])]))
  }

  // ---------------------------------------------------------------------
  // The argument loop, as a function
  // ---------------------------------------------------------------------

  /** The loop's variables: the plugin's state, `restArgs` and `config`. */
  datatype Binding = Binding(target: Target, rest: seq<string>, config: Option<ConfigBlock>)

  /** One argument. */
  function Step(b: Binding, arg: string, handlers: seq<Handler>, command: string, fs: FileSystem)
    : Result<Binding, ParseError>
  {
    match MatchShort(arg)
    case Some((c, value)) =>
      (match FindShort(handlers, Deconstruct([c]).1)
       case None => Ok(b)
       case Some(h) =>
         var t :- Set(h, b.target, Text(value));
         Ok(b.(target := t)))
    case None =>
      match MatchLong(arg)
      case Some((name, value)) =>
        if Lower(name) == "config" then
          (match ReadConfig(fs, value)
           case Err(e) => Err(ConfigFailed(e))
           case Ok(c) => Ok(b.(config := c.TryGetValue(command))))
        else
          (match FindLong(handlers, Lower(name))
           case None => Ok(b)
           case Some(h) =>
             var t :- Set(h, b.target, Text(value));
             Ok(b.(target := t)))
      case None => Ok(b.(rest := b.rest + [arg]))
  }

  /** The loop's state when it stops, and the exception that stopped it early, if any. */
  datatype BindOutcome = BindOutcome(binding: Binding, error: Option<ParseError>)

  function Bind(b: Binding, args: seq<string>, handlers: seq<Handler>, command: string, fs: FileSystem)
    : BindOutcome
    decreases |args|
  {
    if args == [] then BindOutcome(b, None)
    else
      match Step(b, args[0], handlers, command, fs)
      case Err(e) => BindOutcome(b, Some(e))
      case Ok(next) => Bind(next, args[1..], handlers, command, fs)
  }

  /** What `Parse` leaves in the plugin, and what it returns or throws. */
  datatype ParseOutcome = ParseOutcome(target: Target, result: Result<Option<ConfigBlock>, ParseError>)

  /** `Parse` as a function of the declarations, the command and the plugin's state. */
  function ParseSpec(args: seq<string>, decls: seq<Declaration>, command: string, t0: Target, fs: FileSystem)
    : ParseOutcome
  {
    match GetHandlers(decls)
    case Err(e) => ParseOutcome(t0, Err(SchemaError(e)))
    case Ok(table) =>
      var o := Bind(Binding(t0, [], None), args, table.handlers, command, fs);
      if o.error.Some? then ParseOutcome(o.binding.target, Err(o.error.value))
      else match table.restHandler
        case None => ParseOutcome(o.binding.target, Ok(o.binding.config))
        case Some(h) =>
          match Set(h, o.binding.target, Texts(o.binding.rest))
          case Err(e) => ParseOutcome(o.binding.target, Err(e))
          case Ok(t) => ParseOutcome(t, Ok(o.binding.config))
  }

  /**
   * `Parse(args, target)`: checks the declarations, then binds the
   * arguments one at a time into the plugin, so that an exception leaves
   * what earlier arguments stored; finally hands the positional arguments
   * to the rest option.
   */
  method Parse(args: seq<string>, target: Plugin, fs: FileSystem) returns (r: Result<Option<ConfigBlock>, ParseError>)
    modifies target
    ensures var o := ParseSpec(args, target.info.declarations, target.info.command,
                               Target(old(target.slots), old(target.calls)), fs);
            target.slots == o.target.slots && target.calls == o.target.calls && r == o.result
  {
    var tables := GetHandlers(target.info.declarations);
    if tables.Err? {
      return Err(SchemaError(tables.error));
    }
    var handlers := tables.value.handlers;
    var restHandler := tables.value.restHandler;
    var command := target.info.command;
    ghost var start := Binding(Target(target.slots, target.calls), [], None);
    var restArgs: seq<string> := [];
    var config: Option<ConfigBlock> := None;
    var i := 0;
    while i < |args|
      invariant 0 <= i <= |args|
      invariant Bind(start, args, handlers, command, fs)
             == Bind(Binding(Target(target.slots, target.calls), restArgs, config), args[i..], handlers, command, fs)
    {
      BindUnfold(Binding(Target(target.slots, target.calls), restArgs, config), args, i, handlers, command, fs);
      var failure;
      restArgs, config, failure := BindArgument(args[i], handlers, command, fs, target, restArgs, config);
      if failure.Some? {
        return Err(failure.value);
      }
      i := i + 1;
    }
    if restHandler.Some? {
      var stored := Set(restHandler.value, Target(target.slots, target.calls), Texts(restArgs));
      if stored.Err? {
        return Err(stored.error);
      }
      target.slots, target.calls := stored.value.slots, stored.value.calls;
    }
    return Ok(config);
  }

  /** One turn of `Bind`: the first argument is stepped, the rest bound on. */
  lemma BindUnfold(b: Binding, args: seq<string>, i: nat, handlers: seq<Handler>, command: string, fs: FileSystem)
    requires i < |args|
    ensures Bind(b, args[i..], handlers, command, fs)
         == match Step(b, args[i], handlers, command, fs)
            case Err(e) => BindOutcome(b, Some(e))
            case Ok(next) => Bind(next, args[i + 1..], handlers, command, fs)
  {
    assert args[i..][0] == args[i] && args[i..][1..] == args[i + 1..];
  }

  /**
   * The body of `Parse`'s loop for one argument: the plugin, `restArgs` and
   * `config` become what `Step` says, or the exception is returned with the
   * plugin untouched.
   */
  method BindArgument(arg: string, handlers: seq<Handler>, command: string, fs: FileSystem, target: Plugin,
                      restArgs: seq<string>, config: Option<ConfigBlock>)
    returns (restArgs': seq<string>, config': Option<ConfigBlock>, failure: Option<ParseError>)
    modifies target
    ensures var s := Step(Binding(Target(old(target.slots), old(target.calls)), restArgs, config), arg, handlers, command, fs);
            && (s.Err? ==> failure == Some(s.error) && target.slots == old(target.slots) && target.calls == old(target.calls))
            && (s.Ok? ==> failure.None? && s.value == Binding(Target(target.slots, target.calls), restArgs', config'))
  {
    restArgs', config', failure := restArgs, config, None;
    var shortMatch := MatchShort(arg);
    if shortMatch.Some? {
      var (c, value) := shortMatch.value;
      var (head, tail) := Deconstruct([c]);
      var handler := FindShort(handlers, tail);
      if handler.Some? {
        var stored := Set(handler.value, Target(target.slots, target.calls), Text(value));
        if stored.Err? {
          return restArgs', config', Some(stored.error);
        }
        target.slots, target.calls := stored.value.slots, stored.value.calls;
      }
    } else {
      var longMatch := MatchLong(arg);
      if longMatch.Some? {
        var name := Lower(longMatch.value.0);
        var value := longMatch.value.1;
        if name == "config" {
          var loaded := Load(fs, value);
          if loaded.Err? {
            return restArgs', config', Some(ConfigFailed(loaded.error));
          }
          config' := loaded.value.TryGetValue(command);
        } else {
          var handler := FindLong(handlers, name);
          if handler.Some? {
            var stored := Set(handler.value, Target(target.slots, target.calls), Text(value));
            if stored.Err? {
              return restArgs', config', Some(stored.error);
            }
            target.slots, target.calls := stored.value.slots, stored.value.calls;
          }
        }
      } else {
        restArgs' := restArgs + [arg];
      }
    }
  }

  // ---------------------------------------------------------------------
  // Properties of the binding
  // ---------------------------------------------------------------------

  /** Binding a concatenation: the second part starts where the first stopped, unless it threw. */
  lemma {:induction false} BindAppend(b: Binding, xs: seq<string>, ys: seq<string>, handlers: seq<Handler>,
                                      command: string, fs: FileSystem)
    ensures var first := Bind(b, xs, handlers, command, fs);
            Bind(b, xs + ys, handlers, command, fs)
            == if first.error.Some? then first else Bind(first.binding, ys, handlers, command, fs)
    decreases |xs|
  {
    if xs == [] {
      assert xs + ys == ys;
    } else {
      assert (xs + ys)[0] == xs[0] && (xs + ys)[1..] == xs[1..] + ys;
      match Step(b, xs[0], handlers, command, fs)
      case Err(e) =>
      case Ok(next) => BindAppend(next, xs[1..], ys, handlers, command, fs);
    }
  }

  /**
   * A token that throws stops the loop: the plugin keeps what the earlier
   * tokens stored, and the later tokens are not looked at.
   */
  lemma EarlierValuesSurvive(b: Binding, xs: seq<string>, bad: string, ys: seq<string>, handlers: seq<Handler>,
                             command: string, fs: FileSystem)
    requires Bind(b, xs, handlers, command, fs).error.None?
    requires Step(Bind(b, xs, handlers, command, fs).binding, bad, handlers, command, fs).Err?
    ensures Bind(b, xs + [bad] + ys, handlers, command, fs)
         == BindOutcome(Bind(b, xs, handlers, command, fs).binding,
                        Some(Step(Bind(b, xs, handlers, command, fs).binding, bad, handlers, command, fs).error))
  {
    BindAppend(b, xs, [bad] + ys, handlers, command, fs);
    assert xs + [bad] + ys == xs + ([bad] + ys);
    assert ([bad] + ys)[0] == bad;
  }

  /** A positional argument: one that matches neither pattern. */
  predicate Positional(arg: string) {
    MatchShort(arg).None? && MatchLong(arg).None?
  }

  /** Positional arguments are collected in encounter order and change nothing else. */
  lemma {:induction false} PositionalOrder(b: Binding, args: seq<string>, handlers: seq<Handler>,
                                           command: string, fs: FileSystem)
    requires forall i :: 0 <= i < |args| ==> Positional(args[i])
    ensures Bind(b, args, handlers, command, fs) == BindOutcome(b.(rest := b.rest + args), None)
    decreases |args|
  {
    if args == [] {
      assert b.rest + [] == b.rest;
    } else {
      var next := b.(rest := b.rest + [args[0]]);
      assert Step(b, args[0], handlers, command, fs) == Ok(next);
      PositionalOrder(next, args[1..], handlers, command, fs);
      assert b.rest + [args[0]] + args[1..] == b.rest + args;
    }
  }

  /**
   * `--config=<value>` in any letter case binds no option: it replaces the
   * loop's config by the block named after the command (None if absent) of
   * the file the value names, quoted or not, or throws if that file cannot
   * be read or parsed.
   */
  lemma ConfigToken(b: Binding, name: string, value: string, handlers: seq<Handler>,
                    command: string, fs: FileSystem)
    requires Lower(name) == "config" && forall j :: 0 <= j < |name| ==> IsNameChar(name[j])
    requires ValueText(value).Some?
    ensures var path := ValueText(value).value;
            var s := Step(b, "--" + name + "=" + value, handlers, command, fs);
            && (ReadConfig(fs, path).Err? ==> s == Err(ConfigFailed(ReadConfig(fs, path).error)))
            && (ReadConfig(fs, path).Ok? ==> s == Ok(b.(config := ReadConfig(fs, path).value.TryGetValue(command))))
  {
    assert |name| == 6;
    LongValue(name, value);
  }

  /** Of two `--config` tokens that both load, the later one decides the config. */
  lemma LastConfigWins(b: Binding, n1: string, v1: string, n2: string, v2: string, handlers: seq<Handler>,
                       command: string, fs: FileSystem)
    requires Lower(n1) == "config" && forall j :: 0 <= j < |n1| ==> IsNameChar(n1[j])
    requires Lower(n2) == "config" && forall j :: 0 <= j < |n2| ==> IsNameChar(n2[j])
    requires ValueText(v1).Some? && ValueText(v2).Some?
    requires ReadConfig(fs, ValueText(v1).value).Ok? && ReadConfig(fs, ValueText(v2).value).Ok?
    ensures var o := Bind(b, ["--" + n1 + "=" + v1, "--" + n2 + "=" + v2], handlers, command, fs);
            o.error.None? && o.binding == b.(config := ReadConfig(fs, ValueText(v2).value).value.TryGetValue(command))
  {
    ConfigToken(b, n1, v1, handlers, command, fs);
    var b1 := b.(config := ReadConfig(fs, ValueText(v1).value).value.TryGetValue(command));
    ConfigToken(b1, n2, v2, handlers, command, fs);
    BindTwo(b, "--" + n1 + "=" + v1, b1, "--" + n2 + "=" + v2,
            b1.(config := ReadConfig(fs, ValueText(v2).value).value.TryGetValue(command)), handlers, command, fs);
  }

  /** Two tokens that both step without throwing. */
  lemma BindTwo(b: Binding, x: string, b1: Binding, y: string, b2: Binding, handlers: seq<Handler>,
                command: string, fs: FileSystem)
    requires Step(b, x, handlers, command, fs) == Ok(b1)
    requires Step(b1, y, handlers, command, fs) == Ok(b2)
    ensures Bind(b, [x, y], handlers, command, fs) == BindOutcome(b2, None)
  {
    assert [x, y][0] == x && [x, y][1..] == [y];
    assert Bind(b, [x, y], handlers, command, fs) == Bind(b1, [y], handlers, command, fs);
    assert [y][0] == y && [y][1..] == [];
    assert Bind(b1, [y], handlers, command, fs) == Bind(b2, [], handlers, command, fs);
  }

  /**
   * The handler an option argument selects: the first with its letter for
   * the short form, the first with its lower-cased name for the long form
   * (none for `config`, which names a file), and none for a positional.
   */
  function Selected(arg: string, handlers: seq<Handler>): Option<Handler> {
    match MatchShort(arg)
    case Some((c, _)) => FindShort(handlers, c)
    case None =>
      match MatchLong(arg)
      case Some((name, _)) => if Lower(name) == "config" then None else FindLong(handlers, Lower(name))
      case None => None
  }

  /** The value text an option argument carries: what follows `=`, unquoted, or "" when nothing does. */
  function OptionValue(arg: string): string {
    match MatchShort(arg)
    case Some((_, v)) => v
    case None =>
      match MatchLong(arg)
      case Some((_, v)) => v
      case None => ""
  }

  /** The target once `v` is stored into the member, or passed to it when it is a method. */
  function Stored(t: Target, m: Member, v: SlotValue): Target {
    if m.Method? then t.(calls := t.calls + [Call(m.name, [v])]) else t.(slots := t.slots[m.name := v])
  }

  /** A member of the given type, or a method taking one parameter of that type. */
  predicate TypedMember(m: Member, ty: ClrType) {
    match m
    case Property(_, t, _) => t == ty
    case Field(_, t) => t == ty
    case Method(_, ps) => ps == [ty]
  }

  /**
   * A bool option becomes true whatever its text, in the short and the long
   * form alike, so `--inspect=false` and `-i=0` both set true.
   */
  lemma BoolIsAlwaysTrue(b: Binding, arg: string, handlers: seq<Handler>, command: string, fs: FileSystem,
                         h: Handler)
    requires Selected(arg, handlers) == Some(h) && TypedMember(h.member, BoolType)
    ensures Step(b, arg, handlers, command, fs) == Ok(b.(target := Stored(b.target, h.member, Bool(true))))
  {
  }

  /** A string option receives its value text as written, unquoted, in either form. */
  lemma StringOptionStored(b: Binding, arg: string, handlers: seq<Handler>, command: string, fs: FileSystem,
                           h: Handler)
    requires Selected(arg, handlers) == Some(h) && TypedMember(h.member, StringType)
    ensures Step(b, arg, handlers, command, fs) == Ok(b.(target := Stored(b.target, h.member, Str(OptionValue(arg)))))
  {
  }

  /**
   * An int option, in either form, receives `int.Parse` of its value text;
   * a text that is not a 32-bit integer throws the parser's exception and
   * the binding is unchanged.
   */
  lemma IntOptionConverted(b: Binding, arg: string, handlers: seq<Handler>, command: string, fs: FileSystem,
                           h: Handler)
    requires Selected(arg, handlers) == Some(h) && TypedMember(h.member, IntType)
    ensures var text := OptionValue(arg);
            && (ParseInt32(text).Parsed? ==>
                  Step(b, arg, handlers, command, fs)
                  == Ok(b.(target := Stored(b.target, h.member, Int(ParseInt32(text).value)))))
            && (ParseInt32(text).BadFormat? ==> Step(b, arg, handlers, command, fs) == Err(FormatError(text)))
            && (ParseInt32(text).Overflow? ==> Step(b, arg, handlers, command, fs) == Err(OverflowError(text)))
  {
  }

  /** A bare `-n` on an int option has the empty value, which does not parse: it throws. */
  lemma BareIntOptionThrows(b: Binding, c: char, handlers: seq<Handler>, command: string, fs: FileSystem,
                            h: Handler)
    requires IsWordChar(c) && FindShort(handlers, c) == Some(h) && TypedMember(h.member, IntType)
    ensures Step(b, ['-', c], handlers, command, fs) == Err(FormatError(""))
  {
    ShortNoValue(c);
    IntOptionConverted(b, ['-', c], handlers, command, fs, h);
  }

  /** A short option whose letter no handler has is skipped: nothing changes. */
  lemma UnknownShortSkipped(b: Binding, arg: string, handlers: seq<Handler>, command: string, fs: FileSystem)
    requires MatchShort(arg).Some? && FindShort(handlers, MatchShort(arg).value.0).None?
    ensures Step(b, arg, handlers, command, fs) == Ok(b)
  {
  }

  /** A long option other than `config` whose name no handler has is skipped: nothing changes. */
  lemma UnknownLongSkipped(b: Binding, arg: string, handlers: seq<Handler>, command: string, fs: FileSystem)
    requires MatchLong(arg).Some? && Lower(MatchLong(arg).value.0) != "config"
    requires FindLong(handlers, Lower(MatchLong(arg).value.0)).None?
    ensures Step(b, arg, handlers, command, fs) == Ok(b)
  {
    assert arg[1] == arg[..2][1] == '-';
  }

  /** The positional arguments of `args`, in order. */
  function Positionals(args: seq<string>): seq<string>
    decreases |args|
  {
    if args == [] then [] else (if Positional(args[0]) then [args[0]] else []) + Positionals(args[1..])
  }

  /** A step adds its argument to the rest exactly when the argument is positional. */
  lemma StepRest(b: Binding, arg: string, handlers: seq<Handler>, command: string, fs: FileSystem)
    requires Step(b, arg, handlers, command, fs).Ok?
    ensures Step(b, arg, handlers, command, fs).value.rest == b.rest + (if Positional(arg) then [arg] else [])
  {
    assert b.rest + [] == b.rest;
  }

  /** A binding from `b` over `args` that does not throw has added exactly the positionals to the rest. */
  predicate RestCollected(b: Binding, args: seq<string>, handlers: seq<Handler>, command: string, fs: FileSystem)
  {
    var o := Bind(b, args, handlers, command, fs);
    o.error.None? ==> o.binding.rest == b.rest + Positionals(args)
  }

  /**
   * Whatever options are mixed in, a binding that does not throw collects
   * exactly the positional arguments, in encounter order.
   */
  lemma {:induction false} RestCollectsPositionals(b: Binding, args: seq<string>, handlers: seq<Handler>,
                                                   command: string, fs: FileSystem)
    ensures var o := Bind(b, args, handlers, command, fs);
            o.error.None? ==> o.binding.rest == b.rest + Positionals(args)
    decreases |args|
  {
    if args == [] {
      assert b.rest + [] == b.rest;
    } else {
      var ok, next := RestFirst(b, args, handlers, command, fs);
      if ok {
        RestCollectsPositionals(next, args[1..], handlers, command, fs);
      }
    }
    assert RestCollected(b, args, handlers, command, fs);
  }

  /** The first step: it throws, or the rest is collected from `next` on exactly when from `b` on. */
  lemma RestFirst(b: Binding, args: seq<string>, handlers: seq<Handler>, command: string, fs: FileSystem)
    returns (ok: bool, next: Binding)
    requires args != []
    ensures !ok ==> RestCollected(b, args, handlers, command, fs)
    ensures ok ==> RestCollected(next, args[1..], handlers, command, fs) ==> RestCollected(b, args, handlers, command, fs)
  {
    ok, next := BindFirst(b, args, handlers, command, fs);
    if ok {
      RestLink(b, next, args, handlers, command, fs);
    }
  }

  /** Collecting from `next` on, after a head step from `b`, is collecting from `b` on. */
  lemma RestLink(b: Binding, next: Binding, args: seq<string>, handlers: seq<Handler>, command: string,
                 fs: FileSystem)
    requires args != []
    requires Bind(b, args, handlers, command, fs) == Bind(next, args[1..], handlers, command, fs)
    requires next.rest == b.rest + (if Positional(args[0]) then [args[0]] else [])
    requires Positionals(args) == (if Positional(args[0]) then [args[0]] else []) + Positionals(args[1..])
    ensures RestCollected(next, args[1..], handlers, command, fs) ==> RestCollected(b, args, handlers, command, fs)
  {
    var head := if Positional(args[0]) then [args[0]] else [];
    var o := Bind(next, args[1..], handlers, command, fs);
    if RestCollected(next, args[1..], handlers, command, fs) && o.error.None? {
      calc {
        o.binding.rest;
        next.rest + Positionals(args[1..]);
        (b.rest + head) + Positionals(args[1..]);
        { SeqAssoc(b.rest, head, Positionals(args[1..])); }
        b.rest + (head + Positionals(args[1..]));
        b.rest + Positionals(args);
      }
    }
  }

  /** The first argument of a non-empty binding: it throws, or binding goes on from `next`. */
  lemma BindFirst(b: Binding, args: seq<string>, handlers: seq<Handler>, command: string, fs: FileSystem)
    returns (ok: bool, next: Binding)
    requires args != []
    ensures !ok ==> Bind(b, args, handlers, command, fs).error.Some?
    ensures ok ==> Bind(b, args, handlers, command, fs) == Bind(next, args[1..], handlers, command, fs)
    ensures ok ==> next.rest == b.rest + (if Positional(args[0]) then [args[0]] else [])
    ensures Positionals(args) == (if Positional(args[0]) then [args[0]] else []) + Positionals(args[1..])
  {
    var s := Step(b, args[0], handlers, command, fs);
    ok := s.Ok?;
    if ok {
      next := s.value;
      StepRest(b, args[0], handlers, command, fs);
    } else {
      next := b;
    }
  }

  /** The rest handler the table keeps passed the rest checks. */
  lemma {:induction false} LastRestValid(decls: seq<Declaration>)
    requires forall i :: 0 <= i < |decls| ==> ValidDeclaration(decls[i])
    requires LastRest(decls).Some?
    ensures ValidateRest(LastRest(decls).value.member).None?
    decreases |decls|
  {
    var d := decls[|decls| - 1];
    if d.rest.None? {
      var init := decls[..|decls| - 1];
      assert forall i :: 0 <= i < |init| ==> init[i] == decls[i];
      LastRestValid(init);
    } else {
      assert ValidDeclaration(d);
    }
  }

  /**
   * After a loop that did not throw, the rest option is always assigned the
   * positional arguments in order, even when there are none: a property or
   * a field receives them as a list, a method is invoked with them (or with
   * nothing when it takes no parameter). `Parse` then returns the config.
   */
  lemma RestAlwaysAssigned(args: seq<string>, decls: seq<Declaration>, command: string, t0: Target, fs: FileSystem)
    requires GetHandlers(decls).Ok? && GetHandlers(decls).value.restHandler.Some?
    requires Bind(Binding(t0, [], None), args, GetHandlers(decls).value.handlers, command, fs).error.None?
    ensures var o := Bind(Binding(t0, [], None), args, GetHandlers(decls).value.handlers, command, fs);
            var m := GetHandlers(decls).value.restHandler.value.member;
            var p := ParseSpec(args, decls, command, t0, fs);
            && p.result == Ok(o.binding.config)
            && (!m.Method? ==> p.target == o.binding.target.(slots := o.binding.target.slots[m.name := StrList(Positionals(args))]))
            && (m.Method? ==> p.target == o.binding.target.(calls := o.binding.target.calls
                                 + [Call(m.name, if m.parameters == [] then [] else [StrList(Positionals(args))])]))
  {
    GetHandlersSpec(decls);
    LastRestValid(decls);
    RestCollectsPositionals(Binding(t0, [], None), args, GetHandlers(decls).value.handlers, command, fs);
    assert [] + Positionals(args) == Positionals(args);
  }

  /** A declaration table that fails the checks throws before any argument is looked at. */
  lemma SchemaCheckedFirst(args: seq<string>, decls: seq<Declaration>, command: string, t0: Target, fs: FileSystem)
    requires exists i :: 0 <= i < |decls| && !ValidDeclaration(decls[i])
    ensures ParseSpec(args, decls, command, t0, fs).target == t0
    ensures ParseSpec(args, decls, command, t0, fs).result.Err?
    ensures ParseSpec(args, decls, command, t0, fs).result.error.SchemaError?
  {
    GetHandlersSpec(decls);
  }
}

/**
 * The host program (Main/Program.cs): it discovers the tools, routes the
 * first argument to `list`, `help` or a tool, binds the remaining
 * arguments into that tool, finds its settings block and runs it; the
 * tool's result is the process exit code.
 */
module Host {
  import opened Wrappers
  import opened Text
  import opened Config
  import opened Schema
  import opened Plugin
  import opened ProcessRunner
  import CommandLine
  import FFMpeg
  import YoutubeDL
  import Clicker
  import ImageOnTop

  // ---------------------------------------------------------------------
  // IndentLines
  // ---------------------------------------------------------------------

  /** `IndentLines(txt, indent)`: split on newlines and join again with newline and indent. */
  function IndentLines(txt: string, indent: string): string {
    Join(Split(txt, '\n'), "\n" + indent)
  }

  /** Reference: `indent` inserted after every newline, every other character kept. */
  function Indented(txt: string, indent: string): (r: string)
    ensures |r| == |txt| + CountChar(txt, '\n') * |indent|
  {
    if txt == [] then []
    else (if txt[0] == '\n' then "\n" + indent else [txt[0]]) + Indented(txt[1..], indent)
  }

  lemma {:induction false} IndentedPlain(a: string, b: string, indent: string)
    requires '\n' !in a
    ensures Indented(a + b, indent) == a + Indented(b, indent)
  {
    if a != [] {
      assert (a + b)[0] == a[0] && (a + b)[1..] == a[1..] + b;
      IndentedPlain(a[1..], b, indent);
    } else {
      assert a + b == b;
    }
  }

  lemma SplitAtFirst(txt: string, k: nat)
    requires IndexOf(txt, '\n') == Some(k)
    ensures Split(txt, '\n') == [txt[..k]] + Split(txt[k + 1..], '\n')
  {
  }

  lemma JoinCons(head: string, rest: seq<string>, sep: string)
    requires |rest| >= 1
    ensures Join([head] + rest, sep) == head + sep + Join(rest, sep)
  {
    assert ([head] + rest)[0] == head && ([head] + rest)[1..] == rest;
  }

  lemma IndentedNewline(tail: string, indent: string)
    ensures Indented("\n" + tail, indent) == "\n" + indent + Indented(tail, indent)
  {
    assert ("\n" + tail)[0] == '\n' && ("\n" + tail)[1..] == tail;
  }

  /** `IndentLines` inserts `indent` after every newline and changes nothing else. */
  lemma {:induction false} IndentLinesSpec(txt: string, indent: string)
    ensures IndentLines(txt, indent) == Indented(txt, indent)
    decreases |txt|
  {
    match IndexOf(txt, '\n')
    case None =>
      assert Split(txt, '\n') == [txt];
      IndentedPlain(txt, [], indent);
      assert txt + [] == txt;
    case Some(k) =>
      IndentLinesStep(txt, k, indent);
      IndentedStep(txt, k, indent);
      IndentLinesSpec(txt[k + 1..], indent);
  }

  lemma IndentLinesStep(txt: string, k: nat, indent: string)
    requires IndexOf(txt, '\n') == Some(k)
    ensures IndentLines(txt, indent) == txt[..k] + ("\n" + indent) + IndentLines(txt[k + 1..], indent)
  {
    SplitAtFirst(txt, k);
    JoinCons(txt[..k], Split(txt[k + 1..], '\n'), "\n" + indent);
  }

  lemma IndentedStep(txt: string, k: nat, indent: string)
    requires IndexOf(txt, '\n') == Some(k)
    ensures Indented(txt, indent) == txt[..k] + ("\n" + indent) + Indented(txt[k + 1..], indent)
  {
    var head := txt[..k];
    var tail := txt[k + 1..];
    assert txt == head + ("\n" + tail);
    IndentedAround(head, tail, indent);
  }

  lemma IndentedAround(head: string, tail: string, indent: string)
    requires '\n' !in head
    ensures Indented(head + ("\n" + tail), indent) == head + ("\n" + indent) + Indented(tail, indent)
  {
    IndentedPlain(head, "\n" + tail, indent);
    IndentedNewline(tail, indent);
  }

  // ---------------------------------------------------------------------
  // Discovery and routing
  // ---------------------------------------------------------------------

  function InfoOf(t: Tool): (info: PluginInfo)
    ensures info.tool == t
  {
    match t
    case FFMpegTool => FFMpeg.Info
    case YoutubeDLTool => YoutubeDL.Info
    case ClickerTool => Clicker.Info
    case ImageOnTopTool => ImageOnTop.Info
  }

  function DefaultsOf(t: Tool): map<string, SlotValue> {
    match t
    case FFMpegTool => FFMpeg.Defaults
    case YoutubeDLTool => YoutubeDL.Defaults
    case ClickerTool => Clicker.Defaults
    case ImageOnTopTool => ImageOnTop.Defaults
  }

  /**
   * The discovery loop: one fresh instance per plugin type, in the order
   * the assembly lists the types (`order`).
   */
  method LoadPlugins(order: seq<Tool>) returns (plugins: seq<Plugin>)
    ensures |plugins| == |order|
    ensures forall i :: 0 <= i < |order| ==>
              fresh(plugins[i]) && plugins[i].info == InfoOf(order[i])
              && plugins[i].slots == DefaultsOf(order[i]) && plugins[i].calls == []
    ensures forall i, j :: 0 <= i < j < |plugins| ==> plugins[i] != plugins[j]
  {
    plugins := [];
    for i := 0 to |order|
      invariant |plugins| == i
      invariant forall k :: 0 <= k < i ==>
                  fresh(plugins[k]) && plugins[k].info == InfoOf(order[k])
                  && plugins[k].slots == DefaultsOf(order[k]) && plugins[k].calls == []
      invariant forall k, j :: 0 <= k < j < i ==> plugins[k] != plugins[j]
    {
      var p: Plugin;
      match order[i] {
        case FFMpegTool => p := FFMpeg.New();
        case YoutubeDLTool => p := YoutubeDL.New();
        case ClickerTool => p := Clicker.New();
        case ImageOnTopTool => p := ImageOnTop.New();
      }
      plugins := plugins + [p];
    }
  }

  /** `plugins.FirstOrDefault(x => x.CommandletMatch(cmd))`, as an index. */
  function FirstMatch(plugins: seq<Plugin>, cmd: string): (r: Option<nat>)
    ensures r.Some? ==> r.value < |plugins| && plugins[r.value].CommandletMatch(cmd)
    ensures r.Some? ==> forall j :: 0 <= j < r.value ==> !plugins[j].CommandletMatch(cmd)
    ensures r.None? ==> forall j :: 0 <= j < |plugins| ==> !plugins[j].CommandletMatch(cmd)
  {
    if plugins == [] then None
    else if plugins[0].CommandletMatch(cmd) then Some(0)
    else match FirstMatch(plugins[1..], cmd)
      case None => None
      case Some(k) =>
        assert forall j :: 1 <= j <= k ==> plugins[j] == plugins[1..][j - 1];
        Some(k + 1)
  }

  /** Where `Main` goes with its arguments. */
  datatype Route =
    | HostHelp                     // no arguments, or `help` alone
    | ToolList                     // `list`
    | ToolHelp(index: nat)         // `help <cmd>` for a known tool
    | UnknownHelp(cmd: string)     // `help <cmd>` for an unknown tool
    | UnknownCommand(cmd: string)  // a command no tool answers
    | Execute(index: nat, rest: seq<string>)

  function RouteOf(args: seq<string>, plugins: seq<Plugin>): (r: Route)
    ensures r.ToolHelp? ==> r.index < |plugins|
    ensures r.Execute? ==> r.index < |plugins| && |args| > 0 && r.rest == args[1..]
                           && plugins[r.index].CommandletMatch(args[0])
  {
    if args == [] then HostHelp
    else
      var cmd := args[0];
      var rest := args[1..];
      if cmd == "list" then ToolList
      else if cmd == "help" || cmd == "?" then
        if rest == [] then HostHelp
        else match FirstMatch(plugins, rest[0])
          case None => UnknownHelp(rest[0])
          case Some(i) => ToolHelp(i)
      else match FirstMatch(plugins, cmd)
        case None => UnknownCommand(cmd)
        case Some(i) => Execute(i, rest)
  }

  /** The exit code of every route that runs no tool: 1 only for help on an unknown tool. */
  function RouteExitCode(route: Route): (code: int)
    requires !route.Execute?
    ensures code == 1 <==> route.UnknownHelp?
    ensures code == 0 <==> !route.UnknownHelp?
  {
    if route.UnknownHelp? then 1 else 0
  }

  // ---------------------------------------------------------------------
  // Settings fallback and running the tool
  // ---------------------------------------------------------------------

  /**
   * The block a tool runs with: the one `--config` chose, else the block
   * named after the command in the default settings file, else an empty
   * block of that name. Reading the default file can fail.
   */
  function EffectiveConfig(inline: Option<ConfigBlock>, fs: FileSystem, defaultPath: string, command: string)
    : Result<ConfigBlock, ConfigError>
  {
    match inline
    case Some(b) => Ok(b)
    case None =>
      var cfg :- ReadConfig(fs, defaultPath);
      match cfg.TryGetValue(command)
      case Some(b) => Ok(b)
      case None => Ok(MakeBlock(command, map[]))
  }

  /** What leaves `Main` as an exception. */
  datatype HostError =
    | ParseFailed(parseError: CommandLine.ParseError)
    | ConfigFailure(configError: ConfigError)
    | DelayFailed(delayError: Clicker.DelayError)

  function Lift(r: Result<int, ConfigError>): (h: Result<int, HostError>)
    ensures h.Ok? <==> r.Ok?
  {
    match r
    case Ok(code) => Ok(code)
    case Err(e) => Err(ConfigFailure(e))
  }

  /** The tool's `Run` carried out on `config`, between host states `before` and `after`. */
  ghost predicate Ran(p: Plugin, config: ConfigBlock, r: Result<int, HostError>,
                before: seq<Launch>, after: seq<Launch>, exitCodes: nat -> int)
    reads p
  {
    match p.info.tool
    case FFMpegTool =>
      exists r0 :: r == Lift(r0)
        && FFMpeg.Performed(FFMpeg.RunPlan(FFMpeg.OptionsOf(p), config, AsWritten), r0, before, after, exitCodes)
    case YoutubeDLTool =>
      exists r0 :: r == Lift(r0)
        && YoutubeDL.Performed(YoutubeDL.RunPlan(p.BoolSlot("OnlyAudio"), p.ListSlot("Urls"), config, AsWritten),
                               r0, before, after)
    case ClickerTool =>
      after == before
      && r == (match Clicker.Run(p) case Ok(code) => Ok(code) case Err(e) => Err(DelayFailed(e)))
    case ImageOnTopTool =>
      exists r0 :: r == Lift(r0)
        && ImageOnTop.Performed(ImageOnTop.RunPlan(p.ListSlot("Image"), config, AsWritten), r0, before, after)
  }

  /** `plugin.Run(cfg)`, dispatched on the tool. */
  method RunTool(p: Plugin, config: ConfigBlock, host: ProcessHost) returns (r: Result<int, HostError>)
    modifies host
    ensures Ran(p, config, r, old(host.launched), host.launched, host.exitCodes)
  {
    match p.info.tool {
      case FFMpegTool =>
        var r0 := FFMpeg.Run(p, config, host);
        r := Lift(r0);
      case YoutubeDLTool =>
        var r0 := YoutubeDL.Run(p, config, host);
        r := Lift(r0);
      case ClickerTool =>
        r := match Clicker.Run(p) case Ok(code) => Ok(code) case Err(e) => Err(DelayFailed(e));
      case ImageOnTopTool =>
        var r0 := ImageOnTop.Run(p, config, host);
        r := Lift(r0);
    }
  }

  /**
   * The tool selected by the command: arguments bound from the state
   * `Target(slots0, calls0)`, settings found, tool run.
   */
  ghost predicate Executed(p: Plugin, rest: seq<string>, fs: FileSystem, defaultPath: string,
                           slots0: map<string, SlotValue>, calls0: seq<Call>,
                           r: Result<int, HostError>, before: seq<Launch>, after: seq<Launch>, exitCodes: nat -> int)
    reads p
  {
    var o := CommandLine.ParseSpec(rest, p.info.declarations, p.info.command, CommandLine.Target(slots0, calls0), fs);
    && p.slots == o.target.slots && p.calls == o.target.calls
    && (o.result.Err? ==> r == Err(ParseFailed(o.result.error)) && after == before)
    && (o.result.Ok? ==>
          match EffectiveConfig(o.result.value, fs, defaultPath, p.info.command)
          case Err(e) => r == Err(ConfigFailure(e)) && after == before
          case Ok(cfg) => Ran(p, cfg, r, before, after, exitCodes))
  }

  /** The end of `Main`: bind the arguments, find the settings block, run the tool. */
  method RunCommand(plugin: Plugin, rest: seq<string>, fs: FileSystem, defaultPath: string, host: ProcessHost)
    returns (r: Result<int, HostError>)
    modifies plugin, host
    ensures Executed(plugin, rest, fs, defaultPath, old(plugin.slots), old(plugin.calls),
                     r, old(host.launched), host.launched, host.exitCodes)
  {
    var parsed := CommandLine.Parse(rest, plugin, fs);
    if parsed.Err? {
      return Err(ParseFailed(parsed.error));
    }
    var cfg := parsed.value;
    if cfg.None? {
      var loaded := Load(fs, defaultPath);
      if loaded.Err? {
        return Err(ConfigFailure(loaded.error));
      }
      cfg := loaded.value.TryGetValue(plugin.info.command);
    }
    var block := if cfg.Some? then cfg.value else MakeBlock(plugin.info.command, map[]);
    assert EffectiveConfig(parsed.value, fs, defaultPath, plugin.info.command) == Ok(block);
    r := RunTool(plugin, block, host);
  }

  /**
   * `Main(args)` of Program.cs, with the discovered `plugins`, the files `fs`, the default
   * settings file's path, and the host that starts child processes.
   */
  method Dispatch(args: seq<string>, plugins: seq<Plugin>, fs: FileSystem, defaultPath: string, host: ProcessHost)
    returns (r: Result<int, HostError>)
    modifies (set p | p in plugins), host
    ensures var route := RouteOf(args, plugins);
            !route.Execute? ==>
              r == Ok(RouteExitCode(route)) && host.launched == old(host.launched)
              && forall q :: q in plugins ==> q.slots == old(q.slots) && q.calls == old(q.calls)
    ensures var route := RouteOf(args, plugins);
            route.Execute? ==>
              var p := plugins[route.index];
              && Executed(p, route.rest, fs, defaultPath, old(p.slots), old(p.calls),
                          r, old(host.launched), host.launched, host.exitCodes)
              && forall q :: q in plugins && q != p ==> q.slots == old(q.slots) && q.calls == old(q.calls)
  {
    if |args| == 0 {
      return Ok(0);
    }
    var cmd := args[0];
    var rest := args[1..];
    if cmd == "list" {
      return Ok(0);
    }
    if cmd == "help" || cmd == "?" {
      if |rest| > 0 {
        var pl := FirstMatch(plugins, rest[0]);
        if pl.None? {
          return Ok(1);
        }
      }
      return Ok(0);
    }
    var found := FirstMatch(plugins, cmd);
    if found.None? {
      return Ok(0);
    }
    r := RunCommand(plugins[found.value], rest, fs, defaultPath, host);
  }

  // ---------------------------------------------------------------------
  // Properties
  // ---------------------------------------------------------------------

  /** The words that select a tool: its command, then its aliases. */
  function Words(t: Tool): seq<string> {
    [InfoOf(t).command] + InfoOf(t).aliases
  }

  /** The words of each tool, written out. */
  function WordList(t: Tool): seq<string> {
    match t
    case FFMpegTool => ["ffmpeg", "ff"]
    case YoutubeDLTool => ["youtube-dl", "yt", "ytdl", "yt-dl", "youtube", "youtubedl"]
    case ClickerTool => ["clicker"]
    case ImageOnTopTool => ["imageontop", "iot"]
  }

  lemma WordsWrittenOut(t: Tool)
    ensures Words(t) == WordList(t)
  {
  }

  /** Every tool writes its command and aliases in canonical form. */
  lemma WordsCanonical(t: Tool)
    ensures CanonicalName(InfoOf(t).command)
    ensures forall i :: 0 <= i < |InfoOf(t).aliases| ==> CanonicalName(InfoOf(t).aliases[i])
  {
    WordsWrittenOut(t);
    var ws := WordList(t);
    forall i | 0 <= i < |ws|
      ensures CanonicalName(ws[i])
    {
      WordCanonical(t, i);
    }
    assert forall i :: 0 <= i < |InfoOf(t).aliases| ==> InfoOf(t).aliases[i] == ws[i + 1];
  }

  lemma WordCanonical(t: Tool, i: nat)
    requires i < |WordList(t)|
    ensures CanonicalName(WordList(t)[i])
  {
    var w := WordList(t)[i];
    assert forall j :: 0 <= j < |w| ==> w[j] == '-' || ('a' <= w[j] <= 'z');
  }

  /** A word selects one of the four tools exactly when its lower-case form is one of the tool's words. */
  lemma Matching(p: Plugin, cmd: string)
    requires p.info == InfoOf(p.info.tool)
    ensures p.CommandletMatch(cmd) <==> Lower(cmd) in Words(p.info.tool)
  {
    WordsCanonical(p.info.tool);
    CanonicalMatch(p, cmd);
  }

  /** No word belongs to two tools. */
  lemma WordsDisjoint(t1: Tool, t2: Tool, w: string)
    requires t1 != t2
    ensures !(w in Words(t1) && w in Words(t2))
  {
    WordsWrittenOut(t1);
    WordsWrittenOut(t2);
    if w in WordList(t1) && w in WordList(t2) {
      var i :| 0 <= i < |WordList(t1)| && WordList(t1)[i] == w;
      var j :| 0 <= j < |WordList(t2)| && WordList(t2)[j] == w;
      WordsDiffer(t1, i, t2, j);
    }
  }

  /** Two words of different tools differ in length or in their first or last letter. */
  lemma WordsDiffer(t1: Tool, i: nat, t2: Tool, j: nat)
    requires t1 != t2 && i < |WordList(t1)| && j < |WordList(t2)|
    ensures WordList(t1)[i] != WordList(t2)[j]
  {
    var a, b := WordList(t1)[i], WordList(t2)[j];
    if |a| == |b| {
      assert a[0] != b[0] || a[|a| - 1] != b[|b| - 1];
    }
  }

  /** No word selects two different tools. */
  lemma MatchesDisjoint(p: Plugin, q: Plugin, cmd: string)
    requires p.info == InfoOf(p.info.tool) && q.info == InfoOf(q.info.tool)
    requires p.info.tool != q.info.tool
    ensures !(p.CommandletMatch(cmd) && q.CommandletMatch(cmd))
  {
    Matching(p, cmd);
    Matching(q, cmd);
    WordsDisjoint(p.info.tool, q.info.tool, Lower(cmd));
  }

  /** When no two plugins answer the same word, the one that answers it is the one picked. */
  lemma FirstMatchUnique(plugins: seq<Plugin>, cmd: string, i: nat)
    requires forall k, j :: 0 <= k < j < |plugins| && plugins[k].CommandletMatch(cmd) ==> !plugins[j].CommandletMatch(cmd)
    requires i < |plugins| && plugins[i].CommandletMatch(cmd)
    ensures FirstMatch(plugins, cmd) == Some(i)
  {
  }

  /**
   * Discovery order does not matter: among distinct tools, whichever
   * plugin matches a word is the one the host picks.
   */
  lemma RoutingIgnoresOrder(plugins: seq<Plugin>, cmd: string, i: nat)
    requires forall k :: 0 <= k < |plugins| ==> plugins[k].info == InfoOf(plugins[k].info.tool)
    requires forall k, j :: 0 <= k < j < |plugins| ==> plugins[k].info.tool != plugins[j].info.tool
    requires i < |plugins| && plugins[i].CommandletMatch(cmd)
    ensures FirstMatch(plugins, cmd) == Some(i)
  {
    forall k, j | 0 <= k < j < |plugins| && plugins[k].CommandletMatch(cmd)
      ensures !plugins[j].CommandletMatch(cmd)
    {
      MatchesDisjoint(plugins[k], plugins[j], cmd);
    }
    FirstMatchUnique(plugins, cmd, i);
  }

  /** The settings are taken from the first source that has them. */
  lemma ConfigFallbackOrder(inline: Option<ConfigBlock>, fs: FileSystem, defaultPath: string, command: string)
    ensures inline.Some? ==> EffectiveConfig(inline, fs, defaultPath, command) == Ok(inline.value)
    ensures inline.None? && defaultPath != "" && defaultPath !in fs ==>
              EffectiveConfig(inline, fs, defaultPath, command) == Err(FileNotFound(defaultPath))
    ensures inline.None? && ReadConfig(fs, defaultPath).Ok? ==>
              var c := ReadConfig(fs, defaultPath).value;
              EffectiveConfig(inline, fs, defaultPath, command)
              == Ok(if command in c.blocks then c.blocks[command] else MakeBlock(command, map[]))
  {
  }

  /**
   * Without `--config` and without the default settings file, a tool that
   * parsed its arguments never runs: the host throws first, even for a
   * tool that reads no settings.
   */
  lemma MissingDefaultFileStops(args: seq<string>, plugins: seq<Plugin>, fs: FileSystem, defaultPath: string, t0: CommandLine.Target)
    requires RouteOf(args, plugins).Execute?
    requires defaultPath != "" && defaultPath !in fs
    ensures var route := RouteOf(args, plugins);
            var p := plugins[route.index];
            var o := CommandLine.ParseSpec(route.rest, p.info.declarations, p.info.command, t0, fs);
            o.result == Ok(None) ==>
              EffectiveConfig(o.result.value, fs, defaultPath, p.info.command) == Err(FileNotFound(defaultPath))
  {
  }

  /**
   * `list`, `help` and `?` are keywords only as written: another spelling
   * of `list` or `help` (`LIST`, `Help`) is an unknown command for the four
   * tools, answered with exit code 0.
   */
  lemma KeywordsCaseSensitive(plugins: seq<Plugin>, w: string, rest: seq<string>)
    requires forall k :: 0 <= k < |plugins| ==> plugins[k].info == InfoOf(plugins[k].info.tool)
    requires (Lower(w) == "list" || Lower(w) == "help") && w != "list" && w != "help"
    ensures RouteOf([w] + rest, plugins) == UnknownCommand(w)
  {
    forall k | 0 <= k < |plugins|
      ensures !plugins[k].CommandletMatch(w)
    {
      Matching(plugins[k], w);
      KeywordNotAWord(plugins[k].info.tool, Lower(w));
    }
    assert w != "?" by {
      assert |w| == |Lower(w)| >= 4;
    }
    assert ([w] + rest)[0] == w && ([w] + rest)[1..] == rest;
  }

  lemma KeywordNotAWord(t: Tool, l: string)
    requires l == "list" || l == "help"
    ensures l !in Words(t)
  {
    WordsWrittenOut(t);
  }
}

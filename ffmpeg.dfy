/**
 * The `ffmpeg` tool (Main/Plugins/FFMpeg.cs): its option table, the checks
 * that refuse a run, the output path, and the argument vector handed to
 * ffmpeg (transcode) or ffprobe (inspect).
 */
module FFMpeg {
  import opened Wrappers
  import opened Text
  import opened Schema
  import opened Config
  import opened Plugin
  import opened ProcessRunner
  import CommandLine

  // ---------------------------------------------------------------------
  // The plugin's description
  // ---------------------------------------------------------------------

  const FormatOption := OptionAttribute(false, "format", 'f', "Resulting format (extension) with or without a leading period.\nIgnored if \"--output\" is specified (default: .mp4)")
  const FilterOption := OptionAttribute(false, "filter", 'f', "Filter string.")
  const FormatMember := Property("Format", StringType, true)
  const FilterMember := Property("Filter", StringType, true)

  /** The option properties in declaration order; `Format` and `Filter` both claim `f`. */
  const Declarations: seq<Declaration> := [
    Declaration(FormatMember, Some(FormatOption), None),
    Declaration(Property("Output", StringType, true), Some(OptionAttribute(false, "output", 'o', "Output filepath.")), None),
    Declaration(Property("Input", StringArrayType, true), None, Some(RestOptionAttribute("input", "Input filepath."))),
    Declaration(Property("Bitrate", StringType, true), Some(OptionAttribute(false, "bitrate", 'b', "Target video bitrate.")), None),
    Declaration(FilterMember, Some(FilterOption), None),
    Declaration(Property("Scale", StringType, true), Some(OptionAttribute(false, "scale", 's', "Target scale string.\nIgnored if \"--filter\" is specified.")), None),
    Declaration(Property("Inspect", BoolType, true), Some(OptionAttribute(false, "inspect", 'i', "Inspect input file.\nAll other options are ignored.")), None)
  ]

  const Info := PluginInfo("ffmpeg", ["ff"], "FFMpeg", "FFMpeg short commands", Declarations, FFMpegTool)

  /** The property initialisers. */
  const Defaults: map<string, SlotValue> := map[
    "Format" := Str(".mp4"), "Output" := Str(""), "Input" := StrList([]), "Bitrate" := Str(""),
    "Filter" := Str(""), "Scale" := Str(""), "Inspect" := Bool(false)]

  method New() returns (p: Plugin)
    ensures fresh(p) && p.info == Info && p.slots == Defaults && p.calls == []
  {
    p := new Plugin(Info, Defaults);
  }

  /** The option values a run reads. */
  datatype Options = Options(format: string, output: string, input: seq<string>, bitrate: string,
                             filter: string, scale: string, inspect: bool)

  function OptionsOf(p: Plugin): Options
    reads p
  {
    Options(p.StrSlot("Format"), p.StrSlot("Output"), p.ListSlot("Input"), p.StrSlot("Bitrate"),
            p.StrSlot("Filter"), p.StrSlot("Scale"), p.BoolSlot("Inspect"))
  }

  // ---------------------------------------------------------------------
  // Path.ChangeExtension
  // ---------------------------------------------------------------------

  predicate IsDirectorySeparator(c: char) {
    c == '\\' || c == '/'
  }

  /** The position of the extension's period: the last `.` after the last separator. */
  function ExtensionDot(path: string): (r: Option<nat>)
    ensures r.Some? ==> r.value < |path| && path[r.value] == '.'
    ensures r.Some? ==> forall j :: r.value < j < |path| ==> path[j] != '.' && !IsDirectorySeparator(path[j])
    decreases |path|
  {
    if path == [] then None
    else if path[|path| - 1] == '.' then Some(|path| - 1)
    else if IsDirectorySeparator(path[|path| - 1]) then None
    else ExtensionDot(path[..|path| - 1])
  }

  /** The path without its extension. */
  function Stem(path: string): (r: string)
    ensures |r| <= |path| && r == path[..|r|]
  {
    match ExtensionDot(path)
    case Some(i) => path[..i]
    case None => path
  }

  /** An extension as it is appended: a missing leading period is supplied. */
  function Dotted(extension: string): (r: string)
    ensures |r| > 0 && r[0] == '.'
  {
    if |extension| > 0 && extension[0] == '.' then extension else "." + extension
  }

  /** `Path.ChangeExtension(path, extension)` for a non-null extension. */
  function ChangeExtension(path: string, extension: string): string {
    if path == [] then [] else Stem(path) + Dotted(extension)
  }

  /** An extension with no further period and no separator after its leading one. */
  predicate SimpleExtension(extension: string) {
    var e := Dotted(extension);
    forall j :: 1 <= j < |e| ==> e[j] != '.' && !IsDirectorySeparator(e[j])
  }

  /** In `stem + e`, the period found is the one `e` starts with. */
  lemma {:induction false} ExtensionDotAppend(stem: string, e: string)
    requires |e| > 0 && e[0] == '.'
    requires forall j :: 1 <= j < |e| ==> e[j] != '.' && !IsDirectorySeparator(e[j])
    ensures ExtensionDot(stem + e) == Some(|stem|)
    decreases |e|
  {
    var s := stem + e;
    if |e| == 1 {
      assert s[|s| - 1] == '.';
    } else {
      assert s[|s| - 1] == e[|e| - 1];
      assert s[..|s| - 1] == stem + e[..|e| - 1];
      ExtensionDotAppend(stem, e[..|e| - 1]);
    }
  }

  /**
   * The changed path ends in the dotted extension after the old stem, and
   * changing it again to the same simple extension changes nothing.
   */
  lemma ChangeExtensionSpec(path: string, extension: string)
    requires path != [] && SimpleExtension(extension)
    ensures var r := ChangeExtension(path, extension);
            r == Stem(path) + Dotted(extension)
            && Stem(r) == Stem(path)
            && ChangeExtension(r, extension) == r
  {
    ExtensionDotAppend(Stem(path), Dotted(extension));
  }

  // ---------------------------------------------------------------------
  // What a run does
  // ---------------------------------------------------------------------

  const DefaultPath := "ffmpeg.exe"
  /** `-hide_banner -i %input% %filter% %bitrate% -y %output%`: the words below joined by single spaces. */
  const DefaultCommandLine := Display(DefaultTokens)
  const DefaultInspectPath := "ffprobe.exe"
  /** `-hide_banner -i %input%`. */
  const DefaultInspectCommandLine := Display(DefaultInspectTokens)

  /** A run either refuses (exit code 1) or launches one child and waits for it. */
  datatype Plan = Refuse | Start(launch: Launch)

  /** The output path: `Output` when given, otherwise the input with its extension changed to `Format`. */
  function OutputPath(o: Options): string
    requires |o.input| > 0
  {
    if o.output == "" then ChangeExtension(o.input[0], o.format) else o.output
  }

  /** The pattern values a transcode registers. */
  function MpegValues(o: Options, input: string, output: string): map<string, seq<string>> {
    var filter: map<string, seq<string>> :=
      if o.filter != "" then map["filter" := ["-filter_complex", o.filter]]
      else if o.scale != "" then map["filter" := ["-vf", "scale=" + o.scale]]
      else map[];
    var bitrate := if o.bitrate != "" then filter["bitrate" := ["-b:v", o.bitrate]] else filter;
    bitrate["input" := [input]]["output" := [output]]
  }

  /** `Mpeg`: the three refusals, then the two settings and the expanded template. */
  function MpegPlan(o: Options, config: ConfigBlock, mode: Lookup): Result<Plan, ConfigError> {
    if |o.input| == 0 then Ok(Refuse)
    else if o.output == "" && o.format == "" then Ok(Refuse)
    else
      var input := o.input[0];
      var output := OutputPath(o);
      if Lower(input) == Lower(output) then Ok(Refuse)
      else
        var path :- Setting(config, "Path", DefaultPath, mode);
        var template :- Setting(config, "CommandLine", DefaultCommandLine, mode);
        Ok(Start(Launch(path, Expand(SplitArguments(template), MpegValues(o, input, output)), true)))
  }

  /** `Probe`: one refusal, then ffprobe on the first input. */
  function ProbePlan(o: Options, config: ConfigBlock, mode: Lookup): Result<Plan, ConfigError> {
    if |o.input| == 0 then Ok(Refuse)
    else
      var path :- Setting(config, "InspectPath", DefaultInspectPath, mode);
      var template :- Setting(config, "InspectCommandLine", DefaultInspectCommandLine, mode);
      Ok(Start(Launch(path, Expand(SplitArguments(template), map["input" := [o.input[0]]]), true)))
  }

  /** `Run`: inspect or transcode. */
  function RunPlan(o: Options, config: ConfigBlock, mode: Lookup): Result<Plan, ConfigError> {
    if o.inspect then ProbePlan(o, config, mode) else MpegPlan(o, config, mode)
  }

  /** The exit code of a plan carried out on a host that has launched `before` so far. */
  predicate Performed(plan: Result<Plan, ConfigError>, r: Result<int, ConfigError>,
                      before: seq<Launch>, after: seq<Launch>, exitCodes: nat -> int)
  {
    match plan
    case Err(e) => r == Err(e) && after == before
    case Ok(Refuse) => r == Ok(1) && after == before
    case Ok(Start(l)) => r == Ok(if l.wait then exitCodes(|before|) else 0) && after == before + [l]
  }

  /** The pattern values `Mpeg` registers on a new runner, in the order it registers them. */
  method RegisterMpegValues(runner: ProcessRunner, o: Options, input: string, output: string)
    requires runner.patternValues.dict == map[]
    modifies runner.patternValues
    ensures runner.patternValues.dict == MpegValues(o, input, output)
  {
    if o.filter != "" {
      runner.patternValues.Add("filter", ["-filter_complex", o.filter]);
    } else if o.scale != "" {
      runner.patternValues.Add("filter", ["-vf", "scale=" + o.scale]);
    }
    if o.bitrate != "" {
      runner.patternValues.Add("bitrate", ["-b:v", o.bitrate]);
    }
    runner.patternValues.Add("input", [input]);
    runner.patternValues.Add("output", [output]);
  }

  /** `Mpeg(config)` with a real runner. */
  method Mpeg(p: Plugin, config: ConfigBlock, host: ProcessHost) returns (r: Result<int, ConfigError>)
    modifies host
    ensures Performed(MpegPlan(OptionsOf(p), config, AsWritten), r, old(host.launched), host.launched, host.exitCodes)
  {
    var o := OptionsOf(p);
    if |o.input| == 0 {
      return Ok(1);
    }
    if o.output == "" && o.format == "" {
      return Ok(1);
    }
    var input := o.input[0];
    var output := if o.output == "" then ChangeExtension(input, o.format) else o.output;
    if Lower(input) == Lower(output) {
      return Ok(1);
    }
    var path :- config.Index("Path");
    var runner := new ProcessRunner();
    runner.filename := path.Or(DefaultPath);
    RegisterMpegValues(runner, o, input, output);
    var template :- config.Index("CommandLine");
    runner.SetArguments(template.Or(DefaultCommandLine));
    ghost var plan := MpegPlan(o, config, AsWritten);
    assert plan == Ok(Start(Launch(path.Or(DefaultPath), runner.argumentsList, true)));
    var code := runner.Run(true, host);
    return Ok(code);
  }

  /** `Probe(config)` with a real runner. */
  method Probe(p: Plugin, config: ConfigBlock, host: ProcessHost) returns (r: Result<int, ConfigError>)
    modifies host
    ensures Performed(ProbePlan(OptionsOf(p), config, AsWritten), r, old(host.launched), host.launched, host.exitCodes)
  {
    var inputs := p.ListSlot("Input");
    if |inputs| == 0 {
      return Ok(1);
    }
    var input := inputs[0];
    var path :- config.Index("InspectPath");
    var runner := new ProcessRunner();
    runner.filename := path.Or(DefaultInspectPath);
    runner.patternValues.Add("input", [input]);
    var template :- config.Index("InspectCommandLine");
    runner.SetArguments(template.Or(DefaultInspectCommandLine));
    var code := runner.Run(true, host);
    return Ok(code);
  }

  /** `Run(config)`. */
  method Run(p: Plugin, config: ConfigBlock, host: ProcessHost) returns (r: Result<int, ConfigError>)
    modifies host
    ensures Performed(RunPlan(OptionsOf(p), config, AsWritten), r, old(host.launched), host.launched, host.exitCodes)
  {
    if p.BoolSlot("Inspect") {
      r := Probe(p, config, host);
    } else {
      r := Mpeg(p, config, host);
    }
  }

  // ---------------------------------------------------------------------
  // Properties
  // ---------------------------------------------------------------------

  /** No input: both paths refuse before any setting is read. */
  lemma NoInputRefused(o: Options, config: ConfigBlock, mode: Lookup)
    requires o.input == []
    ensures RunPlan(o, config, mode) == Ok(Refuse)
  {
  }

  /** Neither an output nor a format: the transcode refuses. */
  lemma NoOutputNoFormatRefused(o: Options, config: ConfigBlock, mode: Lookup)
    requires !o.inspect && o.output == "" && o.format == ""
    ensures RunPlan(o, config, mode) == Ok(Refuse)
  {
  }

  /**
   * With no output given, an input that already carries the format's
   * extension is its own output, and the transcode refuses.
   */
  lemma SameFileRefused(o: Options, config: ConfigBlock, mode: Lookup, stem: string)
    requires !o.inspect && o.output == "" && o.format != "" && SimpleExtension(o.format)
    requires |o.input| > 0 && o.input[0] == stem + Dotted(o.format)
    ensures RunPlan(o, config, mode) == Ok(Refuse)
  {
    var input := o.input[0];
    ExtensionDotAppend(stem, Dotted(o.format));
    assert Stem(input) == stem;
    assert OutputPath(o) == input;
  }

  /** Only the first input is used; the others change nothing. */
  lemma OnlyFirstInput(o: Options, more: seq<string>, config: ConfigBlock, mode: Lookup)
    requires |o.input| > 0
    ensures RunPlan(o.(input := o.input[..1] + more), config, mode) == RunPlan(o.(input := o.input[..1]), config, mode)
  {
    var o1 := o.(input := o.input[..1] + more);
    var o2 := o.(input := o.input[..1]);
    assert o1.input[0] == o2.input[0];
    SameFirstInput(o1, o2, config, mode);
  }

  /** Two option sets that differ at most after the first input plan the same run. */
  lemma SameFirstInput(o1: Options, o2: Options, config: ConfigBlock, mode: Lookup)
    requires |o1.input| > 0 && |o2.input| > 0 && o1.input[0] == o2.input[0]
    requires o1.(input := o2.input) == o2
    ensures MpegPlan(o1, config, mode) == MpegPlan(o2, config, mode)
    ensures ProbePlan(o1, config, mode) == ProbePlan(o2, config, mode)
    ensures RunPlan(o1, config, mode) == RunPlan(o2, config, mode)
  {
    assert OutputPath(o1) == OutputPath(o2);
    assert MpegValues(o1, o1.input[0], OutputPath(o1)) == MpegValues(o2, o2.input[0], OutputPath(o2));
  }

  /** `Filter` wins over `Scale`; `Scale` is used only without a filter; `Bitrate` adds its own pair. */
  lemma FilterValues(o: Options, input: string, output: string)
    ensures var v := MpegValues(o, input, output);
            && v["input"] == [input] && v["output"] == [output]
            && (o.filter != "" ==> "filter" in v && v["filter"] == ["-filter_complex", o.filter])
            && (o.filter == "" && o.scale != "" ==> "filter" in v && v["filter"] == ["-vf", "scale=" + o.scale])
            && (o.filter == "" && o.scale == "" ==> "filter" !in v)
            && (o.bitrate != "" ==> "bitrate" in v && v["bitrate"] == ["-b:v", o.bitrate])
            && (o.bitrate == "" ==> "bitrate" !in v)
  {
  }

  const DefaultTokens: seq<string> := ["-hide_banner", "-i", "%input%", "%filter%", "%bitrate%", "-y", "%output%"]
  const DefaultInspectTokens: seq<string> := ["-hide_banner", "-i", "%input%"]

  /** The default templates split into their words. */
  lemma DefaultTemplateTokens()
    ensures SplitArguments(DefaultCommandLine) == DefaultTokens
    ensures SplitArguments(DefaultInspectCommandLine) == DefaultInspectTokens
  {
    TranscodeTemplateTokens();
    InspectTemplateTokens();
  }

  lemma TranscodeTemplateTokens()
    ensures SplitArguments(DefaultCommandLine) == DefaultTokens
  {
    forall i | 0 <= i < |DefaultTokens|
      ensures Displayable(DefaultTokens[i])
    {
      var x := DefaultTokens[i];
      assert forall j :: 0 <= j < |x| ==> x[j] == '-' || x[j] == '%' || x[j] == '_' || ('a' <= x[j] <= 'z');
    }
    DisplayRoundTrip(DefaultTokens);
  }

  lemma InspectTemplateTokens()
    ensures SplitArguments(DefaultInspectCommandLine) == DefaultInspectTokens
  {
    forall i | 0 <= i < |DefaultInspectTokens|
      ensures Displayable(DefaultInspectTokens[i])
    {
      var x := DefaultInspectTokens[i];
      assert forall j :: 0 <= j < |x| ==> x[j] == '-' || x[j] == '%' || x[j] == '_' || ('a' <= x[j] <= 'z');
    }
    DisplayRoundTrip(DefaultInspectTokens);
  }

  lemma ExpandCons(x: string, xs: seq<string>, values: map<string, seq<string>>)
    ensures Expand([x] + xs, values) == ExpandToken(x, values) + Expand(xs, values)
  {
    assert ([x] + xs)[0] == x && ([x] + xs)[1..] == xs;
  }

  /** The placeholders of the default templates name `input`, `filter`, `bitrate` and `output`. */
  lemma DefaultPlaceholders(values: map<string, seq<string>>)
    ensures ExpandToken("-hide_banner", values) == ["-hide_banner"]
    ensures ExpandToken("-i", values) == ["-i"]
    ensures ExpandToken("-y", values) == ["-y"]
    ensures ExpandToken("%input%", values) == (if "input" in values then values["input"] else [])
    ensures ExpandToken("%filter%", values) == (if "filter" in values then values["filter"] else [])
    ensures ExpandToken("%bitrate%", values) == (if "bitrate" in values then values["bitrate"] else [])
    ensures ExpandToken("%output%", values) == (if "output" in values then values["output"] else [])
  {
    PlaceholderOf("input");
    assert "%" + "input" + "%" == "%input%";
    PlaceholderOf("filter");
    assert "%" + "filter" + "%" == "%filter%";
    PlaceholderOf("bitrate");
    assert "%" + "bitrate" + "%" == "%bitrate%";
    PlaceholderOf("output");
    assert "%" + "output" + "%" == "%output%";
  }

  /** Three tokens expand one after the other. */
  lemma ExpandThree(t: seq<string>, values: map<string, seq<string>>)
    requires |t| == 3
    ensures Expand(t, values) == ExpandToken(t[0], values) + ExpandToken(t[1], values) + ExpandToken(t[2], values)
  {
    assert t == [t[0]] + t[1..];
    ExpandCons(t[0], t[1..], values);
    assert t[1..] == [t[1]] + t[2..];
    ExpandCons(t[1], t[2..], values);
    assert t[2..] == [t[2]] + [];
    ExpandCons(t[2], [], values);
  }

  /** Seven tokens, written out, expand one after the other. */
  lemma ExpandSevenTokens(a: string, b: string, c: string, d: string, e: string, f: string, g: string,
                          v: map<string, seq<string>>)
    ensures Expand([a, b, c, d, e, f, g], v)
         == ExpandToken(a, v) + (ExpandToken(b, v) + (ExpandToken(c, v) + (ExpandToken(d, v)
            + (ExpandToken(e, v) + (ExpandToken(f, v) + ExpandToken(g, v))))))
  {
    assert Expand([a, b, c, d, e, f, g], v) == ExpandToken(a, v) + Expand([b, c, d, e, f, g], v) by {
      assert [a, b, c, d, e, f, g][1..] == [b, c, d, e, f, g];
    }
    assert Expand([b, c, d, e, f, g], v) == ExpandToken(b, v) + Expand([c, d, e, f, g], v) by {
      assert [b, c, d, e, f, g][1..] == [c, d, e, f, g];
    }
    assert Expand([c, d, e, f, g], v) == ExpandToken(c, v) + Expand([d, e, f, g], v) by {
      assert [c, d, e, f, g][1..] == [d, e, f, g];
    }
    assert Expand([d, e, f, g], v) == ExpandToken(d, v) + Expand([e, f, g], v) by {
      assert [d, e, f, g][1..] == [e, f, g];
    }
    assert Expand([e, f, g], v) == ExpandToken(e, v) + Expand([f, g], v) by {
      assert [e, f, g][1..] == [f, g];
    }
    assert Expand([f, g], v) == ExpandToken(f, v) + Expand([g], v) by {
      assert [f, g][1..] == [g];
    }
    assert Expand([g], v) == ExpandToken(g, v) by {
      assert [g][1..] == [];
    }
  }

  /** What the default transcode template expands to: the registered pairs in template order. */
  lemma DefaultExpansion(values: map<string, seq<string>>)
    requires "input" in values && "output" in values
    ensures Expand(DefaultTokens, values)
         == ["-hide_banner"] + (["-i"] + (values["input"]
            + ((if "filter" in values then values["filter"] else [])
            + ((if "bitrate" in values then values["bitrate"] else [])
            + (["-y"] + values["output"])))))
  {
    ExpandSevenTokens("-hide_banner", "-i", "%input%", "%filter%", "%bitrate%", "-y", "%output%", values);
    DefaultPlaceholders(values);
  }

  /** The default transcode template against registered `input` and `output`. */
  lemma DefaultArgv(values: map<string, seq<string>>)
    requires "input" in values && "output" in values
    ensures Expand(SplitArguments(DefaultCommandLine), values)
         == ["-hide_banner"] + (["-i"] + (values["input"]
            + ((if "filter" in values then values["filter"] else [])
            + ((if "bitrate" in values then values["bitrate"] else [])
            + (["-y"] + values["output"])))))
  {
    DefaultTemplateTokens();
    DefaultExpansion(values);
  }

  /** A transcode that passes the checks and reads both settings launches the expanded template. */
  lemma MpegStarts(o: Options, config: ConfigBlock, mode: Lookup, path: string, template: string)
    requires !o.inspect && |o.input| > 0 && (o.output != "" || o.format != "")
    requires Lower(o.input[0]) != Lower(OutputPath(o))
    requires Setting(config, "Path", DefaultPath, mode) == Ok(path)
    requires Setting(config, "CommandLine", DefaultCommandLine, mode) == Ok(template)
    ensures RunPlan(o, config, mode)
         == Ok(Start(Launch(path, Expand(SplitArguments(template), MpegValues(o, o.input[0], OutputPath(o))), true)))
  {
  }

  /**
   * The intended reading of an empty settings block: with no filter, scale
   * or bitrate, ffmpeg.exe is launched with exactly
   * `-hide_banner -i <input> -y <output>`.
   */
  lemma DefaultTranscode(o: Options, name: string)
    requires !o.inspect && |o.input| > 0 && (o.output != "" || o.format != "")
    requires Lower(o.input[0]) != Lower(OutputPath(o))
    requires o.filter == "" && o.scale == "" && o.bitrate == ""
    ensures RunPlan(o, MakeBlock(name, map[]), Intended)
         == Ok(Start(Launch(DefaultPath, ["-hide_banner", "-i", o.input[0], "-y", OutputPath(o)], true)))
  {
    var values := MpegValues(o, o.input[0], OutputPath(o));
    EmptyBlockSettings(name, "Path", DefaultPath);
    EmptyBlockSettings(name, "CommandLine", DefaultCommandLine);
    MpegStarts(o, MakeBlock(name, map[]), Intended, DefaultPath, DefaultCommandLine);
    FilterValues(o, o.input[0], OutputPath(o));
    DefaultArgv(values);
    assert "filter" !in values && "bitrate" !in values;
    var argv := Expand(SplitArguments(DefaultCommandLine), values);
    assert argv == ["-hide_banner"] + (["-i"] + ([o.input[0]] + ([] + ([] + (["-y"] + [OutputPath(o)])))));
    FivePieces(o.input[0], OutputPath(o));
  }

  lemma FivePieces(input: string, output: string)
    ensures ["-hide_banner"] + (["-i"] + ([input] + ([] + ([] + (["-y"] + [output])))))
         == ["-hide_banner", "-i", input, "-y", output]
  {
  }

  lemma SevenPieces(input: string, filter: string, bitrate: string, output: string)
    ensures ["-hide_banner"] + (["-i"] + ([input] + (["-filter_complex", filter] + (["-b:v", bitrate] + (["-y"] + [output])))))
         == ["-hide_banner", "-i", input, "-filter_complex", filter, "-b:v", bitrate, "-y", output]
  {
  }

  /** A filter and a bitrate put their pairs in place of their placeholders. */
  lemma FilteredTranscode(o: Options, name: string)
    requires !o.inspect && |o.input| > 0 && (o.output != "" || o.format != "")
    requires Lower(o.input[0]) != Lower(OutputPath(o))
    requires o.filter != "" && o.bitrate != ""
    ensures RunPlan(o, MakeBlock(name, map[]), Intended)
         == Ok(Start(Launch(DefaultPath, ["-hide_banner", "-i", o.input[0], "-filter_complex", o.filter,
                                          "-b:v", o.bitrate, "-y", OutputPath(o)], true)))
  {
    var values := MpegValues(o, o.input[0], OutputPath(o));
    EmptyBlockSettings(name, "Path", DefaultPath);
    EmptyBlockSettings(name, "CommandLine", DefaultCommandLine);
    MpegStarts(o, MakeBlock(name, map[]), Intended, DefaultPath, DefaultCommandLine);
    FilterValues(o, o.input[0], OutputPath(o));
    assert values["filter"] == ["-filter_complex", o.filter] && values["bitrate"] == ["-b:v", o.bitrate];
    DefaultArgv(values);
    var argv := Expand(SplitArguments(DefaultCommandLine), values);
    assert argv == ["-hide_banner"] + (["-i"] + ([o.input[0]] + (["-filter_complex", o.filter] + (["-b:v", o.bitrate]
           + (["-y"] + [OutputPath(o)])))));
    SevenPieces(o.input[0], o.filter, o.bitrate, OutputPath(o));
  }

  /**
   * As written, the empty block the host falls back to makes every run that
   * passes the checks throw on its first setting.
   */
  lemma EmptyBlockThrows(o: Options, name: string)
    requires RunPlan(o, MakeBlock(name, map[]), AsWritten) != Ok(Refuse)
    ensures RunPlan(o, MakeBlock(name, map[]), AsWritten)
         == Err(KeyNotFound(if o.inspect then "InspectPath" else "Path"))
  {
    EmptyBlockSettings(name, "Path", DefaultPath);
    EmptyBlockSettings(name, "InspectPath", DefaultInspectPath);
  }

  /** The default inspect template against a registered `input`. */
  lemma DefaultInspectArgv(input: string)
    ensures Expand(SplitArguments(DefaultInspectCommandLine), map["input" := [input]]) == ["-hide_banner", "-i", input]
  {
    DefaultTemplateTokens();
    var values := map["input" := [input]];
    assert Expand(DefaultInspectTokens, values)
        == ExpandToken("-hide_banner", values) + ExpandToken("-i", values) + ExpandToken("%input%", values) by {
      ExpandThree(DefaultInspectTokens, values);
    }
    DefaultPlaceholders(values);
    assert ExpandToken("%input%", values) == [input];
  }

  /** Inspecting runs ffprobe on the first input with the default inspect template. */
  lemma DefaultProbe(o: Options, name: string)
    requires o.inspect && |o.input| > 0
    ensures RunPlan(o, MakeBlock(name, map[]), Intended)
         == Ok(Start(Launch(DefaultInspectPath, ["-hide_banner", "-i", o.input[0]], true)))
  {
    EmptyBlockSettings(name, "InspectPath", DefaultInspectPath);
    EmptyBlockSettings(name, "InspectCommandLine", DefaultInspectCommandLine);
    DefaultInspectArgv(o.input[0]);
  }

  /** The command and its alias, in any letter case, select this plugin. */
  lemma Matching(p: Plugin, cmd: string)
    requires p.info == Info
    ensures p.CommandletMatch(cmd) <==> Lower(cmd) == "ffmpeg" || Lower(cmd) == "ff"
  {
    assert CanonicalName("ffmpeg");
    assert CanonicalName(Info.aliases[0]);
    CanonicalMatch(p, cmd);
  }

  /** `FFMPEG` and `ff` both select it. */
  lemma MatchingExamples(p: Plugin)
    requires p.info == Info
    ensures p.CommandletMatch("FFMPEG") && p.CommandletMatch("ff")
  {
    var upper := Lower("FFMPEG");
    assert upper[0] == 'f' && upper[1] == 'f' && upper[2] == 'm' && upper[3] == 'p' && upper[4] == 'e' && upper[5] == 'g';
    assert upper == "ffmpeg";
    var lower := Lower("ff");
    assert lower[0] == 'f' && lower[1] == 'f';
    assert lower == "ff";
    Matching(p, "FFMPEG");
    Matching(p, "ff");
  }

  /** The declarations pass the binder's checks. */
  lemma DeclarationsValid()
    ensures CommandLine.GetHandlers(Declarations).Ok?
  {
    CommandLine.GetHandlersSpec(Declarations);
    assert forall i :: 0 <= i < |Declarations| ==> CommandLine.ValidDeclaration(Declarations[i]);
  }

  /**
   * `Format` and `Filter` both declare `f`; the first handler wins, so
   * `-f=x` sets `Format` and `Filter` is reachable only as `--filter`.
   */
  lemma ShortFSetsFormat(b: CommandLine.Binding, x: string, command: string, fs: FileSystem)
    requires '\n' !in x && !CommandLine.IsQuoted(x)
    ensures CommandLine.GetHandlers(Declarations).Ok?
    ensures var handlers := CommandLine.GetHandlers(Declarations).value.handlers;
            CommandLine.Step(b, "-f=" + x, handlers, command, fs)
            == Ok(b.(target := b.target.(slots := b.target.slots["Format" := Str(x)])))
  {
    DeclarationsValid();
    CommandLine.GetHandlersSpec(Declarations);
    assert Declarations == [Declarations[0]] + Declarations[1..];
    CommandLine.OptionHandlersCons(Declarations[0], Declarations[1..]);
    var h0 := CommandLine.OptionHandler(FormatOption, FormatMember);
    var handlers := CommandLine.GetHandlers(Declarations).value.handlers;
    assert handlers[0] == h0;
    assert CommandLine.FindShort(handlers, 'f') == Some(h0);
    assert IsWordChar('f');
    CommandLine.ShortRawValue('f', x);
    assert ['-', 'f', '='] + x == "-f=" + x;
    CommandLine.ShortHeadEmpty("-f=" + x);
  }
}

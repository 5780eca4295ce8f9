/**
 * The `youtube-dl` tool (Main/Plugins/YoutubeDL.cs): one youtube-dl child
 * per address, in order, each with the template expanded for that address.
 */
module YoutubeDL {
  import opened Wrappers
  import opened Text
  import opened Schema
  import opened Config
  import opened Plugin
  import opened ProcessRunner

  const OnlyAudioMember := Property("OnlyAudio", BoolType, true)
  const UrlsMember := Property("Urls", StringArrayType, true)

  const Declarations: seq<Declaration> := [
    Declaration(OnlyAudioMember, Some(OptionAttribute(false, "only-audio", 'a', "download only audio")), None),
    Declaration(UrlsMember, None, Some(RestOptionAttribute("urls", "list of YouTube URL's")))
  ]

  const Aliases: seq<string> := ["yt", "ytdl", "yt-dl", "youtube", "youtubedl"]

  const Info := PluginInfo("youtube-dl", Aliases, "Youtube-DL", "Download media from YouTube", Declarations, YoutubeDLTool)

  const Defaults: map<string, SlotValue> := map["OnlyAudio" := Bool(false), "Urls" := StrList([])]

  method New() returns (p: Plugin)
    ensures fresh(p) && p.info == Info && p.slots == Defaults && p.calls == []
  {
    p := new Plugin(Info, Defaults);
  }

  const DefaultPath := "youtube-dl.exe"
  const DefaultTokens: seq<string> := ["%only-audio%", "%input%"]
  /** `%only-audio% %input%`. */
  const DefaultCommandLine := Display(DefaultTokens)

  /** The pattern values registered before the loop. */
  function BaseValues(onlyAudio: bool): map<string, seq<string>> {
    if onlyAudio then map["only-audio" := ["--extract-audio"]] else map[]
  }

  /** The values in force for one address: `input` replaced by that address alone. */
  function UrlValues(onlyAudio: bool, url: string): map<string, seq<string>> {
    BaseValues(onlyAudio)["input" := [url]]
  }

  /** One waited launch per address, in order. */
  function UrlLaunches(path: string, template: string, onlyAudio: bool, urls: seq<string>): (ls: seq<Launch>)
    ensures |ls| == |urls|
    ensures forall i :: 0 <= i < |urls| ==>
              ls[i] == Launch(path, Expand(SplitArguments(template), UrlValues(onlyAudio, urls[i])), true)
  {
    seq(|urls|, i requires 0 <= i < |urls| =>
      Launch(path, Expand(SplitArguments(template), UrlValues(onlyAudio, urls[i])), true))
  }

  /** Downloading a list of addresses is downloading its two parts one after the other. */
  lemma UrlLaunchesAppend(path: string, template: string, onlyAudio: bool, xs: seq<string>, ys: seq<string>)
    ensures UrlLaunches(path, template, onlyAudio, xs + ys)
         == UrlLaunches(path, template, onlyAudio, xs) + UrlLaunches(path, template, onlyAudio, ys)
  {
    var all := UrlLaunches(path, template, onlyAudio, xs + ys);
    var parts := UrlLaunches(path, template, onlyAudio, xs) + UrlLaunches(path, template, onlyAudio, ys);
    assert forall i :: |xs| <= i < |xs + ys| ==> (xs + ys)[i] == ys[i - |xs|];
    assert forall i :: 0 <= i < |all| ==> all[i] == parts[i];
  }

  /** A run either refuses (exit code 1) or makes its launches and reports 0. */
  datatype Plan = Refuse | Start(launches: seq<Launch>)

  function RunPlan(onlyAudio: bool, urls: seq<string>, config: ConfigBlock, mode: Lookup): Result<Plan, ConfigError> {
    if urls == [] then Ok(Refuse)
    else
      var path :- Setting(config, "Path", DefaultPath, mode);
      var template :- Setting(config, "CommandLine", DefaultCommandLine, mode);
      Ok(Start(UrlLaunches(path, template, onlyAudio, urls)))
  }

  /** The exit code of a plan carried out on a host that has launched `before` so far. */
  predicate Performed(plan: Result<Plan, ConfigError>, r: Result<int, ConfigError>, before: seq<Launch>, after: seq<Launch>) {
    match plan
    case Err(e) => r == Err(e) && after == before
    case Ok(Refuse) => r == Ok(1) && after == before
    case Ok(Start(ls)) => r == Ok(0) && after == before + ls
  }

  /** One turn of the loop: `input` becomes this address alone, the template is expanded and launched. */
  method LaunchOne(runner: ProcessRunner, template: string, onlyAudio: bool, url: string, host: ProcessHost)
    requires runner.patternValues.dict - {"input"} == BaseValues(onlyAudio)
    modifies runner, runner.patternValues, host
    ensures runner.filename == old(runner.filename)
    ensures runner.patternValues.dict == UrlValues(onlyAudio, url)
    ensures runner.patternValues.dict - {"input"} == BaseValues(onlyAudio)
    ensures host.launched
         == old(host.launched) + [Launch(runner.filename, Expand(SplitArguments(template), UrlValues(onlyAudio, url)), true)]
  {
    ReplaceInput(runner.patternValues.dict, onlyAudio, url);
    runner.patternValues.Add("input", [url]);
    runner.SetArguments(template);
    var _ := runner.Run(true, host);
  }

  /** Replacing `input` in values that agree with the base ones elsewhere gives the values for that address. */
  lemma ReplaceInput(dict: map<string, seq<string>>, onlyAudio: bool, url: string)
    requires dict - {"input"} == BaseValues(onlyAudio)
    ensures dict["input" := [url]] == UrlValues(onlyAudio, url)
    ensures dict["input" := [url]] - {"input"} == BaseValues(onlyAudio)
  {
    assert "input" !in BaseValues(onlyAudio);
    assert dict["input" := [url]].Keys == BaseValues(onlyAudio).Keys + {"input"};
  }

  /**
   * `Run(config)`: the loop registers each address as `input`, reassigns
   * the arguments and launches; the children's exit codes are ignored.
   */
  method Run(p: Plugin, config: ConfigBlock, host: ProcessHost) returns (r: Result<int, ConfigError>)
    modifies host
    ensures Performed(RunPlan(p.BoolSlot("OnlyAudio"), p.ListSlot("Urls"), config, AsWritten), r,
                      old(host.launched), host.launched)
  {
    var urls := p.ListSlot("Urls");
    var onlyAudio := p.BoolSlot("OnlyAudio");
    if |urls| == 0 {
      return Ok(1);
    }
    var path :- config.Index("Path");
    var runner := new ProcessRunner();
    runner.filename := path.Or(DefaultPath);
    var args :- config.Index("CommandLine");
    var template := args.Or(DefaultCommandLine);
    if onlyAudio {
      runner.patternValues.Add("only-audio", ["--extract-audio"]);
    }
    LaunchAll(runner, template, onlyAudio, urls, host);
    PlanStarts(onlyAudio, urls, config, path, args);
    return Ok(0);
  }

  /** The loop over the addresses, on a runner holding only the values registered before it. */
  method LaunchAll(runner: ProcessRunner, template: string, onlyAudio: bool, urls: seq<string>, host: ProcessHost)
    requires runner.patternValues.dict == BaseValues(onlyAudio)
    modifies runner, runner.patternValues, host
    ensures runner.filename == old(runner.filename)
    ensures host.launched == old(host.launched) + UrlLaunches(runner.filename, template, onlyAudio, urls)
  {
    ghost var launches := UrlLaunches(runner.filename, template, onlyAudio, urls);
    assert runner.patternValues.dict - {"input"} == BaseValues(onlyAudio);
    var i := 0;
    while i < |urls|
      invariant 0 <= i <= |urls|
      invariant runner.filename == old(runner.filename)
      invariant runner.patternValues.dict - {"input"} == BaseValues(onlyAudio)
      invariant host.launched == old(host.launched) + launches[..i]
    {
      LaunchOne(runner, template, onlyAudio, urls[i], host);
      assert launches[..i + 1] == launches[..i] + [launches[i]];
      i := i + 1;
    }
    assert launches[..i] == launches;
  }

  /** With both settings present, the plan is one launch per address. */
  lemma PlanStarts(onlyAudio: bool, urls: seq<string>, config: ConfigBlock, path: PossibleConfigValue,
                   args: PossibleConfigValue)
    requires urls != [] && config.Index("Path") == Ok(path) && config.Index("CommandLine") == Ok(args)
    ensures RunPlan(onlyAudio, urls, config, AsWritten)
         == Ok(Start(UrlLaunches(path.Or(DefaultPath), args.Or(DefaultCommandLine), onlyAudio, urls)))
  {
  }

  // ---------------------------------------------------------------------
  // Properties
  // ---------------------------------------------------------------------

  /** No addresses: the run refuses before any setting is read. */
  lemma NoUrlsRefused(onlyAudio: bool, config: ConfigBlock, mode: Lookup)
    ensures RunPlan(onlyAudio, [], config, mode) == Ok(Refuse)
  {
  }

  /** The default template against the values for one address. */
  lemma DefaultVector(onlyAudio: bool, url: string)
    ensures Expand(SplitArguments(DefaultCommandLine), UrlValues(onlyAudio, url))
         == (if onlyAudio then ["--extract-audio"] else []) + [url]
  {
    DefaultTemplateTokens();
    var values := UrlValues(onlyAudio, url);
    PlaceholderOf("only-audio");
    assert "%" + "only-audio" + "%" == "%only-audio%";
    PlaceholderOf("input");
    assert "%" + "input" + "%" == "%input%";
    assert Expand(["%only-audio%", "%input%"], values)
        == ExpandToken("%only-audio%", values) + Expand(["%input%"], values) by {
      assert ["%only-audio%", "%input%"][1..] == ["%input%"];
    }
    assert Expand(["%input%"], values) == ExpandToken("%input%", values) by {
      assert ["%input%"][1..] == [];
    }
  }

  /** The default template splits into its two placeholders. */
  lemma DefaultTemplateTokens()
    ensures SplitArguments(DefaultCommandLine) == DefaultTokens
  {
    forall i | 0 <= i < |DefaultTokens|
      ensures Displayable(DefaultTokens[i])
    {
      var x := DefaultTokens[i];
      assert forall j :: 0 <= j < |x| ==> x[j] == '-' || x[j] == '%' || ('a' <= x[j] <= 'z');
    }
    DisplayRoundTrip(DefaultTokens);
  }

  /**
   * The intended reading of an empty settings block: exactly one launch of
   * youtube-dl.exe per address, in order, each carrying that address alone,
   * preceded by `--extract-audio` when only audio is wanted.
   */
  lemma OneLaunchPerUrl(onlyAudio: bool, urls: seq<string>, name: string)
    requires urls != []
    ensures var plan := RunPlan(onlyAudio, urls, MakeBlock(name, map[]), Intended);
            && plan.Ok? && plan.value.Start?
            && |plan.value.launches| == |urls|
            && forall i :: 0 <= i < |urls| ==>
                 plan.value.launches[i]
                 == Launch(DefaultPath, (if onlyAudio then ["--extract-audio"] else []) + [urls[i]], true)
  {
    EmptyBlockSettings(name, "Path", DefaultPath);
    EmptyBlockSettings(name, "CommandLine", DefaultCommandLine);
    forall i | 0 <= i < |urls|
      ensures Expand(SplitArguments(DefaultCommandLine), UrlValues(onlyAudio, urls[i]))
           == (if onlyAudio then ["--extract-audio"] else []) + [urls[i]]
    {
      DefaultVector(onlyAudio, urls[i]);
    }
  }

  /** As written, the empty block the host falls back to makes any run with addresses throw. */
  lemma EmptyBlockThrows(onlyAudio: bool, urls: seq<string>, name: string)
    requires urls != []
    ensures RunPlan(onlyAudio, urls, MakeBlock(name, map[]), AsWritten) == Err(KeyNotFound("Path"))
  {
    EmptyBlockSettings(name, "Path", DefaultPath);
  }

  /** The command and each alias select this plugin, in any letter case. */
  lemma Matching(p: Plugin, cmd: string)
    requires p.info == Info
    ensures p.CommandletMatch(cmd) <==> Lower(cmd) == "youtube-dl" || Lower(cmd) in Aliases
  {
    assert CanonicalName("youtube-dl");
    assert forall i :: 0 <= i < |Aliases| ==> CanonicalName(Aliases[i]);
    CanonicalMatch(p, cmd);
  }
}

/**
 * The `imageontop` tool (Main/Plugins/ImageOnTopPlugin.cs): starts the
 * image viewer without waiting for it, passing the first image path given.
 */
module ImageOnTop {
  import opened Wrappers
  import opened Text
  import opened Schema
  import opened Config
  import opened Plugin
  import opened ProcessRunner

  const ImageMember := Property("Image", StringArrayType, true)

  const Declarations: seq<Declaration> := [
    Declaration(ImageMember, None, Some(RestOptionAttribute("image", "Image path. If empty, opens a file dialog.")))
  ]

  const Info := PluginInfo("imageontop", ["iot"], "Image On Top", "Open an image in an Always On Top Window",
                           Declarations, ImageOnTopTool)

  const Defaults: map<string, SlotValue> := map["Image" := StrList([])]

  method New() returns (p: Plugin)
    ensures fresh(p) && p.info == Info && p.slots == Defaults && p.calls == []
  {
    p := new Plugin(Info, Defaults);
  }

  const DefaultPath := "iot.exe"

  /** The viewer's argument vector: the first image, when there is one. */
  function ViewerArguments(images: seq<string>): (argv: seq<string>)
    ensures |argv| <= 1 && |argv| <= |images| && argv == images[..|argv|]
    ensures argv == [] <==> images == []
  {
    if |images| > 0 then [images[0]] else []
  }

  /** The one launch a run makes, or the failed `Path` lookup. */
  function RunPlan(images: seq<string>, config: ConfigBlock, mode: Lookup): Result<Launch, ConfigError> {
    var path :- Setting(config, "Path", DefaultPath, mode);
    Ok(Launch(path, ViewerArguments(images), false))
  }

  /** The exit code of a plan carried out on a host that has launched `before` so far. */
  predicate Performed(plan: Result<Launch, ConfigError>, r: Result<int, ConfigError>, before: seq<Launch>, after: seq<Launch>) {
    match plan
    case Err(e) => r == Err(e) && after == before
    case Ok(l) => r == Ok(0) && after == before + [l]
  }

  /**
   * `Run(config)`: the arguments go into the list unexpanded, the viewer is
   * not waited for, and the exit code is always 0.
   */
  method Run(p: Plugin, config: ConfigBlock, host: ProcessHost) returns (r: Result<int, ConfigError>)
    modifies host
    ensures Performed(RunPlan(p.ListSlot("Image"), config, AsWritten), r, old(host.launched), host.launched)
  {
    var path :- config.Index("Path");
    var runner := new ProcessRunner();
    runner.filename := path.Or(DefaultPath);
    var images := p.ListSlot("Image");
    if |images| > 0 {
      runner.argumentsList := runner.argumentsList + [images[0]];
    }
    assert Setting(config, "Path", DefaultPath, AsWritten) == Ok(runner.filename);
    assert runner.argumentsList == ViewerArguments(images);
    assert RunPlan(images, config, AsWritten) == Ok(Launch(runner.filename, runner.argumentsList, false));
    var _ := runner.Run(false, host);
    return Ok(0);
  }

  // ---------------------------------------------------------------------
  // Properties
  // ---------------------------------------------------------------------

  /** Only the first image reaches the viewer; the others are dropped. */
  lemma OnlyFirstImage(first: string, others: seq<string>, config: ConfigBlock, mode: Lookup)
    requires RunPlan([first] + others, config, mode).Ok?
    ensures RunPlan([first] + others, config, mode).value.argv == [first]
  {
  }

  /** No image: the viewer starts with no arguments and opens its file dialog. */
  lemma NoImageNoArguments(config: ConfigBlock, mode: Lookup)
    requires RunPlan([], config, mode).Ok?
    ensures RunPlan([], config, mode).value.argv == []
  {
  }

  /**
   * With the empty fallback block, as written the `Path` lookup throws;
   * read as intended, iot.exe starts with the first image, unwaited.
   */
  lemma EmptyBlockRun(images: seq<string>, name: string)
    ensures RunPlan(images, MakeBlock(name, map[]), AsWritten) == Err(KeyNotFound("Path"))
    ensures RunPlan(images, MakeBlock(name, map[]), Intended) == Ok(Launch(DefaultPath, ViewerArguments(images), false))
  {
    EmptyBlockSettings(name, "Path", DefaultPath);
  }

  /** The command and its alias select this plugin, in any letter case. */
  lemma Matching(p: Plugin, cmd: string)
    requires p.info == Info
    ensures p.CommandletMatch(cmd) <==> Lower(cmd) == "imageontop" || Lower(cmd) == "iot"
  {
    assert CanonicalName("imageontop");
    assert CanonicalName(Info.aliases[0]);
    CanonicalMatch(p, cmd);
  }
}

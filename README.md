# Tools: a Dafny model

Tools is a small Windows command-line host. `Tools.exe <cmd> [args]` finds the plugin whose command or alias answers `<cmd>`, ignoring letter case. It binds the remaining arguments into the plugin's option properties and finds a settings block, either from `--config=<path>` or from the default `Tools.config.ini`. It then runs the plugin, and the plugin's result is the exit code. The four plugins are:

- `ffmpeg`/`ff` transcodes or inspects a media file through ffmpeg/ffprobe.
- `youtube-dl` downloads each address it is given.
- `clicker` clicks the mouse at a parsed interval.
- `imageontop`/`iot` opens an image viewer.

A separate viewer application keeps its last location and a list of recent windows in the registry.

This project models that core in Dafny and proves what it promises:

- The INI reader (`Config`) is a fold over the file's lines. It is proved equal to a section-by-section reading. Success is characterised exactly: no duplicate block name and no duplicate key within a block. Every stored pair reads back.
- The argument tokeniser and template expansion (`ProcessRunner`) are modelled with a round trip: the displayed argument string splits back into the list.
- The argument binder (`CommandLine`) is a method over a mutable plugin object. It is proved against a specification function. Its schema check, short and long option syntax, `--config` handling and rest arguments are each stated as lemmas.
- Each plugin's `Run` is a method against a plan function. The plan's refusals, default command lines and argument vectors are proved.
- The host's routing (`Host.Dispatch`) picks the first plugin that answers the command. With the four plugins, that choice does not depend on discovery order.
- The viewer's registry settings (`Settings`) are a class over two maps. Enumerating the recent entries is a loop proved against a specification. Writing them and reading them back is a round trip.

Processes, files and the registry are parameters:

- A `ProcessHost` records every launch and supplies exit codes.
- A file system is a map from path to lines.
- The registry keys are maps from value name to value.
- `File.Exists` is a predicate.
- The order in which the registry lists value names is a sequence.

## Model

| member | source | states |
|---|---|---|
| Text.LowerIdempotent | Main/Shared/Plugin.cs:12 | a lower-cased text holds no ASCII capital, and lower-casing it again changes nothing |
| Text.TrimStripped | Main/Shared/Config.cs:38 | the trimmed text is a slice of the input with only white space before and after it; with Trim's own contract this fixes it uniquely |
| Text.Split | ImageAOT/Settings.cs:49 | splitting on a character gives one more piece than there are separators, no piece contains the separator, and joining the pieces gives the input back |
| Text.SplitJoin | Main/Program.cs:32 | joining separator-free pieces and splitting again gives the same pieces |
| Text.ParseInt32 | ImageAOT/Settings.cs:54-57 | a successful parse lies within the 32-bit signed range |
| Text.TrailingNulIgnored | ImageAOT/Settings.cs:54-57 | NUL characters at the end of the text, which `int.Parse` accepts, never change the result |
| Text.TrailingNulOrder | ImageAOT/Settings.cs:54-57 | the NULs may follow the trailing white space, but white space after a NUL makes the text malformed |
| Text.FormatParseInt32 | ImageAOT/Settings.cs:80 | every 32-bit value formatted in decimal parses back to itself |
| Config.LookupsAgree | Main/Shared/Config.cs:97-114 | the indexer succeeds exactly where `TryGetValue` finds the key; the string lookup reports a value exactly when the indexer's value exists, and it is what `Or` returns |
| Config.MakeBlockReadBack | Main/Shared/Config.cs:87-90 | a block built from a dictionary gives back exactly that dictionary through the string lookup |
| Config.TryParseValue | Main/Shared/Config.cs:46-56 | a line is a key/value pair exactly when it contains one `=` |
| Config.Load | Main/Shared/Config.cs:12-35 | loading a file gives the error for an empty or missing path, otherwise the result of reading its lines |
| Config.FeedSections | Main/Shared/Config.cs:16-34 | the line-by-line loop followed by the final flush equals building the blocks section by section |
| Config.ParseConfigSections | Main/Shared/Config.cs:12-35 | the whole reader equals building the file's sections from an empty dictionary |
| Config.SectionNames | Main/Shared/Config.cs:25-28 | the block names are the unnamed first block followed by the headers, in order |
| Config.AddPairsSpec | Main/Shared/Config.cs:29-31 | adding a section's pairs succeeds exactly when no key repeats and none is already present; the keys are then the old keys plus the new ones, and old values are kept |
| Config.BuildOk | Main/Shared/Config.cs:26-34 | building blocks succeeds exactly when the sections are well formed: no name reused, no key repeated |
| Config.ParseConfigBlocks | Main/Shared/Config.cs:12-35 | reading succeeds exactly when the sections are well formed, and the blocks are then named by the empty name plus every header |
| Config.DuplicateHeaderFails | Main/Shared/Config.cs:26 | a block name that appears twice (including a header with the empty name) makes reading fail |
| Config.ParsedPairsReadBack | Main/Shared/Config.cs:104-114 | every pair written in a file that reads successfully is found again under its block and key, by both lookups |
| Config.ParsedValuesExist | Main/Shared/Config.cs:87-90 | every value read from a file exists, so no lookup there falls back to a default |
| Config.SettingModes | Main/Shared/Config.cs:136-139 | the indexer-then-`Or` lookup succeeds exactly for a present key and then agrees with the defaulting lookup; for a missing key it fails where the defaulting lookup gives the default |
| Config.ParsedSettingIgnoresDefault | Main/Shared/Config.cs:136-139 | on a block read from a file, a successful indexer-then-`Or` lookup is the stored value, never the default |
| Config.EmptyBlockSettings | Main/Shared/Config.cs:97 | on a block with no keys, the indexer-then-`Or` lookup fails and the defaulting lookup returns the default |
| Config.HeaderLine | Main/Shared/Config.cs:25-45 | `[name]` is a header named by the trimmed `name`, whatever `name` holds; the header test comes first, so `[a=b]` is a header |
| Config.PairLine | Main/Shared/Config.cs:20-56 | `key=value` with no other `=` is the pair of the trimmed key and the trimmed value, unless the key's first visible character is `;` (a comment) or it is `[` while the value's last visible character is `]` (a header) |
| Config.OpenBracketPair | Main/Shared/Config.cs:37-54 | a `[` with no closing `]` opens no header: `[a=b` is the pair of `[a` and `b` |
| ProcessRunner.SplitArguments | Main/Shared/ProcessRunner.cs:62-71 | every token is a plain run, or lacks one of the two quote characters |
| ProcessRunner.QuotedToken | Main/Shared/ProcessRunner.cs:13 | a closed quoted string becomes one token without its quotes |
| ProcessRunner.UnclosedQuote | Main/Shared/ProcessRunner.cs:13 | a quote that is never closed is skipped |
| ProcessRunner.PlainToken | Main/Shared/ProcessRunner.cs:13 | a run of plain characters ended by white space is one token |
| ProcessRunner.DisplayRoundTrip | Main/Shared/ProcessRunner.cs:43-71 | displaying an argument list (quoting items with spaces) and splitting the result gives the list back, for non-empty items without quotes or other white space |
| ProcessRunner.ExpandPlain | Main/Shared/ProcessRunner.cs:45-57 | tokens that are not placeholders pass through expansion unchanged |
| ProcessRunner.ExpandPlaceholder | Main/Shared/ProcessRunner.cs:45-57 | a `%name%` token is replaced in place by its registered values, or dropped when none are registered |
| ProcessRunner.ExpandEmpty | Main/Shared/ProcessRunner.cs:49-52 | with no registered values, expansion is exactly the tokens that are not placeholders, in order and with their repetitions |
| ProcessRunner.PatternValuesCollection.constructor | Main/Shared/ProcessRunner.cs:123 | a new collection is empty |
| ProcessRunner.PatternValuesCollection.Add | Main/Shared/ProcessRunner.cs:132-135 | after adding by key, `TryGetValue` finds the new values for that key and the old result for every other key, and the count grows by one exactly for a new key |
| ProcessRunner.PatternValuesCollection.AddPair | Main/Shared/ProcessRunner.cs:137-139 | adding a pair fails on a present key, changing nothing, and otherwise inserts it, so `TryGetValue` finds it and the count grows by one |
| ProcessRunner.PatternValuesCollection.Clear | Main/Shared/ProcessRunner.cs:141-143 | clearing empties the collection |
| ProcessRunner.PatternValuesCollection.Remove | Main/Shared/ProcessRunner.cs:160-162 | removing reports whether the key was present, leaves every other key, and afterwards the key is not found and the count dropped by one exactly if it was present |
| ProcessRunner.ProcessRunner.constructor | Main/Shared/ProcessRunner.cs:42-60 | a new runner has no arguments, an empty file name and a fresh, empty set of values |
| ProcessRunner.ProcessRunner.SetArguments | Main/Shared/ProcessRunner.cs:45-57 | assigning the argument string replaces the list with the expansion of its tokens |
| ProcessRunner.ProcessRunner.AddArguments | Main/Shared/ProcessRunner.cs:107 | adding arguments appends them in order |
| ProcessRunner.ProcessRunner.Run | Main/Shared/ProcessRunner.cs:73-103 | running launches the file name with the argument list, waited or not, exactly once, and returns that launch's exit code |
| ProcessRunner.RunList | Main/Shared/ProcessRunner.cs:105-109 | the list overload launches with the list as given |
| ProcessRunner.RunString | Main/Shared/ProcessRunner.cs:110-114 | the string overload launches with the string's tokens, where placeholders expand to nothing |
| CommandLine.ValueText | Main/Shared/CommandLine.cs:9-10 | an option value either contains no quote or contains no newline |
| CommandLine.MatchShort | Main/Shared/CommandLine.cs:9 | a short option is `-`, one word character, then the end or `=` |
| CommandLine.MatchLong | Main/Shared/CommandLine.cs:10 | a long option is `--` followed by its non-empty name |
| CommandLine.Deconstruct | Main/Shared/CommandLine.cs:147-158 | splitting off the last element gives back the array, and a default element for an empty one |
| CommandLine.ShortHeadEmpty | Main/Shared/CommandLine.cs:20-28 | a short option has no head characters, so only its one letter is set |
| CommandLine.ClusterIsPositional | Main/Shared/CommandLine.cs:9-10 | `-ab…` is neither a short nor a long option, so it becomes a rest argument |
| CommandLine.ShortQuotedValue | Main/Shared/CommandLine.cs:21 | `-c="x"` gives letter `c` and value `x` without quotes |
| CommandLine.ShortRawValue | Main/Shared/CommandLine.cs:22 | `-c=v` gives letter `c` and value `v` as written |
| CommandLine.ShortNoValue | Main/Shared/CommandLine.cs:23 | `-c` gives letter `c` and the empty value |
| CommandLine.LongValue | Main/Shared/CommandLine.cs:37-42 | `--name=v` is not a short option; it gives the name and value |
| CommandLine.CollectHandlersSpec | Main/Shared/CommandLine.cs:103-145 | collecting succeeds exactly when every declaration passes its checks; the options are appended in order and the last rest option wins |
| CommandLine.GetHandlersSpec | Main/Shared/CommandLine.cs:103-145 | the handler table exists exactly when every declaration is valid; it then holds every option in declaration order and the last rest option |
| CommandLine.FindShort | Main/Shared/CommandLine.cs:30 | the first handler with the letter is found, and none when no handler has it |
| CommandLine.FindLong | Main/Shared/CommandLine.cs:47 | the first handler with the name is found, and none when no handler has it |
| CommandLine.Parse | Main/Shared/CommandLine.cs:12-58 | binding changes the plugin's options exactly as the argument-by-argument specification says and returns its settings block or error |
| CommandLine.BindArgument | Main/Shared/CommandLine.cs:18-53 | one argument is bound exactly as one step of the specification: on an error the plugin is untouched, otherwise its options and the collected rest and settings are the step's result |
| CommandLine.BindAppend | Main/Shared/CommandLine.cs:17-54 | binding `xs + ys` is binding `xs`, then binding `ys` unless `xs` failed |
| CommandLine.EarlierValuesSurvive | Main/Shared/CommandLine.cs:17-54 | an argument that throws stops binding, while the values bound before it stay set |
| CommandLine.PositionalOrder | Main/Shared/CommandLine.cs:53 | a run of arguments that are all positional is collected in order and changes nothing else |
| CommandLine.RestCollectsPositionals | Main/Shared/CommandLine.cs:17-54 | whatever options are mixed in, a binding that does not throw collects exactly the positional arguments, in order |
| CommandLine.ConfigToken | Main/Shared/CommandLine.cs:43-46 | `--config=value`, quoted or not, reads the file the value names, failing as reading fails, and otherwise takes the plugin's block if the file has one |
| CommandLine.LastConfigWins | Main/Shared/CommandLine.cs:43-46 | of two `--config` arguments the second decides the block |
| CommandLine.BoolIsAlwaysTrue | Main/Shared/CommandLine.cs:18-50 | whichever handler a short or long option selects, a boolean property or field, or a method taking one boolean, receives true whatever value is written after `=` |
| CommandLine.StringOptionStored | Main/Shared/CommandLine.cs:18-50 | a string option in either form receives its value text, unquoted, or the empty text when there is no `=` |
| CommandLine.UnknownShortSkipped | Main/Shared/CommandLine.cs:30-31 | a short option whose letter no handler has is skipped and changes nothing |
| CommandLine.UnknownLongSkipped | Main/Shared/CommandLine.cs:47-48 | a long option other than `config` whose name no handler has is skipped and changes nothing |
| CommandLine.IntOptionConverted | Main/Shared/CommandLine.cs:18-50 | an integer option in either form receives the 32-bit value its text parses to; a text that is not an integer throws a format error, one out of range an overflow error, and nothing is stored |
| CommandLine.BareIntOptionThrows | Main/Shared/CommandLine.cs:18-33 | a bare `-n` on an integer option carries the empty text and throws a format error |
| CommandLine.RestAlwaysAssigned | Main/Shared/CommandLine.cs:53-57 | after a binding that does not throw, the rest option always receives the positional arguments in order (the empty list when there are none), as a list or as a method's argument, and the config is returned |
| CommandLine.SchemaCheckedFirst | Main/Shared/CommandLine.cs:13 | an invalid declaration fails binding with a schema error before any option is touched |
| Plugin.AliasMatchSpec | Main/Shared/Plugin.cs:14-16 | an alias matches exactly when its trimmed, lower-cased form equals the lower-cased command |
| Plugin.CommandletMatchSpec | Main/Shared/Plugin.cs:11-18 | a word selects the plugin exactly when, ignoring case, it is the command or a trimmed alias |
| Plugin.NoAliasesMatchCommandOnly | Main/Shared/Plugin.cs:11-18 | without aliases only the command matches |
| Plugin.CanonicalMatch | Main/Shared/Plugin.cs:11-18 | for a plugin whose words are already lower case and trimmed, a word matches exactly when its lower-case form is one of them |
| FFMpeg.New | Main/Plugins/FFMpeg.cs:17-36 | a new instance has the declared options at their initial values |
| FFMpeg.ExtensionDot | Main/Plugins/FFMpeg.cs:49 | the extension starts at the last period after the last directory separator |
| FFMpeg.ChangeExtensionSpec | Main/Plugins/FFMpeg.cs:49 | changing the extension keeps the stem, and changing it again to the same extension changes nothing |
| FFMpeg.RegisterMpegValues | Main/Plugins/FFMpeg.cs:57-64 | registering fills the values exactly as the transcode plan says |
| FFMpeg.Mpeg | Main/Plugins/FFMpeg.cs:38-69 | transcoding carries out its plan: refuse with 1, throw a settings error, or launch once and return that exit code |
| FFMpeg.Probe | Main/Plugins/FFMpeg.cs:70-84 | inspecting carries out its plan in the same way |
| FFMpeg.Run | Main/Plugins/FFMpeg.cs:86-88 | running inspects when asked and transcodes otherwise |
| FFMpeg.NoInputRefused | Main/Plugins/FFMpeg.cs:39-42 | with no input, both modes refuse without launching |
| FFMpeg.NoOutputNoFormatRefused | Main/Plugins/FFMpeg.cs:43-46 | a transcode with neither output nor format is refused |
| FFMpeg.SameFileRefused | Main/Plugins/FFMpeg.cs:48-53 | an input that already has the target extension is refused, since the derived output is the same file |
| FFMpeg.OnlyFirstInput | Main/Plugins/FFMpeg.cs:48 | inputs after the first change nothing |
| FFMpeg.FilterValues | Main/Plugins/FFMpeg.cs:57-64 | a filter beats scale, bitrate is optional, and input and output are always registered |
| FFMpeg.DefaultArgv | Main/Plugins/FFMpeg.cs:66 | the default template gives `-hide_banner -i <input> [filter] [bitrate] -y <output>` |
| FFMpeg.DefaultTranscode | Main/Plugins/FFMpeg.cs:55-68 | read as intended, with no settings a plain transcode launches `ffmpeg.exe -hide_banner -i in -y out`, waited |
| FFMpeg.FilteredTranscode | Main/Plugins/FFMpeg.cs:57-66 | read as intended, a filter and a bitrate go between input and `-y` |
| FFMpeg.EmptyBlockThrows | Main/Plugins/FFMpeg.cs:55 | as written, with the empty fallback block every run that gets past the refusals throws for its path setting |
| FFMpeg.DefaultInspectArgv | Main/Plugins/FFMpeg.cs:81 | the default inspect template gives `-hide_banner -i <input>` |
| FFMpeg.DefaultProbe | Main/Plugins/FFMpeg.cs:76-83 | read as intended, with no settings inspecting launches `ffprobe.exe -hide_banner -i in`, waited |
| FFMpeg.Matching | Main/Plugins/FFMpeg.cs:8-13 | the plugin answers `ffmpeg` and `ff` in any case, and nothing else |
| FFMpeg.DeclarationsValid | Main/Plugins/FFMpeg.cs:17-36 | every declared option passes the binder's checks |
| FFMpeg.ShortFSetsFormat | Main/Plugins/FFMpeg.cs:17-30 | `-f` is declared twice and always sets the format, never the filter |
| YoutubeDL.New | Main/Plugins/YoutubeDL.cs:21-25 | a new instance has the declared options at their initial values |
| YoutubeDL.UrlLaunchesAppend | Main/Plugins/YoutubeDL.cs:37-41 | downloading a list of addresses is downloading its two parts one after the other |
| YoutubeDL.LaunchOne | Main/Plugins/YoutubeDL.cs:38-40 | one address replaces the previous `input` pattern value, keeps the other values, and adds one waited launch with the expanded template |
| YoutubeDL.LaunchAll | Main/Plugins/YoutubeDL.cs:37-41 | the loop appends exactly the launches `UrlLaunches` specifies, in address order |
| YoutubeDL.Run | Main/Plugins/YoutubeDL.cs:27-44 | running refuses with 1, throws a settings error, or makes all the launches and returns 0 whatever their exit codes |
| YoutubeDL.NoUrlsRefused | Main/Plugins/YoutubeDL.cs:28-31 | with no address nothing is launched |
| YoutubeDL.DefaultVector | Main/Plugins/YoutubeDL.cs:33-35 | the default template gives `[--extract-audio] <url>` |
| YoutubeDL.OneLaunchPerUrl | Main/Plugins/YoutubeDL.cs:32-41 | read as intended, with no settings each address is downloaded by `youtube-dl.exe` with the audio flag if asked |
| YoutubeDL.EmptyBlockThrows | Main/Plugins/YoutubeDL.cs:32 | as written, with the empty fallback block a run with addresses throws for `Path` |
| YoutubeDL.Matching | Main/Plugins/YoutubeDL.cs:8-17 | the plugin answers its command and its five aliases in any case, and nothing else |
| Clicker.New | Main/Plugins/ClickerPlugin.cs:16-17 | a new instance has the delay `10s` |
| Clicker.Matching | Main/Plugins/ClickerPlugin.cs:11-12 | the plugin answers only `clicker`, in any case |
| Clicker.MatchDelay | Main/Plugins/ClickerPlugin.cs:24 | a match is digits followed by a unit in any case, optionally with one final newline |
| Clicker.ParseDelay | Main/Plugins/ClickerPlugin.cs:24-36 | an accepted delay is a whole number of milliseconds within the largest time span |
| Clicker.DigitsParse | Main/Plugins/ClickerPlugin.cs:29 | a digit string parses to its value when that fits in 32 bits and overflows otherwise |
| Clicker.DelayAccepted | Main/Plugins/ClickerPlugin.cs:24-36 | a number and a lower-case unit, with or without a final newline, give that number of units in milliseconds when the span fits |
| Clicker.AcceptedDelayShape | Main/Plugins/ClickerPlugin.cs:24-36 | every accepted delay is digits and a lower-case unit, possibly with a final newline, and its value is their product |
| Clicker.DefaultIsTenSeconds | Main/Plugins/ClickerPlugin.cs:17 | the default delay is 10000 ms |
| Clicker.OtherCaseSuffixRejected | Main/Plugins/ClickerPlugin.cs:30-35 | a unit in another case passes the pattern but throws as an unknown suffix |
| Clicker.NoDigitsInvalid | Main/Plugins/ClickerPlugin.cs:26-27 | a delay that does not start with a digit is invalid |
| Clicker.HugeValueOverflows | Main/Plugins/ClickerPlugin.cs:29 | a number beyond 32 bits throws on parsing |
| Clicker.HoursOverflow | Main/Plugins/ClickerPlugin.cs:34 | from 256204779 hours up, the time span overflows |
| Settings.RectangleString | ImageAOT/Settings.cs:80 | the rectangle text has exactly three commas |
| Settings.ParseRectangle | ImageAOT/Settings.cs:49-62 | a parsed entry has the looked-up path and came from text with exactly three commas |
| Settings.RecentLookup | ImageAOT/Settings.cs:44-63 | an entry is found only for a string value that parses as a rectangle, and a cast fails only for a non-string value under the as-written guard |
| Settings.KeptEntriesSound | ImageAOT/Settings.cs:20-27 | every yielded entry comes from a listed name, is kept, and is its own lookup |
| Settings.Settings.constructor | ImageAOT/Settings.cs:5-6 | the keys start as given |
| Settings.Settings.GetLastLocation | ImageAOT/Settings.cs:8-13 | a string value is returned; otherwise it is deleted and the current directory returned |
| Settings.Settings.SetLastLocation | ImageAOT/Settings.cs:14-16 | the last location is stored as a string and nothing else changes |
| Settings.Settings.SetRecent | ImageAOT/Settings.cs:38-40 | the entry's rectangle text is stored under its path and nothing else changes |
| Settings.Settings.SetRecentRectangle | ImageAOT/Settings.cs:41-43 | the same for a path and four numbers |
| Settings.Settings.ReadRecent | ImageAOT/Settings.cs:19-28 | enumerating yields, deletes and fails exactly as the enumeration specification says |
| Settings.Settings.WriteRecent | ImageAOT/Settings.cs:29-35 | after writing, the recent key holds exactly the written entries |
| Settings.RectangleRoundTrip | ImageAOT/Settings.cs:54-62 | an entry's rectangle text parses back to the entry |
| Settings.WrongPieceCount | ImageAOT/Settings.cs:49-52 | text without exactly three commas gives no entry |
| Settings.SetThenGet | ImageAOT/Settings.cs:38-47 | an entry just set is read back, when the guard lets lookups through |
| Settings.NoLastLocationNoEntry | ImageAOT/Settings.cs:45 | as written, without a string last location every lookup gives nothing |
| Settings.EnumerateSpec | ImageAOT/Settings.cs:19-28 | enumeration fails exactly when a cast fails; otherwise it yields the kept entries in order and deletes exactly the listed names not kept; it never adds or alters a value |
| Settings.RecentWipedWithoutLastLocation | ImageAOT/Settings.cs:45 | as written, without a string last location enumeration yields nothing and deletes every listed entry |
| Settings.RecentKeptWithEntryGuard | ImageAOT/Settings.cs:45 | with the guard on the entry's own kind, enumeration never fails and keeps every stored entry whose file exists |
| Settings.WrittenSpec | ImageAOT/Settings.cs:29-35 | the written key holds exactly the entries' paths, and for each path the last entry written for it |
| Settings.WriteThenRead | ImageAOT/Settings.cs:29-47 | every entry written, and not overwritten by a later one, reads back |
| ImageOnTop.New | Main/Plugins/ImageOnTopPlugin.cs:16-17 | a new instance has no image |
| ImageOnTop.ViewerArguments | Main/Plugins/ImageOnTopPlugin.cs:21 | the viewer gets at most the first image, and no argument exactly when there is no image |
| ImageOnTop.Run | Main/Plugins/ImageOnTopPlugin.cs:19-24 | running throws a settings error or launches once, without waiting, and returns 0 |
| ImageOnTop.OnlyFirstImage | Main/Plugins/ImageOnTopPlugin.cs:21 | images after the first are dropped |
| ImageOnTop.NoImageNoArguments | Main/Plugins/ImageOnTopPlugin.cs:21 | with no image the viewer starts with no argument |
| ImageOnTop.EmptyBlockRun | Main/Plugins/ImageOnTopPlugin.cs:20 | with the empty fallback block the run throws for `Path` as written, and launches `iot.exe` as intended |
| ImageOnTop.Matching | Main/Plugins/ImageOnTopPlugin.cs:7-12 | the plugin answers `imageontop` and `iot` in any case, and nothing else |
| Host.Indented | Main/Program.cs:31-33 | indenting adds the indent's length once per newline |
| Host.IndentLinesSpec | Main/Program.cs:31-33 | indenting lines inserts the indent after every newline and changes nothing else |
| Host.LoadPlugins | Main/Program.cs:99-105 | discovery creates one new, distinct instance per plugin type, in the listed order, with its initial options |
| Host.FirstMatch | Main/Program.cs:133 | the plugin picked is the first that answers the word, and none is picked when none answers |
| Host.RouteOf | Main/Program.cs:107-137 | a tool runs only for a first argument it answers, with the remaining arguments |
| Host.RunTool | Main/Program.cs:148 | the selected plugin's run is carried out, and its result or error is the host's |
| Host.RunCommand | Main/Program.cs:140-148 | the arguments are bound, the settings block is chosen, and the tool is run, each failure stopping the rest |
| Host.Dispatch | Main/Program.cs:98-149 | routes that run no tool change nothing and return their exit code; otherwise only the selected plugin is changed, as running the command says |
| Host.Matching | Main/Program.cs:133 | a word selects one of the four plugins exactly when its lower-case form is one of that plugin's words |
| Host.MatchesDisjoint | Main/Program.cs:133 | no word selects two different plugins |
| Host.RoutingIgnoresOrder | Main/Program.cs:101-105 | among distinct plugins, whichever answers a word is the one picked, whatever the discovery order |
| Host.ConfigFallbackOrder | Main/Program.cs:140-146 | the `--config` block wins; otherwise the default file is read (its absence is an error) and its block or an empty block is used |
| Host.MissingDefaultFileStops | Main/Program.cs:141-142 | without `--config` and without the default file, a tool never runs, even one that reads no settings |
| Host.KeywordsCaseSensitive | Main/Program.cs:115-119 | `LIST`, `Help` and other spellings are unknown commands, not keywords |

## Left out

- Plugin discovery by reflection over the assembly, and attribute lookup by reflection: each plugin's declarations are a table, and the discovery order is a parameter.
- Process start and wait, output capture through `WriterSplitter`, the interrupt thread that kills child processes on Ctrl+C, and the console echo of each command line: a launch is a record kept by a host object that supplies exit codes.
- `DisplayHelp` and `DisplayPlugins` (console output only) and the host help text, except `IndentLines`, which they use.
- The viewer's window code (`Form1.cs`, `Win32.cs`) is not part of this model.
- Registry access: the two keys are maps. `File.Exists` is a predicate. The order in which the registry lists value names is a sequence parameter. All value kinds other than strings are one kind.
- The clicker's click loop, the `mouse_event` calls and the message box that stops it: the model ends where the delay has been parsed.
- Culture and Unicode: `\w`, `\d`, `ToLowerInvariant` and white-space tests are modelled on ASCII, with the .NET white-space set for `Trim`.
- The handler's `IsSet` flag, which nothing reads.
- `PatternValuesCollection.Contains`, the pair overload of `Remove` (both compare arrays by reference), `CopyTo` and the enumerators.
- Settings.Settings.ReadRecent: when enumeration throws part way, the model returns only the error. The entries already yielded to the caller are not returned.
- Host.Dispatch: help and list output are not modelled; only their exit codes and the absence of side effects are.
- ProcessRunner.ProcessRunner.Run: a launch records the argument list, but the source hands the child one string joined from `Arguments` (Main/Shared/ProcessRunner.cs:76); an empty token, or one holding a quote or a tab, does not come back unchanged when the child splits that string again.
- Settings.WrittenSpec, Settings.WriteThenRead: registry value names are compared exactly, while the registry ignores their letter case; for two paths that differ only in case the model keeps two values where the registry keeps one.
- Settings.RecentLookup: all non-string value kinds are one kind, so a `REG_EXPAND_SZ` value, which the source's cast to string accepts, fails with an invalid cast in the model.
- Clicker.ParseDelay: the delay is in whole milliseconds; `TimeSpan`'s conversion from a floating-point count is not modelled beyond its range check.

## Findings

| source | as written | input that shows it | evidently intended | confidence | as-written member | corrected member |
|---|---|---|---|---|---|---|
| Main/Shared/Config.cs:97 | `config["Path"].Or(default)` uses the indexer, which throws for a missing key, so no plugin ever uses its default; with no settings file block, the empty block built at Main/Program.cs:145 makes every plugin that reads settings throw | `Tools.exe iot` with a settings file that has no `[imageontop]` block | a missing key falls back to the default (`iot.exe`, `ffmpeg.exe`, …) | not executed | Config.EmptyBlockSettings | ImageOnTop.EmptyBlockRun |
| ImageAOT/Settings.cs:45 | `GetRecent` tests whether the root key's `last_location` is a string instead of testing the entry itself, so enumerating `Recent` before a last location is stored deletes every recent entry | a registry with recent entries whose files exist and no `last_location` value | test the kind of the recent entry, keeping entries whose files exist | not executed | Settings.RecentWipedWithoutLastLocation | Settings.RecentKeptWithEntryGuard |

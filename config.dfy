/**
 * The INI-style configuration store of Main/Shared/Config.cs: a text file
 * parsed line by line into named blocks of key/value pairs.
 *
 * The file system is a map from path to the file's lines.  `Load` is the
 * constructor's line loop; `ParseConfig` is the same loop as a function, and
 * `Sections`/`Build` is an independent description of the format (group the
 * lines under their headers, then store each group) proved equal to it.
 */
module Config {
  import opened Wrappers
  import opened Text

  /** Path -> lines of the file at that path. */
  type FileSystem = map<string, seq<string>>

  /** `PossibleConfigValue`: the parameterless constructor gives `Absent`. */
  datatype PossibleConfigValue = Absent | Present(value: string) {
    predicate Exists() { Present? }

    /** `Or(d)`: the stored value when it exists, otherwise `d`. */
    function Or(d: string): string {
      if Present? then value else d
    }
  }

  /** The exceptions thrown while opening or parsing a file, or by a failed lookup. */
  datatype ConfigError =
    | EmptyPath                          // ArgumentException from `new FileStream("")`
    | FileNotFound(path: string)         // FileNotFoundException
    | DuplicateBlock(name: string)       // ArgumentException from `Dict.Add(block, ...)`
    | DuplicateKey(block: string, key: string) // ArgumentException from `values.Add(name, value)`
    | KeyNotFound(key: string)           // KeyNotFoundException from an indexer

  /** `ConfigBlock`: a block name and its key -> value dictionary. */
  datatype ConfigBlock = ConfigBlock(name: string, dict: map<string, PossibleConfigValue>) {

    /** The indexer `this[key]`, which throws for a missing key. */
    function Index(key: string): (r: Result<PossibleConfigValue, ConfigError>)
      ensures r.Ok? <==> key in dict
      ensures r.Ok? ==> r.value == dict[key]
      ensures r.Err? ==> r.error == KeyNotFound(key)
    {
      if key in dict then Ok(dict[key]) else Err(KeyNotFound(key))
    }

    /** `TryGetValue(key, out PossibleConfigValue)`. */
    function TryGetValue(key: string): Option<PossibleConfigValue> {
      if key in dict then Some(dict[key]) else None
    }

    /** `TryGetValue(key, out string)`: only a value that exists is reported. */
    function TryGetString(key: string): (r: Option<string>)
      ensures r.Some? <==> key in dict && dict[key].Exists()
      ensures r.Some? ==> r.value == dict[key].value
    {
      match TryGetValue(key)
      case Some(v) => if v.Exists() then Some(v.value) else None
      case None => None
    }

    predicate ContainsKey(key: string) { key in dict }
  }

  /** `new ConfigBlock(name, values)`: every value it stores exists. */
  function MakeBlock(name: string, values: map<string, string>): (b: ConfigBlock)
    ensures b.name == name && b.dict.Keys == values.Keys
    ensures forall k :: k in values ==> b.dict[k] == Present(values[k])
  {
    ConfigBlock(name, map k | k in values :: Present(values[k]))
  }

  /**
   * The lookups of a block agree: the indexer succeeds exactly where
   * `TryGetValue` finds the key, and the string overload reports a value
   * exactly when the indexer's value exists, which is then what `Or` gives.
   */
  lemma LookupsAgree(block: ConfigBlock, key: string, d: string)
    ensures block.Index(key).Ok? <==> block.TryGetValue(key).Some?
    ensures block.Index(key).Ok? ==> block.TryGetValue(key) == Some(block.Index(key).value)
    ensures block.TryGetString(key).Some? <==> block.Index(key).Ok? && block.Index(key).value.Exists()
    ensures block.TryGetString(key).Some? ==> block.Index(key).value.Or(d) == block.TryGetString(key).value
    ensures block.Index(key).Ok? && block.TryGetString(key).None? ==> block.Index(key).value.Or(d) == d
  {
  }

  /** A block built from a dictionary gives back through the string lookup exactly that dictionary. */
  lemma MakeBlockReadBack(name: string, values: map<string, string>)
    ensures forall k :: MakeBlock(name, values).TryGetString(k) == (if k in values then Some(values[k]) else None)
  {
  }

  /** `Config`: block name -> block, compared case-sensitively. */
  datatype Config = Config(blocks: map<string, ConfigBlock>) {
    function Index(name: string): Result<ConfigBlock, ConfigError> {
      if name in blocks then Ok(blocks[name]) else Err(KeyNotFound(name))
    }

    function TryGetValue(name: string): Option<ConfigBlock> {
      if name in blocks then Some(blocks[name]) else None
    }

    predicate ContainsKey(name: string) { name in blocks }
  }

  // ---------------------------------------------------------------------
  // One line
  // ---------------------------------------------------------------------

  /** A line whose left-trimmed text starts with `;`. */
  predicate IsComment(line: string) {
    var t := TrimStart(line);
    |t| > 0 && t[0] == ';'
  }

  /** `TryParseName`: a trimmed line between `[` and `]`, named by its trimmed inner text. */
  function TryParseName(line: string): Option<string> {
    var t := Trim(line);
    if |t| > 0 && t[0] == '[' && t[|t| - 1] == ']' then Some(Trim(t[1..|t| - 1])) else None
  }

  /**
   * `TryParseValue`: a line that `Split('=')` cuts into exactly two parts,
   * i.e. one with exactly one `=`; key and value are trimmed.
   */
  function TryParseValue(line: string): (r: Option<(string, string)>)
    ensures r.Some? <==> CountChar(line, '=') == 1
  {
    var split := Split(line, '=');
    if |split| != 2 then None
    else Some((Trim(split[0]), Trim(Join(split[1..], "="))))
  }

  /** How the constructor's loop treats a line, in the order it tests them. */
  datatype LineKind = Comment | Header(name: string) | Pair(key: string, value: string) | Ignored

  function Classify(line: string): LineKind {
    if IsComment(line) then Comment
    else match TryParseName(line)
      case Some(name) => Header(name)
      case None =>
        match TryParseValue(line)
        case Some(kv) => Pair(kv.0, kv.1)
        case None => Ignored
  }

  // ---------------------------------------------------------------------
  // The constructor's loop, as a function
  // ---------------------------------------------------------------------

  /** The loop's variables: current `block`, its `values`, and `Dict`. */
  datatype Loader = Loader(block: string, values: map<string, string>, blocks: map<string, ConfigBlock>)

  /** `Dict.Add(block, new(block, values))`. */
  function Flush(st: Loader): Result<map<string, ConfigBlock>, ConfigError> {
    if st.block in st.blocks then Err(DuplicateBlock(st.block))
    else Ok(st.blocks[st.block := MakeBlock(st.block, st.values)])
  }

  /** The kind of every line, in order. */
  function Kinds(lines: seq<string>): (kinds: seq<LineKind>)
    ensures |kinds| == |lines|
    ensures forall i :: 0 <= i < |lines| ==> kinds[i] == Classify(lines[i])
  {
    seq(|lines|, i requires 0 <= i < |lines| => Classify(lines[i]))
  }

  /** One iteration of the loop, on a line of the given kind. */
  function Step(st: Loader, kind: LineKind): Result<Loader, ConfigError> {
    match kind
    case Comment => Ok(st)
    case Header(name) =>
      var blocks :- Flush(st);
      Ok(Loader(name, map[], blocks))
    case Pair(k, v) =>
      if k in st.values then Err(DuplicateKey(st.block, k)) else Ok(st.(values := st.values[k := v]))
    case Ignored => Ok(st)
  }

  function Feed(st: Loader, kinds: seq<LineKind>): Result<Loader, ConfigError>
    decreases |kinds|
  {
    if kinds == [] then Ok(st)
    else
      var next :- Step(st, kinds[0]);
      Feed(next, kinds[1..])
  }

  /** The whole constructor on the classified lines of one file. */
  function ParseKinds(kinds: seq<LineKind>): Result<Config, ConfigError> {
    var st :- Feed(Loader("", map[], map[]), kinds);
    var blocks :- Flush(st);
    Ok(Config(blocks))
  }

  /** The whole constructor on the lines of one file. */
  function ParseConfig(lines: seq<string>): Result<Config, ConfigError> {
    ParseKinds(Kinds(lines))
  }

  /** `new Config(path)`: opening fails for the empty path and for a missing file. */
  function ReadConfig(fs: FileSystem, path: string): Result<Config, ConfigError> {
    if path == "" then Err(EmptyPath)
    else if path !in fs then Err(FileNotFound(path))
    else ParseConfig(fs[path])
  }

  /** One turn of `Feed`: the first kind is stepped, the rest fed on. */
  lemma FeedUnfold(st: Loader, kinds: seq<LineKind>, i: nat)
    requires i < |kinds|
    ensures Feed(st, kinds[i..]) == (match Step(st, kinds[i]) case Ok(next) => Feed(next, kinds[i + 1..]) case Err(e) => Err(e))
  {
    assert kinds[i..][0] == kinds[i] && kinds[i..][1..] == kinds[i + 1..];
  }

  /** The constructor `Config(path)`: opens the file and runs the line loop. */
  method Load(fs: FileSystem, path: string) returns (r: Result<Config, ConfigError>)
    ensures r == ReadConfig(fs, path)
  {
    if path == "" {
      return Err(EmptyPath);
    }
    if path !in fs {
      return Err(FileNotFound(path));
    }
    var lines := fs[path];
    var block := "";
    var values: map<string, string> := map[];
    var dict: map<string, ConfigBlock> := map[];
    var i := 0;
    while i < |lines|
      invariant 0 <= i <= |lines|
      invariant Feed(Loader("", map[], map[]), Kinds(lines)) == Feed(Loader(block, values, dict), Kinds(lines)[i..])
    {
      FeedUnfold(Loader(block, values, dict), Kinds(lines), i);
      match Classify(lines[i]) {
        case Comment =>
        case Header(name) =>
          if block in dict {
            return Err(DuplicateBlock(block));
          }
          dict := dict[block := MakeBlock(block, values)];
          block := name;
          values := map[];
        case Pair(k, v) =>
          if k in values {
            return Err(DuplicateKey(block, k));
          }
          values := values[k := v];
        case Ignored =>
      }
      i := i + 1;
    }
    if block in dict {
      return Err(DuplicateBlock(block));
    }
    dict := dict[block := MakeBlock(block, values)];
    return Ok(Config(dict));
  }

  // ---------------------------------------------------------------------
  // The format described by its sections
  // ---------------------------------------------------------------------

  /** The pairs written under one header (or before the first one, under ""). */
  datatype Section = Section(name: string, pairs: seq<(string, string)>)

  /** Groups the lines: a leading "" section, then one section per header, in file order. */
  function Sections(kinds: seq<LineKind>): (ss: seq<Section>)
    ensures |ss| >= 1 && ss[0].name == ""
  {
    if kinds == [] then [Section("", [])]
    else
      var ss := Sections(kinds[1..]);
      match kinds[0]
      case Header(name) => [Section("", []), Section(name, ss[0].pairs)] + ss[1..]
      case Pair(k, v) => [Section("", [(k, v)] + ss[0].pairs)] + ss[1..]
      case _ => ss
  }

  /** The header names of the file, in order. */
  function Headers(kinds: seq<LineKind>): seq<string> {
    if kinds == [] then []
    else match kinds[0]
      case Header(name) => [name] + Headers(kinds[1..])
      case _ => Headers(kinds[1..])
  }

  function Names(ss: seq<Section>): seq<string> {
    if ss == [] then [] else [ss[0].name] + Names(ss[1..])
  }

  /** Adds the pairs of one section to `values`, failing on a key seen before. */
  function AddPairs(block: string, values: map<string, string>, pairs: seq<(string, string)>)
    : Result<map<string, string>, ConfigError>
    decreases |pairs|
  {
    if pairs == [] then Ok(values)
    else if pairs[0].0 in values then Err(DuplicateKey(block, pairs[0].0))
    else AddPairs(block, values[pairs[0].0 := pairs[0].1], pairs[1..])
  }

  /** Stores one section's pairs under its name, failing on a name seen before. */
  function AddSection(blocks: map<string, ConfigBlock>, name: string, values: map<string, string>,
                      pairs: seq<(string, string)>): Result<map<string, ConfigBlock>, ConfigError>
  {
    var vals :- AddPairs(name, values, pairs);
    if name in blocks then Err(DuplicateBlock(name)) else Ok(blocks[name := MakeBlock(name, vals)])
  }

  /** Stores the sections in order. */
  function Build(blocks: map<string, ConfigBlock>, ss: seq<Section>): Result<map<string, ConfigBlock>, ConfigError>
    decreases |ss|
  {
    if ss == [] then Ok(blocks)
    else
      var next :- AddSection(blocks, ss[0].name, map[], ss[0].pairs);
      Build(next, ss[1..])
  }

  /** The rest of the constructor from a loop state: the remaining lines, then the final flush. */
  function FeedFlush(st: Loader, kinds: seq<LineKind>): Result<map<string, ConfigBlock>, ConfigError> {
    var last :- Feed(st, kinds);
    Flush(last)
  }

  /** The same from the sections of the remaining lines, the first continuing the current block. */
  function BuildFrom(st: Loader, ss: seq<Section>): Result<map<string, ConfigBlock>, ConfigError>
    requires |ss| >= 1
  {
    var next :- AddSection(st.blocks, st.block, st.values, ss[0].pairs);
    Build(next, ss[1..])
  }

  lemma {:induction false} FeedSections(st: Loader, kinds: seq<LineKind>)
    ensures FeedFlush(st, kinds) == BuildFrom(st, Sections(kinds))
    decreases |kinds|, 1
  {
    if kinds != [] {
      var rest := kinds[1..];
      match kinds[0]
      case Comment =>
        FeedSections(st, rest);
      case Ignored =>
        FeedSections(st, rest);
      case Header(name) =>
        FeedHeader(st, name, kinds);
      case Pair(k, v) =>
        FeedPair(st, k, v, kinds);
    }
  }

  /** A header line flushes the current block and opens the named one. */
  lemma {:induction false} FeedHeader(st: Loader, name: string, kinds: seq<LineKind>)
    requires kinds != [] && kinds[0] == Header(name)
    ensures FeedFlush(st, kinds) == BuildFrom(st, Sections(kinds))
    decreases |kinds|, 0
  {
    var rest := kinds[1..];
    var ss := Sections(rest);
    assert Sections(kinds) == [Section("", []), Section(name, ss[0].pairs)] + ss[1..];
    if st.block !in st.blocks {
      var st' := Loader(name, map[], st.blocks[st.block := MakeBlock(st.block, st.values)]);
      assert Step(st, kinds[0]) == Ok(st');
      FeedSections(st', rest);
      assert AddSection(st.blocks, st.block, st.values, []) == Ok(st'.blocks);
      assert Sections(kinds)[1..] == [Section(name, ss[0].pairs)] + ss[1..];
      assert ([Section(name, ss[0].pairs)] + ss[1..])[1..] == ss[1..];
    }
  }

  /** A pair line adds to the current block. */
  lemma {:induction false} FeedPair(st: Loader, k: string, v: string, kinds: seq<LineKind>)
    requires kinds != [] && kinds[0] == Pair(k, v)
    ensures FeedFlush(st, kinds) == BuildFrom(st, Sections(kinds))
    decreases |kinds|, 0
  {
    var rest := kinds[1..];
    var ss := Sections(rest);
    assert Sections(kinds) == [Section("", [(k, v)] + ss[0].pairs)] + ss[1..];
    if k !in st.values {
      FeedSections(st.(values := st.values[k := v]), rest);
      assert ([(k, v)] + ss[0].pairs)[1..] == ss[0].pairs;
    }
  }

  /** The constructor's loop stores exactly the sections of the file, in order. */
  lemma ParseConfigSections(kinds: seq<LineKind>)
    ensures ParseKinds(kinds) == (var blocks :- Build(map[], Sections(kinds)); Ok(Config(blocks)))
  {
    var st := Loader("", map[], map[]);
    FeedSections(st, kinds);
    var ss := Sections(kinds);
    assert Build(map[], ss) == BuildFrom(st, ss);
  }

  /** The block names are "" followed by the header names. */
  lemma {:induction false} SectionNames(kinds: seq<LineKind>)
    ensures Names(Sections(kinds)) == [""] + Headers(kinds)
  {
    if kinds != [] {
      SectionNames(kinds[1..]);
      var ss := Sections(kinds[1..]);
      var r := Sections(kinds);
      assert Names(ss) == [""] + Names(ss[1..]);
      assert Names(ss[1..]) == Headers(kinds[1..]) by {
        assert ([""] + Names(ss[1..]))[1..] == Names(ss[1..]);
        assert ([""] + Headers(kinds[1..]))[1..] == Headers(kinds[1..]);
      }
      assert Names(r) == [""] + Names(r[1..]);
      match kinds[0]
      case Header(name) =>
        assert r == [Section("", []), Section(name, ss[0].pairs)] + ss[1..];
        assert r[1..] == [Section(name, ss[0].pairs)] + ss[1..];
        assert r[1..][1..] == ss[1..];
        assert Names(r[1..]) == [name] + Names(ss[1..]);
        assert Headers(kinds) == [name] + Headers(kinds[1..]);
      case Pair(k, v) =>
        assert r == [Section("", [(k, v)] + ss[0].pairs)] + ss[1..];
        assert r[1..] == ss[1..];
      case _ =>
    }
  }

  // ---------------------------------------------------------------------
  // What a successful build holds, and when it fails
  // ---------------------------------------------------------------------

  function KeySet(pairs: seq<(string, string)>): set<string> {
    if pairs == [] then {} else {pairs[0].0} + KeySet(pairs[1..])
  }

  /** No key is written twice. */
  predicate DistinctKeys(pairs: seq<(string, string)>) {
    pairs == [] || (pairs[0].0 !in KeySet(pairs[1..]) && DistinctKeys(pairs[1..]))
  }

  /** No section name is in `used` or repeats, and no section repeats a key. */
  predicate WellFormed(used: set<string>, ss: seq<Section>)
    decreases |ss|
  {
    ss == [] ||
    (ss[0].name !in used && DistinctKeys(ss[0].pairs) && WellFormed(used + {ss[0].name}, ss[1..]))
  }

  lemma {:induction false} AddPairsSpec(block: string, values: map<string, string>, pairs: seq<(string, string)>)
    ensures AddPairs(block, values, pairs).Ok? <==> DistinctKeys(pairs) && KeySet(pairs) !! values.Keys
    ensures AddPairs(block, values, pairs).Ok? ==>
      var r := AddPairs(block, values, pairs).value;
      && r.Keys == values.Keys + KeySet(pairs)
      && (forall k :: k in values ==> r[k] == values[k])
    decreases |pairs|
  {
    if pairs != [] {
      AddPairsSpec(block, values[pairs[0].0 := pairs[0].1], pairs[1..]);
    }
  }

  lemma {:induction false} AddPairsAt(block: string, values: map<string, string>, pairs: seq<(string, string)>, j: nat)
    requires AddPairs(block, values, pairs).Ok? && j < |pairs|
    ensures pairs[j].0 in AddPairs(block, values, pairs).value
    ensures AddPairs(block, values, pairs).value[pairs[j].0] == pairs[j].1
    decreases |pairs|
  {
    var values' := values[pairs[0].0 := pairs[0].1];
    AddPairsSpec(block, values', pairs[1..]);
    if j > 0 {
      AddPairsAt(block, values', pairs[1..], j - 1);
    }
  }

  /** Storing sections succeeds exactly when no name is reused and no section repeats a key. */
  lemma {:induction false} BuildOk(blocks: map<string, ConfigBlock>, ss: seq<Section>)
    ensures Build(blocks, ss).Ok? <==> WellFormed(blocks.Keys, ss)
    decreases |ss|
  {
    if ss != [] {
      AddPairsSpec(ss[0].name, map[], ss[0].pairs);
      var r := AddSection(blocks, ss[0].name, map[], ss[0].pairs);
      if r.Ok? {
        assert r.value.Keys == blocks.Keys + {ss[0].name};
        BuildOk(r.value, ss[1..]);
      }
    }
  }

  /** A successful build keeps the earlier blocks and adds exactly the section names. */
  lemma {:induction false} BuildKeys(blocks: map<string, ConfigBlock>, ss: seq<Section>)
    requires Build(blocks, ss).Ok?
    ensures Build(blocks, ss).value.Keys == blocks.Keys + NameSet(ss)
    ensures forall k :: k in blocks ==> Build(blocks, ss).value[k] == blocks[k]
    decreases |ss|
  {
    if ss != [] {
      var next := AddSection(blocks, ss[0].name, map[], ss[0].pairs).value;
      BuildKeys(next, ss[1..]);
    }
  }

  function NameSet(ss: seq<Section>): set<string> {
    if ss == [] then {} else {ss[0].name} + NameSet(ss[1..])
  }

  /** A successful build stores section `i` under its name with exactly its pairs. */
  lemma {:induction false} BuildAt(blocks: map<string, ConfigBlock>, ss: seq<Section>, i: nat)
    requires Build(blocks, ss).Ok? && i < |ss|
    ensures AddPairs(ss[i].name, map[], ss[i].pairs).Ok?
    ensures ss[i].name in Build(blocks, ss).value
    ensures Build(blocks, ss).value[ss[i].name] == MakeBlock(ss[i].name, AddPairs(ss[i].name, map[], ss[i].pairs).value)
    decreases |ss|
  {
    var next := AddSection(blocks, ss[0].name, map[], ss[0].pairs).value;
    BuildKeys(next, ss[1..]);
    if i > 0 {
      BuildAt(next, ss[1..], i - 1);
    }
  }

  /** Well-formed sections have pairwise different names, none of them already used. */
  lemma {:induction false} WellFormedNames(used: set<string>, ss: seq<Section>, i: nat, j: nat)
    requires WellFormed(used, ss) && i < j < |ss|
    ensures ss[i].name != ss[j].name && ss[j].name !in used
    decreases |ss|
  {
    if i == 0 {
      WellFormedNamesFresh(used + {ss[0].name}, ss[1..], j - 1);
    } else {
      WellFormedNames(used + {ss[0].name}, ss[1..], i - 1, j - 1);
    }
  }

  lemma {:induction false} WellFormedNamesFresh(used: set<string>, ss: seq<Section>, j: nat)
    requires WellFormed(used, ss) && j < |ss|
    ensures ss[j].name !in used
    decreases |ss|
  {
    if j > 0 {
      WellFormedNamesFresh(used + {ss[0].name}, ss[1..], j - 1);
    }
  }

  // ---------------------------------------------------------------------
  // Consequences for a parsed file
  // ---------------------------------------------------------------------

  /**
   * A file parses exactly when its sections are well formed (no block name
   * repeats, the implicit "" block included, and no block repeats a key);
   * the parsed file then holds the "" block and one block per header.
   */
  lemma ParseConfigBlocks(kinds: seq<LineKind>)
    ensures ParseKinds(kinds).Ok? <==> WellFormed({}, Sections(kinds))
    ensures ParseKinds(kinds).Ok? ==> ParseKinds(kinds).value.blocks.Keys == {""} + NameSet(Sections(kinds))
  {
    ParseConfigSections(kinds);
    var ss := Sections(kinds);
    var empty: map<string, ConfigBlock> := map[];
    BuildOk(empty, ss);
    assert empty.Keys == {};
    assert ParseKinds(kinds).Ok? <==> Build(empty, ss).Ok?;
    if ParseKinds(kinds).Ok? {
      BuildKeys(empty, ss);
      assert ParseKinds(kinds).value.blocks == Build(empty, ss).value;
      assert NameSet(ss) == {""} + NameSet(ss[1..]);
    }
  }

  /** Two headers with the same name, or a header whose name trims to "", make the file fail. */
  lemma DuplicateHeaderFails(kinds: seq<LineKind>, i: nat, j: nat)
    requires i < j < |Names(Sections(kinds))|
    requires Names(Sections(kinds))[i] == Names(Sections(kinds))[j]
    ensures ParseKinds(kinds).Err?
  {
    ParseConfigBlocks(kinds);
    var ss := Sections(kinds);
    NamesAt(ss, i);
    NamesAt(ss, j);
    if WellFormed({}, ss) {
      WellFormedNames({}, ss, i, j);
    }
  }

  lemma {:induction false} NamesAt(ss: seq<Section>, i: nat)
    requires i < |Names(ss)|
    ensures |Names(ss)| == |ss| && Names(ss)[i] == ss[i].name
    decreases |ss|
  {
    if i > 0 {
      NamesAt(ss[1..], i - 1);
    } else {
      NamesLength(ss);
    }
  }

  lemma {:induction false} NamesLength(ss: seq<Section>)
    ensures |Names(ss)| == |ss|
    decreases |ss|
  {
    if ss != [] {
      NamesLength(ss[1..]);
    }
  }

  /**
   * In a parsed file, every pair written under a header (or before the first
   * one) is read back from that block as an existing value, so `Or` returns
   * it whatever the default.
   */
  lemma ParsedPairsReadBack(kinds: seq<LineKind>, i: nat, j: nat, d: string)
    requires ParseKinds(kinds).Ok?
    requires i < |Sections(kinds)| && j < |Sections(kinds)[i].pairs|
    ensures var c := ParseKinds(kinds).value;
            var s := Sections(kinds)[i];
            && s.name in c.blocks
            && c.blocks[s.name].TryGetString(s.pairs[j].0) == Some(s.pairs[j].1)
            && c.blocks[s.name].Index(s.pairs[j].0).Ok?
            && c.blocks[s.name].Index(s.pairs[j].0).value.Or(d) == s.pairs[j].1
  {
    var ss := Sections(kinds);
    var empty: map<string, ConfigBlock> := map[];
    ParseConfigSections(kinds);
    BuildAt(empty, ss, i);
    BuildKeys(empty, ss);
    NameSetHas(ss, i);
    var none: map<string, string> := map[];
    AddPairsSpec(ss[i].name, none, ss[i].pairs);
    KeySetHas(ss[i].pairs, j);
    AddPairsAt(ss[i].name, none, ss[i].pairs, j);
  }

  lemma {:induction false} NameSetHas(ss: seq<Section>, i: nat)
    requires i < |ss|
    ensures ss[i].name in NameSet(ss)
    decreases |ss|
  {
    if i > 0 {
      NameSetHas(ss[1..], i - 1);
    }
  }

  lemma {:induction false} KeySetHas(pairs: seq<(string, string)>, j: nat)
    requires j < |pairs|
    ensures pairs[j].0 in KeySet(pairs)
    decreases |pairs|
  {
    if j > 0 {
      KeySetHas(pairs[1..], j - 1);
    }
  }

  /**
   * Every value of a parsed file exists, so the indexer never yields a value
   * whose `Or` falls back to its default: a key is either present with its
   * text or the lookup throws.
   */
  lemma ParsedValuesExist(kinds: seq<LineKind>, name: string, key: string)
    requires ParseKinds(kinds).Ok? && name in ParseKinds(kinds).value.blocks
    ensures var b := ParseKinds(kinds).value.blocks[name];
            b.Index(key).Err? || b.Index(key).value.Exists()
  {
    ParseConfigSections(kinds);
    var empty: map<string, ConfigBlock> := map[];
    BuildKeys(empty, Sections(kinds));
    var i := NameSetIndex(Sections(kinds), name);
    BuildAt(empty, Sections(kinds), i);
  }

  lemma {:induction false} NameSetIndex(ss: seq<Section>, name: string) returns (i: nat)
    requires name in NameSet(ss)
    ensures i < |ss| && ss[i].name == name
    decreases |ss|
  {
    if ss[0].name == name {
      i := 0;
    } else {
      var k := NameSetIndex(ss[1..], name);
      i := k + 1;
    }
  }

  // ---------------------------------------------------------------------
  // `config[key].Or(d)`, as the plugins read their settings
  // ---------------------------------------------------------------------

  /** The lookup the plugins perform, and the one their defaults call for. */
  datatype Lookup = AsWritten | Intended

  /**
   * `config[key].Or(d)`: as written, the indexer throws for a missing key
   * before `Or` is reached; the intended reading falls back to `d`.
   */
  function Setting(block: ConfigBlock, key: string, d: string, mode: Lookup): Result<string, ConfigError> {
    if mode == AsWritten then
      var v :- block.Index(key);
      Ok(v.Or(d))
    else
      match block.TryGetValue(key)
      case Some(v) => Ok(v.Or(d))
      case None => Ok(d)
  }

  /** The two readings agree exactly when the key is present. */
  lemma SettingModes(block: ConfigBlock, key: string, d: string)
    ensures Setting(block, key, d, AsWritten).Ok? <==> key in block.dict
    ensures key in block.dict ==> Setting(block, key, d, AsWritten) == Setting(block, key, d, Intended)
    ensures key !in block.dict ==> Setting(block, key, d, AsWritten) == Err(KeyNotFound(key))
                                   && Setting(block, key, d, Intended) == Ok(d)
  {
  }

  /**
   * As written, a block read from a file never yields the default: the
   * lookup either throws or gives the stored text.
   */
  lemma ParsedSettingIgnoresDefault(kinds: seq<LineKind>, name: string, key: string, d: string)
    requires ParseKinds(kinds).Ok? && name in ParseKinds(kinds).value.blocks
    ensures var b := ParseKinds(kinds).value.blocks[name];
            Setting(b, key, d, AsWritten).Ok? ==> b.dict[key] == Present(Setting(b, key, d, AsWritten).value)
  {
    ParsedValuesExist(kinds, name, key);
  }

  /** The empty block the host falls back to: as written every lookup throws, as intended each gives its default. */
  lemma EmptyBlockSettings(name: string, key: string, d: string)
    ensures Setting(MakeBlock(name, map[]), key, d, AsWritten) == Err(KeyNotFound(key))
    ensures Setting(MakeBlock(name, map[]), key, d, Intended) == Ok(d)
  {
  }

  // ---------------------------------------------------------------------
  // Recognising simple lines
  // ---------------------------------------------------------------------

  predicate Plain(s: string) {
    forall i :: 0 <= i < |s| ==> !IsWhiteSpace(s[i]) && s[i] != '='
  }

  /**
   * `[name]` is a header named by the trimmed `name`, whatever `name` holds:
   * the header test comes before the pair test, so `[a=b]` is a header too.
   */
  lemma HeaderLine(name: string)
    ensures Classify("[" + name + "]") == Header(Trim(name))
  {
    var line := "[" + name + "]";
    assert line[0] == '[' && line[|line| - 1] == ']';
    assert TrimStart(line) == line;
    assert TrimEnd(line) == line;
    assert line[1..|line| - 1] == name;
  }

  /**
   * `key=value` with no other `=` is the pair of the trimmed key and the
   * trimmed value, unless the trimmed line is a comment (the key's first
   * visible character is `;`) or a header (that character is `[` and the
   * value's last visible character is `]`).
   */
  lemma PairLine(key: string, value: string)
    requires '=' !in key && '=' !in value
    requires !OpensWith(key, ';')
    requires !(OpensWith(key, '[') && ClosesWith(value, ']'))
    ensures Classify(key + "=" + value) == Pair(Trim(key), Trim(value))
  {
    PairLineVisible(key, value);
    PairLineSplit(key, value);
  }

  /** The first visible character of `s` is `c`. */
  predicate OpensWith(s: string, c: char) {
    TrimStart(s) != [] && TrimStart(s)[0] == c
  }

  /** The last visible character of `s` is `c`. */
  predicate ClosesWith(s: string, c: char) {
    TrimEnd(s) != [] && TrimEnd(s)[|TrimEnd(s)| - 1] == c
  }

  /** A `[` without a closing `]` opens no header: `[a=b` is the pair of `[a` and `b`. */
  lemma OpenBracketPair()
    ensures Classify("[a=b") == Pair("[a", "b")
  {
    assert "[a=b" == "[a" + "=" + "b";
    assert TrimStart("[a") == "[a" && TrimEnd("b") == "b";
    TrimNoWhiteSpace("[a");
    TrimNoWhiteSpace("b");
    PairLine("[a", "b");
  }

  /** The line `key=value` is neither a comment nor a header under those conditions. */
  lemma PairLineVisible(key: string, value: string)
    requires !OpensWith(key, ';')
    requires !(OpensWith(key, '[') && ClosesWith(value, ']'))
    ensures !IsComment(key + "=" + value) && TryParseName(key + "=" + value).None?
  {
    var line := key + "=" + value;
    var t := TrimStart(line);
    TrimStartPair(key, value);
    assert t != [] && t[0] != ';' && (t[0] == '[' <==> OpensWith(key, '[')) by {
      if TrimStart(key) == [] {
        assert t[0] == '=';
      } else {
        assert t[0] == TrimStart(key)[0];
      }
    }
    var r := Trim(line);
    TrimPair(key, value);
    assert r != [] && r[0] == t[0];
    assert r[|r| - 1] == ']' <==> ClosesWith(value, ']') by {
      if TrimEnd(value) == [] {
        assert r[|r| - 1] == '=';
      } else {
        assert r[|r| - 1] == TrimEnd(value)[|TrimEnd(value)| - 1];
      }
    }
  }

  /** Only the key's leading white space is dropped from `key=value`. */
  lemma TrimStartPair(key: string, value: string)
    ensures TrimStart(key + "=" + value) == TrimStart(key) + ("=" + value)
  {
    var rest := "=" + value;
    assert rest[0] == '=';
    assert key + "=" + value == key + rest;
    TrimStartAppend(key, rest);
  }

  /** Trimming `key=value` trims the front of the key and the back of the value. */
  lemma TrimPair(key: string, value: string)
    ensures Trim(key + "=" + value) == TrimStart(key) + "=" + TrimEnd(value)
  {
    TrimStartPair(key, value);
    var front := TrimStart(key) + "=";
    assert front[|front| - 1] == '=';
    SeqAssoc(TrimStart(key), "=", value);
    TrimEndPrepend(front, value);
  }

  /** `key=value` with no other `=` splits into the two parts, which are then trimmed. */
  lemma PairLineSplit(key: string, value: string)
    requires '=' !in key && '=' !in value
    ensures TryParseValue(key + "=" + value) == Some((Trim(key), Trim(value)))
  {
    var line := key + "=" + value;
    assert line == Join([key, value], "=");
    SplitJoin([key, value], '=');
    assert Join([key, value][1..], "=") == value;
  }

  /** A line's kind does not depend on its neighbours. */
  lemma KindsAppend(xs: seq<string>, ys: seq<string>)
    ensures Kinds(xs + ys) == Kinds(xs) + Kinds(ys)
  {
    var zs := xs + ys;
    forall i | 0 <= i < |zs|
      ensures Kinds(zs)[i] == (Kinds(xs) + Kinds(ys))[i]
    {
      if i < |xs| {
        assert zs[i] == xs[i];
      } else {
        assert zs[i] == ys[i - |xs|];
      }
    }
  }

  lemma KindsTwo(x: string, y: string)
    ensures Kinds([x, y]) == [Classify(x), Classify(y)]
  {
    var k := Kinds([x, y]);
    assert k[0] == Classify(x) && k[1] == Classify(y);
  }

  /** A header followed by one pair. */
  lemma HeaderPairKinds(name: string, key: string, value: string)
    requires Plain(name) && Plain(key) && Plain(value)
    requires key == [] || (key[0] != ';' && key[0] != '[')
    ensures Kinds(["[" + name + "]", key + "=" + value]) == [Header(name), Pair(key, value)]
  {
    KindsTwo("[" + name + "]", key + "=" + value);
    TrimNoWhiteSpace(name);
    TrimNoWhiteSpace(key);
    TrimNoWhiteSpace(value);
    assert '=' !in key && '=' !in value by {
      assert forall i :: 0 <= i < |key| ==> key[i] != '=';
      assert forall i :: 0 <= i < |value| ==> value[i] != '=';
    }
    HeaderLine(name);
    PairLine(key, value);
  }

  /** Two headers, each followed by one pair with the same key. */
  lemma TwoSectionKinds(a: string, b: string, key: string, v1: string, v2: string)
    requires Plain(a) && Plain(b) && Plain(key) && Plain(v1) && Plain(v2)
    requires key == [] || (key[0] != ';' && key[0] != '[')
    ensures Kinds(["[" + a + "]", key + "=" + v1, "[" + b + "]", key + "=" + v2])
         == [Header(a), Pair(key, v1), Header(b), Pair(key, v2)]
  {
    var first := ["[" + a + "]", key + "=" + v1];
    var second := ["[" + b + "]", key + "=" + v2];
    assert ["[" + a + "]", key + "=" + v1, "[" + b + "]", key + "=" + v2] == first + second;
    KindsAppend(first, second);
    HeaderPairKinds(a, key, v1);
    HeaderPairKinds(b, key, v2);
  }

  /** Those kinds make a file with the blocks "", `a` and `b`, holding `key` = `v1` and `v2`. */
  lemma TwoSectionParse(a: string, b: string, key: string, v1: string, v2: string)
    requires a != "" && b != "" && a != b
    ensures ParseKinds([Header(a), Pair(key, v1), Header(b), Pair(key, v2)])
         == Ok(Config(map["" := MakeBlock("", map[]), a := MakeBlock(a, map[key := v1]),
                          b := MakeBlock(b, map[key := v2])]))
  {
    var kinds := [Header(a), Pair(key, v1), Header(b), Pair(key, v2)];
    var st1 := Loader(a, map[], map["" := MakeBlock("", map[])]);
    var st2 := st1.(values := map[key := v1]);
    var st3 := Loader(b, map[], st2.blocks[a := MakeBlock(a, map[key := v1])]);
    var st4 := st3.(values := map[key := v2]);
    assert Feed(st4, []) == Ok(st4);
    assert Feed(st3, kinds[3..]) == Ok(st4);
    assert Feed(st2, kinds[2..]) == Ok(st4);
    assert Feed(st1, kinds[1..]) == Ok(st4);
    assert Feed(Loader("", map[], map[]), kinds) == Ok(st4);
  }

  /** Looking up the blocks of that file. */
  lemma TwoSectionLookup(a: string, b: string, key: string, v1: string, v2: string, other: string)
    requires a != "" && b != "" && a != b
    requires other != "" && other != a && other != b
    ensures var c := Config(map["" := MakeBlock("", map[]), a := MakeBlock(a, map[key := v1]),
                                b := MakeBlock(b, map[key := v2])]);
            && c.Index(a).Ok? && c.Index(a).value.TryGetString(key) == Some(v1)
            && c.Index(b).Ok? && c.Index(b).value.TryGetString(key) == Some(v2)
            && c.Index(other) == Err(KeyNotFound(other))
  {
  }

  /**
   * A file `[a]`, `key=v1`, `[b]`, `key=v2`: each block reads back its own
   * value for the shared key, and a block that was not written is not found.
   */
  lemma TwoSectionExample(a: string, b: string, key: string, v1: string, v2: string, other: string)
    requires Plain(a) && Plain(b) && Plain(key) && Plain(v1) && Plain(v2)
    requires key == [] || (key[0] != ';' && key[0] != '[')
    requires a != "" && b != "" && a != b
    requires other != "" && other != a && other != b
    ensures var c := ParseConfig(["[" + a + "]", key + "=" + v1, "[" + b + "]", key + "=" + v2]);
            && c.Ok?
            && c.value.Index(a).Ok? && c.value.Index(a).value.TryGetString(key) == Some(v1)
            && c.value.Index(b).Ok? && c.value.Index(b).value.TryGetString(key) == Some(v2)
            && c.value.Index(other) == Err(KeyNotFound(other))
  {
    TwoSectionKinds(a, b, key, v1, v2);
    TwoSectionParse(a, b, key, v1, v2);
    TwoSectionLookup(a, b, key, v1, v2, other);
  }
}

/**
 * The image viewer's stored settings (ImageAOT/Settings.cs): the folder
 * last opened, and the window rectangle last used for each recent image,
 * kept in two registry keys. A key is a map from value name to value.
 */
module Settings {
  import opened Wrappers
  import opened Text

  /** A registry value: a `REG_SZ` string, or a value of any kind that is not a string. */
  datatype RegValue = StringValue(s: string) | OtherValue

  /** `(string?)key.GetValue(name)` fails on a value that is not a string. */
  datatype SettingsError = InvalidCast(name: string)

  const LastLocationName := "last_location"

  /** `IsValueOfKind(name, RegistryValueKind.String)`. */
  predicate IsStringValue(key: map<string, RegValue>, name: string) {
    name in key && key[name].StringValue?
  }

  /** `RecentEntry(Path, X, Y, Width, Height)`. */
  datatype RecentEntry = RecentEntry(path: string, x: Int32, y: Int32, width: Int32, height: Int32)

  /** `RectangleString`: `X,Y,Width,Height` in decimal. */
  function RectangleString(e: RecentEntry): (r: string)
    ensures CountChar(r, ',') == 3
  {
    var parts := [FormatInt(e.x), FormatInt(e.y), FormatInt(e.width), FormatInt(e.height)];
    assert forall i :: 0 <= i < |parts| ==> ',' !in parts[i];
    SplitJoin(parts, ',');
    Join(parts, [','])
  }

  /**
   * The parse in `GetRecent`: exactly four comma-separated pieces, each an
   * `int` by `int.TryParse`; otherwise nothing.
   */
  function ParseRectangle(path: string, v: string): (r: Option<RecentEntry>)
    ensures r.Some? ==> r.value.path == path && CountChar(v, ',') == 3
  {
    var split := Split(v, ',');
    if |split| != 4 then None
    else
      var x := ParseInt32(split[0]);
      var y := ParseInt32(split[1]);
      var w := ParseInt32(split[2]);
      var h := ParseInt32(split[3]);
      if x.Parsed? && y.Parsed? && w.Parsed? && h.Parsed? then
        Some(RecentEntry(path, x.value, y.value, w.value, h.value))
      else None
  }

  /** The guard `GetRecent` applies before reading an entry. */
  datatype Guard =
    | LastLocationGuard   // as written: the root key's last_location must be a string
    | EntryKindGuard      // corrected: the entry itself must be a string

  /**
   * `GetRecent(path)` over the two keys: nothing, an entry, or the failed
   * cast of a value that is not a string.
   */
  function RecentLookup(root: map<string, RegValue>, recent: map<string, RegValue>, path: string, guard: Guard)
    : (r: Result<Option<RecentEntry>, SettingsError>)
    ensures r.Ok? && r.value.Some? ==> r.value.value.path == path && path in recent && recent[path].StringValue?
                                       && r.value == ParseRectangle(path, recent[path].s)
    ensures r.Err? ==> guard == LastLocationGuard && path in recent && recent[path] == OtherValue
  {
    match guard
    case LastLocationGuard =>
      if !IsStringValue(root, LastLocationName) then Ok(None)
      else if path !in recent then Ok(None)
      else (match recent[path]
        case OtherValue => Err(InvalidCast(path))
        case StringValue(v) => Ok(ParseRectangle(path, v)))
    case EntryKindGuard =>
      if IsStringValue(recent, path) then Ok(ParseRectangle(path, recent[path].s)) else Ok(None)
  }

  /** An entry the enumeration keeps: it parses and its image file exists. */
  predicate Kept(root: map<string, RegValue>, recent: map<string, RegValue>, path: string,
                 fileExists: string -> bool, guard: Guard)
  {
    var r := RecentLookup(root, recent, path, guard);
    r.Ok? && r.value.Some? && fileExists(path)
  }

  /** The entries kept, in the order of the value names. */
  function KeptEntries(root: map<string, RegValue>, recent: map<string, RegValue>, names: seq<string>,
                       fileExists: string -> bool, guard: Guard): seq<RecentEntry>
  {
    if names == [] then []
    else
      var rest := KeptEntries(root, recent, names[1..], fileExists, guard);
      if Kept(root, recent, names[0], fileExists, guard) then
        [RecentLookup(root, recent, names[0], guard).value.value] + rest
      else rest
  }

  /** Where the enumeration of `Recent` ends: entries yielded, the key left behind, and whether a cast failed. */
  datatype Enumeration = Enumeration(yielded: seq<RecentEntry>, recent: map<string, RegValue>, failed: bool)

  /**
   * The `Recent` getter: for each value name in turn, yield the entry when
   * it parses and its file exists, otherwise delete the value. `acc` holds
   * what was yielded before.
   */
  function Enumerate(root: map<string, RegValue>, recent: map<string, RegValue>, names: seq<string>,
                     fileExists: string -> bool, guard: Guard, acc: seq<RecentEntry>): Enumeration
    decreases |names|
  {
    if names == [] then Enumeration(acc, recent, false)
    else match RecentLookup(root, recent, names[0], guard)
      case Err(_) => Enumeration(acc, recent, true)
      case Ok(entry) =>
        if entry.Some? && fileExists(entry.value.path) then
          Enumerate(root, recent, names[1..], fileExists, guard, acc + [entry.value])
        else
          Enumerate(root, recent - {names[0]}, names[1..], fileExists, guard, acc)
  }

  /** One turn of `Enumerate` at position `i` of the names. */
  lemma EnumerateUnfold(root: map<string, RegValue>, recent: map<string, RegValue>, names: seq<string>, i: nat,
                        fileExists: string -> bool, guard: Guard, acc: seq<RecentEntry>)
    requires i < |names|
    ensures Enumerate(root, recent, names[i..], fileExists, guard, acc)
         == var lookup := RecentLookup(root, recent, names[i], guard);
            if lookup.Err? then Enumeration(acc, recent, true)
            else if lookup.value.Some? && fileExists(lookup.value.value.path) then
              Enumerate(root, recent, names[i + 1..], fileExists, guard, acc + [lookup.value.value])
            else
              Enumerate(root, recent - {names[i]}, names[i + 1..], fileExists, guard, acc)
  {
    assert names[i..][0] == names[i] && names[i..][1..] == names[i + 1..];
  }

  /** Every entry kept comes from a listed name, is kept, and is what looking that name up gives. */
  lemma {:induction false} KeptEntriesSound(root: map<string, RegValue>, recent: map<string, RegValue>,
                                            names: seq<string>, fileExists: string -> bool, guard: Guard)
    ensures forall e :: e in KeptEntries(root, recent, names, fileExists, guard) ==>
              e.path in names && Kept(root, recent, e.path, fileExists, guard)
              && RecentLookup(root, recent, e.path, guard) == Ok(Some(e))
  {
    if names != [] {
      KeptEntriesSound(root, recent, names[1..], fileExists, guard);
    }
  }

  /** The key after the `Recent` setter has written `entries` into `recent`, in order. */
  function Written(recent: map<string, RegValue>, entries: seq<RecentEntry>): map<string, RegValue>
    decreases |entries|
  {
    if entries == [] then recent
    else
      var last := entries[|entries| - 1];
      Written(recent, entries[..|entries| - 1])[last.path := StringValue(RectangleString(last))]
  }

  /** The two registry keys, `SOFTWARE\Foxy\IOT` and its `Recent` sub-key. */
  class Settings {
    var root: map<string, RegValue>
    var recent: map<string, RegValue>

    constructor(root: map<string, RegValue>, recent: map<string, RegValue>)
      ensures this.root == root && this.recent == recent
    {
      this.root := root;
      this.recent := recent;
    }

    /**
     * The `LastLocation` getter: a value that is not a string is deleted;
     * the stored folder, or the current directory when there is none.
     */
    method GetLastLocation(currentDirectory: string) returns (r: string)
      modifies this
      ensures recent == old(recent)
      ensures IsStringValue(old(root), LastLocationName) ==> r == old(root)[LastLocationName].s && root == old(root)
      ensures !IsStringValue(old(root), LastLocationName) ==>
                r == currentDirectory && root == old(root) - {LastLocationName}
    {
      if !IsStringValue(root, LastLocationName) {
        root := root - {LastLocationName};
      }
      if LastLocationName in root {
        r := root[LastLocationName].s;
      } else {
        r := currentDirectory;
      }
    }

    /** The `LastLocation` setter stores a string. */
    method SetLastLocation(value: string)
      modifies this
      ensures root == old(root)[LastLocationName := StringValue(value)] && recent == old(recent)
    {
      root := root[LastLocationName := StringValue(value)];
    }

    function GetRecent(path: string, guard: Guard): Result<Option<RecentEntry>, SettingsError>
      reads this
    {
      RecentLookup(root, recent, path, guard)
    }

    /** `SetRecent(entry)` overwrites that path's value and no other. */
    method SetRecent(e: RecentEntry)
      modifies this
      ensures recent == old(recent)[e.path := StringValue(RectangleString(e))] && root == old(root)
    {
      recent := recent[e.path := StringValue(RectangleString(e))];
    }

    /** `SetRecent(path, x, y, w, h)`. */
    method SetRecentRectangle(path: string, x: Int32, y: Int32, w: Int32, h: Int32)
      modifies this
      ensures recent == old(recent)[path := StringValue(RectangleString(RecentEntry(path, x, y, w, h)))]
      ensures root == old(root)
    {
      SetRecent(RecentEntry(path, x, y, w, h));
    }

    /**
     * Enumerating `Recent`, with `names` the value names in the order the
     * registry lists them. A failed cast ends the enumeration with the
     * deletions made so far.
     */
    method ReadRecent(names: seq<string>, fileExists: string -> bool, guard: Guard)
      returns (r: Result<seq<RecentEntry>, SettingsError>)
      modifies this
      ensures var en := Enumerate(old(root), old(recent), names, fileExists, guard, []);
              root == old(root) && recent == en.recent && r.Err? == en.failed && (r.Ok? ==> r.value == en.yielded)
    {
      var yielded: seq<RecentEntry> := [];
      var i := 0;
      while i < |names|
        invariant 0 <= i <= |names| && root == old(root)
        invariant Enumerate(root, old(recent), names, fileExists, guard, [])
               == Enumerate(root, recent, names[i..], fileExists, guard, yielded)
      {
        EnumerateUnfold(root, recent, names, i, fileExists, guard, yielded);
        var entry := GetRecent(names[i], guard);
        if entry.Err? {
          return Err(entry.error);
        }
        if entry.value.Some? && fileExists(entry.value.value.path) {
          yielded := yielded + [entry.value.value];
        } else {
          recent := recent - {names[i]};
        }
        i := i + 1;
      }
      return Ok(yielded);
    }

    /** The `Recent` setter: delete every value, then write the entries in order. */
    method WriteRecent(entries: seq<RecentEntry>)
      modifies this
      ensures recent == Written(map[], entries) && root == old(root)
    {
      while recent != map[]
        invariant root == old(root)
        decreases |recent.Keys|
      {
        var k :| k in recent;
        recent := recent - {k};
      }
      for i := 0 to |entries|
        invariant root == old(root)
        invariant recent == Written(map[], entries[..i])
      {
        assert entries[..i + 1][..i] == entries[..i];
        SetRecent(entries[i]);
      }
      assert entries[..|entries|] == entries;
    }
  }

  // ---------------------------------------------------------------------
  // Properties
  // ---------------------------------------------------------------------

  /** Parsing a rectangle string gives back the entry. */
  lemma RectangleRoundTrip(e: RecentEntry)
    ensures ParseRectangle(e.path, RectangleString(e)) == Some(e)
  {
    var parts := [FormatInt(e.x), FormatInt(e.y), FormatInt(e.width), FormatInt(e.height)];
    assert forall i :: 0 <= i < |parts| ==> ',' !in parts[i];
    SplitJoin(parts, ',');
    FormatParseInt32(e.x);
    FormatParseInt32(e.y);
    FormatParseInt32(e.width);
    FormatParseInt32(e.height);
  }

  /** A stored string without exactly three commas is no entry. */
  lemma WrongPieceCount(path: string, v: string)
    requires CountChar(v, ',') != 3
    ensures ParseRectangle(path, v) == None
  {
  }

  /**
   * Round trip: after `SetRecent(e)`, `GetRecent(e.path)` returns `e` when
   * the guard passes; as written, that needs a string `last_location`.
   */
  lemma SetThenGet(root: map<string, RegValue>, recent: map<string, RegValue>, e: RecentEntry, guard: Guard)
    requires guard == EntryKindGuard || IsStringValue(root, LastLocationName)
    ensures RecentLookup(root, recent[e.path := StringValue(RectangleString(e))], e.path, guard) == Ok(Some(e))
  {
    RectangleRoundTrip(e);
  }

  /** As written, without a string `last_location` every lookup finds nothing. */
  lemma NoLastLocationNoEntry(root: map<string, RegValue>, recent: map<string, RegValue>, path: string)
    requires !IsStringValue(root, LastLocationName)
    ensures RecentLookup(root, recent, path, LastLocationGuard) == Ok(None)
  {
  }

  /** A lookup depends only on the value under its own name. */
  lemma LookupFrame(root: map<string, RegValue>, recent: map<string, RegValue>, gone: string, path: string, guard: Guard)
    requires gone != path
    ensures RecentLookup(root, recent - {gone}, path, guard) == RecentLookup(root, recent, path, guard)
  {
  }

  lemma {:induction false} KeptEntriesFrame(root: map<string, RegValue>, recent: map<string, RegValue>, gone: string,
                                            names: seq<string>, fileExists: string -> bool, guard: Guard)
    requires gone !in names
    ensures KeptEntries(root, recent - {gone}, names, fileExists, guard) == KeptEntries(root, recent, names, fileExists, guard)
  {
    if names != [] {
      LookupFrame(root, recent, gone, names[0], guard);
      KeptEntriesFrame(root, recent, gone, names[1..], fileExists, guard);
    }
  }

  /** Some listed value is one the guard reads and cannot cast. */
  predicate SomeCastFails(root: map<string, RegValue>, recent: map<string, RegValue>, names: seq<string>, guard: Guard) {
    exists i :: 0 <= i < |names| && RecentLookup(root, recent, names[i], guard).Err?
  }

  lemma SomeCastFailsCons(root: map<string, RegValue>, recent: map<string, RegValue>, names: seq<string>, guard: Guard)
    requires names != []
    ensures SomeCastFails(root, recent, names, guard)
        <==> RecentLookup(root, recent, names[0], guard).Err? || SomeCastFails(root, recent, names[1..], guard)
  {
    if SomeCastFails(root, recent, names, guard) {
      var i :| 0 <= i < |names| && RecentLookup(root, recent, names[i], guard).Err?;
      assert i == 0 || names[1..][i - 1] == names[i];
    }
    if SomeCastFails(root, recent, names[1..], guard) {
      var i :| 0 <= i < |names[1..]| && RecentLookup(root, recent, names[1..][i], guard).Err?;
      assert names[i + 1] == names[1..][i];
    }
  }

  lemma {:induction false} SomeCastFailsFrame(root: map<string, RegValue>, recent: map<string, RegValue>, gone: string,
                                              names: seq<string>, guard: Guard)
    requires gone !in names
    ensures SomeCastFails(root, recent - {gone}, names, guard) == SomeCastFails(root, recent, names, guard)
  {
    if names != [] {
      LookupFrame(root, recent, gone, names[0], guard);
      SomeCastFailsCons(root, recent, names, guard);
      SomeCastFailsCons(root, recent - {gone}, names, guard);
      SomeCastFailsFrame(root, recent, gone, names[1..], guard);
    }
  }

  /** Value names under one key are distinct. */
  predicate Distinct(names: seq<string>) {
    forall i, j :: 0 <= i < j < |names| ==> names[i] != names[j]
  }

  lemma DistinctTail(names: seq<string>)
    requires names != [] && Distinct(names)
    ensures Distinct(names[1..]) && names[0] !in names[1..]
  {
    assert forall i :: 0 <= i < |names[1..]| ==> names[1..][i] == names[i + 1];
  }

  /** The enumeration fails exactly when some listed value fails its cast. */
  lemma {:induction false} EnumerateFails(root: map<string, RegValue>, recent: map<string, RegValue>, names: seq<string>,
                                          fileExists: string -> bool, guard: Guard, acc: seq<RecentEntry>)
    requires Distinct(names)
    ensures Enumerate(root, recent, names, fileExists, guard, acc).failed <==> SomeCastFails(root, recent, names, guard)
    decreases |names|
  {
    if names != [] {
      var n := names[0];
      DistinctTail(names);
      SomeCastFailsCons(root, recent, names, guard);
      var lookup := RecentLookup(root, recent, n, guard);
      if lookup.Ok? {
        if lookup.value.Some? && fileExists(lookup.value.value.path) {
          EnumerateFails(root, recent, names[1..], fileExists, guard, acc + [lookup.value.value]);
        } else {
          EnumerateFails(root, recent - {n}, names[1..], fileExists, guard, acc);
          SomeCastFailsFrame(root, recent, n, names[1..], guard);
        }
      }
    }
  }

  /** The three ways one step of the enumeration can go. */
  datatype StepKind = CastFailed | EntryKept(entry: RecentEntry) | EntryDropped

  /** One step of the enumeration, and the matching step of the kept entries. */
  lemma EnumerateStep(root: map<string, RegValue>, recent: map<string, RegValue>, names: seq<string>,
                      fileExists: string -> bool, guard: Guard, acc: seq<RecentEntry>) returns (step: StepKind)
    requires names != []
    ensures step.CastFailed? ==> Enumerate(root, recent, names, fileExists, guard, acc).failed
    ensures step.CastFailed? ==> Enumerate(root, recent, names, fileExists, guard, acc).recent == recent
    ensures step.EntryKept? ==>
              && Enumerate(root, recent, names, fileExists, guard, acc)
                 == Enumerate(root, recent, names[1..], fileExists, guard, acc + [step.entry])
              && KeptEntries(root, recent, names, fileExists, guard)
                 == [step.entry] + KeptEntries(root, recent, names[1..], fileExists, guard)
    ensures step.EntryDropped? ==>
              && Enumerate(root, recent, names, fileExists, guard, acc)
                 == Enumerate(root, recent - {names[0]}, names[1..], fileExists, guard, acc)
              && KeptEntries(root, recent, names, fileExists, guard)
                 == KeptEntries(root, recent, names[1..], fileExists, guard)
  {
    var lookup := RecentLookup(root, recent, names[0], guard);
    if lookup.Err? {
      step := CastFailed;
    } else if Kept(root, recent, names[0], fileExists, guard) {
      step := EntryKept(lookup.value.value);
    } else {
      step := EntryDropped;
    }
  }

  /** Without a failed cast, the entries yielded are the kept ones, in order, after `acc`. */
  lemma {:induction false} EnumerateYields(root: map<string, RegValue>, recent: map<string, RegValue>, names: seq<string>,
                                           fileExists: string -> bool, guard: Guard, acc: seq<RecentEntry>)
    requires Distinct(names)
    ensures var en := Enumerate(root, recent, names, fileExists, guard, acc);
            !en.failed ==> en.yielded == acc + KeptEntries(root, recent, names, fileExists, guard)
    decreases |names|
  {
    if names != [] {
      var step := EnumerateStep(root, recent, names, fileExists, guard, acc);
      DistinctTail(names);
      if step.EntryKept? {
        var e, rest := step.entry, KeptEntries(root, recent, names[1..], fileExists, guard);
        EnumerateYields(root, recent, names[1..], fileExists, guard, acc + [e]);
        assert acc + [e] + rest == acc + ([e] + rest) by {
          SeqAssoc(acc, [e], rest);
        }
      } else if step.EntryDropped? {
        EnumerateYields(root, recent - {names[0]}, names[1..], fileExists, guard, acc);
        KeptEntriesFrame(root, recent, names[0], names[1..], fileExists, guard);
      }
    }
  }

  /** Without a failed cast, a value survives exactly when it is unlisted or kept. */
  lemma {:induction false} EnumerateKeeps(root: map<string, RegValue>, recent: map<string, RegValue>, names: seq<string>,
                                          fileExists: string -> bool, guard: Guard, acc: seq<RecentEntry>)
    requires Distinct(names)
    ensures var en := Enumerate(root, recent, names, fileExists, guard, acc);
            !en.failed ==> forall k :: k in en.recent <==>
                             k in recent && (k in names ==> Kept(root, recent, k, fileExists, guard))
    decreases |names|
  {
    if names != [] {
      var step := EnumerateStep(root, recent, names, fileExists, guard, acc);
      DistinctTail(names);
      if step.EntryKept? {
        EnumerateKeeps(root, recent, names[1..], fileExists, guard, acc + [step.entry]);
      } else if step.EntryDropped? {
        var n := names[0];
        EnumerateKeeps(root, recent - {n}, names[1..], fileExists, guard, acc);
        forall k | k != n
          ensures Kept(root, recent - {n}, k, fileExists, guard) == Kept(root, recent, k, fileExists, guard)
        {
          LookupFrame(root, recent, n, k, guard);
        }
      }
    }
  }

  /** Surviving values are unchanged: the getter only deletes. */
  lemma {:induction false} EnumerateOnlyDeletes(root: map<string, RegValue>, recent: map<string, RegValue>, names: seq<string>,
                                                fileExists: string -> bool, guard: Guard, acc: seq<RecentEntry>)
    ensures var en := Enumerate(root, recent, names, fileExists, guard, acc);
            forall k :: k in en.recent ==> k in recent && en.recent[k] == recent[k]
    decreases |names|
  {
    if names != [] {
      var step := EnumerateStep(root, recent, names, fileExists, guard, acc);
      if step.EntryKept? {
        EnumerateOnlyDeletes(root, recent, names[1..], fileExists, guard, acc + [step.entry]);
      } else if step.EntryDropped? {
        EnumerateOnlyDeletes(root, recent - {names[0]}, names[1..], fileExists, guard, acc);
      }
    }
  }

  /**
   * The `Recent` getter, over distinct value names: it fails exactly when
   * some listed value is not a string and the guard reads it; otherwise it
   * yields the kept entries in order, deletes every listed value that is
   * not kept, and leaves every other value as it was.
   */
  lemma EnumerateSpec(root: map<string, RegValue>, recent: map<string, RegValue>, names: seq<string>,
                      fileExists: string -> bool, guard: Guard)
    requires Distinct(names)
    ensures var en := Enumerate(root, recent, names, fileExists, guard, []);
            && (en.failed <==> SomeCastFails(root, recent, names, guard))
            && (!en.failed ==> en.yielded == KeptEntries(root, recent, names, fileExists, guard))
            && (!en.failed ==> forall k :: k in en.recent <==>
                                 k in recent && (k in names ==> Kept(root, recent, k, fileExists, guard)))
            && (forall k :: k in en.recent ==> k in recent && en.recent[k] == recent[k])
  {
    EnumerateFails(root, recent, names, fileExists, guard, []);
    EnumerateYields(root, recent, names, fileExists, guard, []);
    EnumerateKeeps(root, recent, names, fileExists, guard, []);
    EnumerateOnlyDeletes(root, recent, names, fileExists, guard, []);
  }

  /**
   * As written, when `last_location` is missing or not a string,
   * enumerating `Recent` yields nothing and deletes every listed entry,
   * however well-formed.
   */
  lemma RecentWipedWithoutLastLocation(root: map<string, RegValue>, recent: map<string, RegValue>, names: seq<string>,
                                       fileExists: string -> bool)
    requires Distinct(names)
    requires !IsStringValue(root, LastLocationName)
    ensures var en := Enumerate(root, recent, names, fileExists, LastLocationGuard, []);
            !en.failed && en.yielded == [] && forall k :: k in names ==> k !in en.recent
  {
    EnumerateSpec(root, recent, names, fileExists, LastLocationGuard);
    NoKept(root, recent, names, fileExists);
  }

  lemma {:induction false} NoKept(root: map<string, RegValue>, recent: map<string, RegValue>, names: seq<string>,
                                  fileExists: string -> bool)
    requires !IsStringValue(root, LastLocationName)
    ensures KeptEntries(root, recent, names, fileExists, LastLocationGuard) == []
  {
    if names != [] {
      NoKept(root, recent, names[1..], fileExists);
    }
  }

  /**
   * Corrected: guarded by the entry's own kind, enumeration never fails and
   * keeps every entry written by `SetRecent` whose file exists, whatever
   * `last_location` holds.
   */
  lemma RecentKeptWithEntryGuard(root: map<string, RegValue>, recent: map<string, RegValue>, names: seq<string>,
                                 fileExists: string -> bool)
    requires Distinct(names)
    ensures var en := Enumerate(root, recent, names, fileExists, EntryKindGuard, []);
            && !en.failed
            && forall e: RecentEntry ::
                 e.path in recent && recent[e.path] == StringValue(RectangleString(e)) && fileExists(e.path)
                 ==> e.path in en.recent && en.recent[e.path] == recent[e.path]
  {
    EnumerateSpec(root, recent, names, fileExists, EntryKindGuard);
    forall e: RecentEntry | e.path in recent && recent[e.path] == StringValue(RectangleString(e)) && fileExists(e.path)
      ensures Kept(root, recent, e.path, fileExists, EntryKindGuard)
    {
      RectangleRoundTrip(e);
    }
  }

  /**
   * The `Recent` setter writes exactly the given paths, each holding the
   * rectangle of the last entry given for it.
   */
  lemma WrittenSpec(entries: seq<RecentEntry>)
    ensures forall k :: k in Written(map[], entries) <==> exists i :: 0 <= i < |entries| && entries[i].path == k
    ensures forall i :: 0 <= i < |entries| && (forall j :: i < j < |entries| ==> entries[j].path != entries[i].path)
              ==> Written(map[], entries)[entries[i].path] == StringValue(RectangleString(entries[i]))
  {
    WrittenKeys(entries);
    forall i | 0 <= i < |entries| && (forall j :: i < j < |entries| ==> entries[j].path != entries[i].path)
      ensures Written(map[], entries)[entries[i].path] == StringValue(RectangleString(entries[i]))
    {
      WrittenValue(entries, i);
    }
  }

  /** The setter writes exactly the paths of the given entries. */
  lemma {:induction false} WrittenKeys(entries: seq<RecentEntry>)
    ensures forall k :: k in Written(map[], entries) <==> exists i :: 0 <= i < |entries| && entries[i].path == k
    decreases |entries|
  {
    if entries != [] {
      var init := entries[..|entries| - 1];
      WrittenKeys(init);
      assert forall i :: 0 <= i < |init| ==> init[i] == entries[i];
    }
  }

  /** An entry not followed by another for its path is the one stored. */
  lemma {:induction false} WrittenValue(entries: seq<RecentEntry>, i: nat)
    requires i < |entries| && forall j :: i < j < |entries| ==> entries[j].path != entries[i].path
    ensures entries[i].path in Written(map[], entries)
    ensures Written(map[], entries)[entries[i].path] == StringValue(RectangleString(entries[i]))
    decreases |entries|
  {
    if i < |entries| - 1 {
      var init := entries[..|entries| - 1];
      assert forall j :: 0 <= j < |init| ==> init[j] == entries[j];
      WrittenValue(init, i);
    }
  }

  /**
   * Reading back what the setter wrote: every entry that is the last for
   * its path is found again (with a string `last_location`, as written).
   */
  lemma WriteThenRead(root: map<string, RegValue>, entries: seq<RecentEntry>, i: nat, guard: Guard)
    requires i < |entries| && forall j :: i < j < |entries| ==> entries[j].path != entries[i].path
    requires guard == EntryKindGuard || IsStringValue(root, LastLocationName)
    ensures RecentLookup(root, Written(map[], entries), entries[i].path, guard) == Ok(Some(entries[i]))
  {
    WrittenSpec(entries);
    RectangleRoundTrip(entries[i]);
  }
}

/** src/utils/config.ts: find the one configuration file of a project, parse it, and lay it
    over the built-in defaults with a deep merge.

    The file system is a map from candidate path (relative to the working directory) to what a
    read of that path gives; the JSON and YAML parsers are a parameter. */
module ConfigResolver {
  import opened Results
  import opened Text
  import opened Json
  import opened Constants

  /** `CONFIG_FILES`: the candidates, highest priority first. */
  const CONFIG_FILES: seq<string> := [
    ".kilde/config.yaml",
    ".kilde/config.yml",
    ".kilderc.yaml",
    ".kilderc.yml",
    ".kilderc.json",
    "kilde.config.json"
  ]

  /** What the file system reports for one path. */
  datatype FileState =
    | Missing                 // ENOENT for both `access` and `readFile`
    | Unreachable             // both fail with another code (ENOTDIR, EACCES on a parent)
    | Unreadable              // `access` succeeds, `readFile` fails (EISDIR, no read permission)
    | Readable(text: string)  // `readFile` returns the text

  type FileSystem = map<string, FileState>

  function StateOf(fs: FileSystem, path: string): FileState {
    if path in fs then fs[path] else Missing
  }

  datatype Format = JsonFormat | YamlFormat

  /** A parser either returns a value (any JSON value, `undefined` for an empty YAML document)
      or throws a syntax error. */
  datatype Parsed = Parsed(value: JVal) | SyntaxError(message: string)

  type Parser = (Format, string) -> Parsed

  /** The parse applied to a candidate's text, chosen by its extension; a name with neither
      extension would be tried as JSON and then as YAML. */
  function ParseCandidate(name: string, text: string, parse: Parser): Parsed {
    if EndsWith(name, ".json") then parse(JsonFormat, text)
    else if EndsWith(name, ".yaml") || EndsWith(name, ".yml") then parse(YamlFormat, text)
    else
      match parse(JsonFormat, text)
      case Parsed(v) => Parsed(v)
      case SyntaxError(_) => parse(YamlFormat, text)
  }

  /** Every candidate has a known extension, so the JSON-then-YAML fallback never runs. */
  lemma FallbackParseNeverRuns(i: nat)
    requires i < |CONFIG_FILES|
    ensures EndsWith(CONFIG_FILES[i], ".json") || EndsWith(CONFIG_FILES[i], ".yaml")
      || EndsWith(CONFIG_FILES[i], ".yml")
  {
  }

  /** What one iteration of the loader's loop does with a candidate: skip it silently, warn and
      go on, or return its parse. */
  datatype Attempt = Skip | Warn | Hit(value: JVal)

  function Try(fs: FileSystem, parse: Parser, name: string): Attempt {
    match StateOf(fs, name)
    case Missing => Skip
    case Unreachable => Warn
    case Unreadable => Warn
    case Readable(text) =>
      match ParseCandidate(name, text, parse)
      case Parsed(v) => Hit(v)
      case SyntaxError(_) => Warn
  }

  /** The file the loader settled on, if any, and the candidates it warned about, in order. */
  datatype Loaded = Found(path: string, value: JVal) | NoneFound

  datatype LoadReport = LoadReport(loaded: Loaded, warned: seq<string>)

  /** The loader's scan of `names`, as a function. */
  function Scan(fs: FileSystem, parse: Parser, names: seq<string>): LoadReport {
    if names == [] then LoadReport(NoneFound, [])
    else
      match Try(fs, parse, names[0])
      case Hit(v) => LoadReport(Found(names[0], v), [])
      case Skip => Scan(fs, parse, names[1..])
      case Warn =>
        var rest := Scan(fs, parse, names[1..]);
        LoadReport(rest.loaded, [names[0]] + rest.warned)
  }

  /** What `loadConfig` resolves to: the parsed value, or `null` when no candidate loaded. */
  function Returned(report: LoadReport): JVal {
    match report.loaded
    case Found(_, v) => v
    case NoneFound => JNull
  }

  /** One step of the scan, from position `i` of any candidate list. */
  lemma ScanStep(fs: FileSystem, parse: Parser, names: seq<string>, i: nat)
    requires i < |names|
    ensures var here := Scan(fs, parse, names[i..]);
      var rest := Scan(fs, parse, names[i + 1..]);
      && (Try(fs, parse, names[i]) == Skip ==> here == rest)
      && (Try(fs, parse, names[i]) == Warn ==> here == LoadReport(rest.loaded, [names[i]] + rest.warned))
      && (Try(fs, parse, names[i]).Hit? ==>
            here == LoadReport(Found(names[i], Try(fs, parse, names[i]).value), []))
  {
    assert names[i..][0] == names[i] && names[i..][1..] == names[i + 1..];
  }

  /** The loop of `loadConfig` over a candidate list: try each in order, return the first that
      reads and parses, warn about every other failure except a missing file. */
  method TryCandidates(fs: FileSystem, parse: Parser, names: seq<string>) returns (report: LoadReport)
    ensures report == Scan(fs, parse, names)
  {
    ghost var whole := Scan(fs, parse, names);
    var warned: seq<string> := [];
    var i := 0;
    assert names[0..] == names;
    while i < |names|
      invariant 0 <= i <= |names|
      invariant var rest := Scan(fs, parse, names[i..]);
        whole == LoadReport(rest.loaded, warned + rest.warned)
    {
      var name := names[i];
      ScanStep(fs, parse, names, i);
      ghost var rest := Scan(fs, parse, names[i + 1..]);
      match StateOf(fs, name) {
        case Missing =>
        case Unreachable =>
          warned := warned + [name];
        case Unreadable =>
          warned := warned + [name];
        case Readable(text) =>
          var parsed := ParseCandidate(name, text, parse);
          if parsed.Parsed? {
            return LoadReport(Found(name, parsed.value), warned);
          }
          warned := warned + [name];
      }
      assert whole == LoadReport(rest.loaded, warned + rest.warned);
      i := i + 1;
    }
    report := LoadReport(NoneFound, warned);
  }

  /** `loadConfig`: the loop above over `CONFIG_FILES`. */
  method LoadConfig(fs: FileSystem, parse: Parser) returns (report: LoadReport)
    ensures report == Scan(fs, parse, CONFIG_FILES)
  {
    report := TryCandidates(fs, parse, CONFIG_FILES);
  }

  /** The first candidate that reads and parses is the one returned. */
  lemma {:induction false} ScanReturnsFirstHit(fs: FileSystem, parse: Parser, names: seq<string>, i: nat)
    requires i < |names| && Try(fs, parse, names[i]).Hit?
    requires forall j | 0 <= j < i :: !Try(fs, parse, names[j]).Hit?
    ensures Scan(fs, parse, names).loaded == Found(names[i], Try(fs, parse, names[i]).value)
  {
    if i > 0 {
      assert !Try(fs, parse, names[0]).Hit?;
      ScanReturnsFirstHit(fs, parse, names[1..], i - 1);
    }
  }

  /** Conversely, a returned file is a candidate that parsed, and no earlier candidate did. */
  lemma {:induction false} ScanFoundIsFirstHit(fs: FileSystem, parse: Parser, names: seq<string>)
    returns (i: nat)
    requires Scan(fs, parse, names).loaded.Found?
    ensures i < |names| && Try(fs, parse, names[i]).Hit?
    ensures Scan(fs, parse, names).loaded == Found(names[i], Try(fs, parse, names[i]).value)
    ensures forall j | 0 <= j < i :: !Try(fs, parse, names[j]).Hit?
  {
    if Try(fs, parse, names[0]).Hit? {
      i := 0;
    } else {
      var k := ScanFoundIsFirstHit(fs, parse, names[1..]);
      i := k + 1;
    }
  }

  /** Nothing is returned exactly when no candidate reads and parses. */
  lemma {:induction false} ScanNoneFound(fs: FileSystem, parse: Parser, names: seq<string>)
    ensures Scan(fs, parse, names).loaded == NoneFound
      <==> forall j | 0 <= j < |names| :: !Try(fs, parse, names[j]).Hit?
  {
    if names != [] {
      ScanNoneFound(fs, parse, names[1..]);
      if !Try(fs, parse, names[0]).Hit? {
        assert forall j | 1 <= j < |names| :: names[j] == names[1..][j - 1];
      }
    }
  }

  /** Candidates after the one returned are never consulted: changing them changes nothing. */
  lemma {:induction false} ScanIgnoresLaterCandidates(
    fs: FileSystem, fs': FileSystem, parse: Parser, names: seq<string>, i: nat)
    requires i < |names| && Try(fs, parse, names[i]).Hit?
    requires forall j | 0 <= j <= i :: StateOf(fs, names[j]) == StateOf(fs', names[j])
    ensures Scan(fs', parse, names) == Scan(fs, parse, names)
  {
    if i > 0 && !Try(fs, parse, names[0]).Hit? {
      ScanIgnoresLaterCandidates(fs, fs', parse, names[1..], i - 1);
    }
  }

  /** Missing files are skipped silently: every warned candidate exists in some form and failed. */
  lemma {:induction false} ScanWarnsOnlyFailures(fs: FileSystem, parse: Parser, names: seq<string>)
    ensures forall w | w in Scan(fs, parse, names).warned ::
      w in names && StateOf(fs, w) != Missing && Try(fs, parse, w) == Warn
  {
    if names != [] {
      ScanWarnsOnlyFailures(fs, parse, names[1..]);
    }
  }

  /** When nothing loads, every candidate that exists but failed has been warned about. */
  lemma {:induction false} ScanWarnsEveryFailure(fs: FileSystem, parse: Parser, names: seq<string>)
    requires Scan(fs, parse, names).loaded == NoneFound
    ensures forall j | 0 <= j < |names| && Try(fs, parse, names[j]) == Warn ::
      names[j] in Scan(fs, parse, names).warned
  {
    if names != [] {
      ScanWarnsEveryFailure(fs, parse, names[1..]);
      assert forall j | 1 <= j < |names| :: names[j] == names[1..][j - 1];
    }
  }

  /** `deepMerge(target, source)` on the source's own entries: keys of the target, plus the
      source's keys whose value is defined. */
  function MergeEntries(t: Obj, src: Obj): Obj
    decreases JObj(src), 1
  {
    map k | k in t.Keys + DefinedKeys(src) :: MergedAt(t, src, k)
  }

  /** The value `deepMerge` leaves at key `k`: two plain objects merge recursively, any other
      defined source value replaces the target's, an undefined one leaves it. */
  function MergedAt(t: Obj, src: Obj, k: string): JVal
    requires k in t || k in DefinedKeys(src)
    decreases JObj(src), 0
  {
    if k in src && src[k].JObj? && k in t && t[k].JObj? then
      JObj(MergeEntries(t[k].fields, src[k].fields))
    else if k in src && src[k] != JUndef then src[k]
    else t[k]
  }

  /** `deepMerge(target, source)`, with `for…in` visiting the source's own entries. */
  function Merge(t: Obj, s: JVal): Obj {
    MergeEntries(t, OwnEntries(s))
  }

  /** The merge restricted to the source keys in `done`: what `result` holds part-way. */
  function MergedPart(t: Obj, src: Obj, done: set<string>): Obj
    requires done <= src.Keys
  {
    map k | k in t.Keys + (DefinedKeys(src) * done) ::
      if k in done then MergedAt(t, src, k) else t[k]
  }

  /** `deepMerge`: copy the target, then update the copy key by key from the source. */
  method DeepMerge(target: Obj, source: JVal) returns (result: Obj)
    ensures result == Merge(target, source)
    decreases JObj(OwnEntries(source))
  {
    result := target;
    var src := OwnEntries(source);
    var pending := src.Keys;
    MergedPartNone(target, src);
    while pending != {}
      invariant pending <= src.Keys
      invariant result == MergedPart(target, src, src.Keys - pending)
      decreases pending
    {
      var key :| key in pending;
      ghost var done := src.Keys - pending;
      MergedPartStep(target, src, done, key);
      var sourceValue := src[key];
      var targetValue := Get(result, key);
      if sourceValue.JObj? && targetValue.JObj? {
        var merged := DeepMerge(targetValue.fields, sourceValue);
        result := result[key := JObj(merged)];
      } else if sourceValue != JUndef {
        result := result[key := sourceValue];
      }
      pending := pending - {key};
      assert src.Keys - pending == done + {key};
    }
    assert src.Keys - pending == src.Keys;
    MergedPartComplete(target, src);
  }

  /** Before any source key is done, the partial merge is the target. */
  lemma MergedPartNone(t: Obj, src: Obj)
    ensures MergedPart(t, src, {}) == t
  {
    assert MergedPart(t, src, {}).Keys == t.Keys;
  }

  /** Once every source key is done, the partial merge is the merge. */
  lemma MergedPartComplete(t: Obj, src: Obj)
    ensures MergedPart(t, src, src.Keys) == MergeEntries(t, src)
  {
    var a := MergedPart(t, src, src.Keys);
    var b := MergeEntries(t, src);
    assert a.Keys == b.Keys;
    forall k | k in a
      ensures a[k] == b[k]
    {
      if k !in src {
        assert MergedAt(t, src, k) == t[k];
      }
    }
  }

  /** Doing one more source key updates the partial merge at that key alone. */
  lemma MergedPartStep(t: Obj, src: Obj, done: set<string>, key: string)
    requires done <= src.Keys && key in src && key !in done
    ensures Get(MergedPart(t, src, done), key) == Get(t, key)
    ensures src[key].JObj? && Get(t, key).JObj? ==>
      MergedAt(t, src, key) == JObj(Merge(Get(t, key).fields, src[key]))
    ensures src[key] != JUndef && !(src[key].JObj? && Get(t, key).JObj?) ==>
      MergedAt(t, src, key) == src[key]
    ensures src[key] != JUndef ==>
      MergedPart(t, src, done + {key}) == MergedPart(t, src, done)[key := MergedAt(t, src, key)]
    ensures src[key] == JUndef ==> MergedPart(t, src, done + {key}) == MergedPart(t, src, done)
  {
    var before := MergedPart(t, src, done);
    var after := MergedPart(t, src, done + {key});
    if src[key].JObj? {
      assert OwnEntries(src[key]) == src[key].fields;
    }
    if src[key] == JUndef {
      assert after.Keys == before.Keys;
      forall k | k in after
        ensures after[k] == before[k]
      {
      }
    } else {
      var updated := before[key := MergedAt(t, src, key)];
      assert after.Keys == updated.Keys;
      forall k | k in after
        ensures after[k] == updated[k]
      {
      }
    }
  }

  /** Per key, the merge does what `deepMerge` promises. */
  lemma MergeAtKey(t: Obj, s: JVal, k: string)
    ensures k in Merge(t, s) <==> k in t || k in DefinedKeys(OwnEntries(s))
    ensures k in t && k !in DefinedKeys(OwnEntries(s)) ==> Merge(t, s)[k] == t[k]
    ensures var src := OwnEntries(s);
      k in src && src[k].JObj? && k in t && t[k].JObj? ==>
        Merge(t, s)[k] == JObj(Merge(t[k].fields, src[k]))
    ensures var src := OwnEntries(s);
      k in src && src[k] != JUndef && !(src[k].JObj? && k in t && t[k].JObj?) ==>
        Merge(t, s)[k] == src[k]
  {
    var src := OwnEntries(s);
    if k in Merge(t, s) {
      assert Merge(t, s)[k] == MergedAt(t, src, k);
      if k in src && src[k].JObj? {
        assert OwnEntries(src[k]) == src[k].fields;
      }
    }
  }

  /** Arrays, `null`, `false` and `0` from the source replace the target's value wholesale;
      `undefined` never does. */
  lemma MergeReplacement(t: Obj, src: Obj, k: string)
    ensures k in src && (src[k].JArr? || src[k] == JNull || src[k] == JBool(false) || src[k] == JNum(0))
      ==> MergeEntries(t, src)[k] == src[k]
    ensures k in t && k in src && src[k] == JUndef ==> MergeEntries(t, src)[k] == t[k]
    ensures k !in t && k in src && src[k] == JUndef ==> k !in MergeEntries(t, src)
  {
  }

  /** The value at a non-empty key path of an object. */
  function At(m: Obj, path: seq<string>): Option<JVal>
    requires |path| >= 1
    decreases |path|
  {
    if path[0] !in m then None
    else if |path| == 1 then Some(m[path[0]])
    else if m[path[0]].JObj? then At(m[path[0]].fields, path[1..])
    else None
  }

  /** A defined, non-object leaf of the source is what the merge holds at that path. */
  lemma {:induction false} SourceLeafWins(t: Obj, src: Obj, path: seq<string>, v: JVal)
    requires |path| >= 1 && At(src, path) == Some(v)
    requires v != JUndef && !v.JObj?
    ensures At(MergeEntries(t, src), path) == Some(v)
    decreases |path|
  {
    var k := path[0];
    if |path| > 1 {
      var sub := src[k].fields;
      if k in t && t[k].JObj? {
        SourceLeafWins(t[k].fields, sub, path[1..], v);
      } else {
        assert k in DefinedKeys(src);
        assert MergeEntries(t, src)[k] == src[k];
      }
    } else {
      assert k in DefinedKeys(src);
    }
  }

  /** The source leaves a path untouched when at no point along it does it hold a defined
      value other than a plain object, and it holds nothing defined at the end. */
  predicate Untouched(src: Obj, path: seq<string>)
    requires |path| >= 1
    decreases |path|
  {
    var k := path[0];
    || k !in src
    || src[k] == JUndef
    || (|path| > 1 && src[k].JObj? && Untouched(src[k].fields, path[1..]))
  }

  /** A target leaf survives wherever the source leaves its path untouched. */
  lemma {:induction false} TargetLeafSurvives(t: Obj, src: Obj, path: seq<string>, v: JVal)
    requires |path| >= 1 && At(t, path) == Some(v)
    requires Untouched(src, path)
    ensures At(MergeEntries(t, src), path) == Some(v)
    decreases |path|
  {
    var k := path[0];
    if k in src && src[k] != JUndef {
      assert |path| > 1 && src[k].JObj? && t[k].JObj?;
      TargetLeafSurvives(t[k].fields, src[k].fields, path[1..], v);
    }
  }

  /** Merging an object over itself changes nothing. */
  lemma {:induction false} MergeSelf(t: Obj)
    ensures MergeEntries(t, t) == t
    decreases JObj(t)
  {
    forall k | k in t
      ensures MergedAt(t, t, k) == t[k]
    {
      if t[k].JObj? {
        MergeSelf(t[k].fields);
      }
    }
  }

  /** `mergeWithDefaults`: a falsy fragment (`null`, `undefined`, `false`, `0`, `''`) gives the
      defaults themselves; anything else is deep-merged over them. */
  function MergeWithDefaults(config: JVal): Obj {
    if !Truthy(config) then KildeDefaults() else Merge(KildeDefaults(), config)
  }

  /** The defaults survive every merge: the result has all their keys, and an absent or falsy
      fragment yields them exactly. */
  lemma MergeWithDefaultsKeepsDefaults(config: JVal)
    ensures KildeDefaults().Keys <= MergeWithDefaults(config).Keys
    ensures !Truthy(config) ==> MergeWithDefaults(config) == KildeDefaults()
  {
  }

  /** `getEffectiveConfig`: load, then merge with the defaults. */
  function EffectiveConfig(fs: FileSystem, parse: Parser): Obj {
    MergeWithDefaults(Returned(Scan(fs, parse, CONFIG_FILES)))
  }

  /** `getEffectiveConfig` as the program runs it: the loader, then the merge. */
  method GetEffectiveConfig(fs: FileSystem, parse: Parser) returns (config: Obj)
    ensures config == EffectiveConfig(fs, parse)
    ensures KildeDefaults().Keys <= config.Keys
  {
    var loaded := LoadConfig(fs, parse);
    config := MergeWithDefaults(Returned(loaded));
    MergeWithDefaultsKeepsDefaults(Returned(loaded));
  }

  /** With no candidate present the effective configuration is exactly the defaults. */
  lemma EffectiveConfigOfEmptyDirectory(parse: Parser)
    ensures EffectiveConfig(map[], parse) == KildeDefaults()
  {
    ScanNoneFound(map[], parse, CONFIG_FILES);
  }

  /** Candidates absent from the file system are all skipped without a warning. */
  lemma {:induction false} ScanAllMissing(fs: FileSystem, parse: Parser, names: seq<string>)
    requires forall j | 0 <= j < |names| :: names[j] !in fs
    ensures Scan(fs, parse, names) == LoadReport(NoneFound, [])
  {
    if names != [] {
      assert Try(fs, parse, names[0]) == Skip;
      ScanAllMissing(fs, parse, names[1..]);
    }
  }

  /** The effective configuration is the defaults merged with the first candidate that loads. */
  lemma EffectiveConfigOfHit(fs: FileSystem, parse: Parser, i: nat)
    requires i < |CONFIG_FILES| && Try(fs, parse, CONFIG_FILES[i]).Hit?
    requires forall j | 0 <= j < i :: !Try(fs, parse, CONFIG_FILES[j]).Hit?
    ensures EffectiveConfig(fs, parse) == MergeWithDefaults(Try(fs, parse, CONFIG_FILES[i]).value)
  {
    ScanReturnsFirstHit(fs, parse, CONFIG_FILES, i);
  }

  /** A malformed top-priority file with nothing else present falls through to the defaults,
      with exactly one warning. */
  lemma MalformedOnlyCandidate(text: string, parse: Parser)
    requires parse(YamlFormat, text).SyntaxError?
    ensures var fs := map[".kilde/config.yaml" := Readable(text)];
      && Scan(fs, parse, CONFIG_FILES) == LoadReport(NoneFound, [".kilde/config.yaml"])
      && EffectiveConfig(fs, parse) == KildeDefaults()
  {
    var fs := map[".kilde/config.yaml" := Readable(text)];
    assert Try(fs, parse, CONFIG_FILES[0]) == Warn;
    ScanAllMissing(fs, parse, CONFIG_FILES[1..]);
  }

  /** `.kilderc.json` holding `{"verbose": true, "commit": {"sendit": true}}` turns on verbose
      and sendit and inherits every other default. */
  lemma RcJsonScenario(text: string, parse: Parser)
    requires parse(JsonFormat, text) ==
      Parsed(JObj(map["verbose" := JBool(true), "commit" := JObj(map["sendit" := JBool(true)])]))
    ensures var eff := EffectiveConfig(map[".kilderc.json" := Readable(text)], parse);
      && At(eff, ["verbose"]) == Some(JBool(true))
      && At(eff, ["commit", "sendit"]) == Some(JBool(true))
      && At(eff, ["commit", "add"]) == Some(JBool(false))
      && At(eff, ["debug"]) == Some(JBool(false))
  {
    var fs := map[".kilderc.json" := Readable(text)];
    var frag := map["verbose" := JBool(true), "commit" := JObj(map["sendit" := JBool(true)])];
    assert forall j | 0 <= j < 4 :: CONFIG_FILES[j] !in fs;
    assert Try(fs, parse, CONFIG_FILES[4]) == Hit(JObj(frag));
    EffectiveConfigOfHit(fs, parse, 4);
    DefaultsOverlay(frag);
  }

  /** A defined, non-object leaf of a loaded configuration wins over the default. */
  lemma FileLeafWins(frag: Obj, path: seq<string>, v: JVal)
    requires |path| >= 1 && At(frag, path) == Some(v)
    requires v != JUndef && !v.JObj?
    ensures At(MergeWithDefaults(JObj(frag)), path) == Some(v)
  {
    MergeWithDefaultsOfObject(frag);
    SourceLeafWins(KildeDefaults(), frag, path, v);
  }

  /** A default leaf survives unless the loaded configuration touches its path. */
  lemma DefaultLeafSurvives(frag: Obj, path: seq<string>, v: JVal)
    requires |path| >= 1 && At(KildeDefaults(), path) == Some(v)
    requires Untouched(frag, path)
    ensures At(MergeWithDefaults(JObj(frag)), path) == Some(v)
  {
    MergeWithDefaultsOfObject(frag);
    TargetLeafSurvives(KildeDefaults(), frag, path, v);
  }

  /** A loaded object is merged entry by entry over the defaults. */
  lemma MergeWithDefaultsOfObject(frag: Obj)
    ensures MergeWithDefaults(JObj(frag)) == MergeEntries(KildeDefaults(), frag)
  {
    assert OwnEntries(JObj(frag)) == frag;
  }

  /** The merge part of the scenario above. */
  lemma DefaultsOverlay(frag: Obj)
    requires frag == map["verbose" := JBool(true), "commit" := JObj(map["sendit" := JBool(true)])]
    ensures var eff := MergeWithDefaults(JObj(frag));
      && At(eff, ["verbose"]) == Some(JBool(true))
      && At(eff, ["commit", "sendit"]) == Some(JBool(true))
      && At(eff, ["commit", "add"]) == Some(JBool(false))
      && At(eff, ["debug"]) == Some(JBool(false))
  {
    FileLeafWins(frag, ["verbose"], JBool(true));
    FileLeafWins(frag, ["commit", "sendit"], JBool(true));
    DefaultLeafSurvives(frag, ["commit", "add"], JBool(false));
    DefaultLeafSurvives(frag, ["debug"], JBool(false));
  }

  /** An array in the file replaces the default array; it is not appended to it. */
  lemma ArrayReplacesDefault(text: string, parse: Parser)
    requires parse(YamlFormat, text) ==
      Parsed(JObj(map["discoveredConfigDirs" := JArr([JStr("custom-dir")], map[])]))
    ensures At(EffectiveConfig(map[".kilde/config.yaml" := Readable(text)], parse),
      ["discoveredConfigDirs"]) == Some(JArr([JStr("custom-dir")], map[]))
  {
    var fs := map[".kilde/config.yaml" := Readable(text)];
    var frag := map["discoveredConfigDirs" := JArr([JStr("custom-dir")], map[])];
    assert Try(fs, parse, CONFIG_FILES[0]) == Hit(JObj(frag));
    EffectiveConfigOfHit(fs, parse, 0);
    FileLeafWins(frag, ["discoveredConfigDirs"], JArr([JStr("custom-dir")], map[]));
  }

  /** A present file is accessible whether or not it can be read or parsed. */
  predicate Accessible(state: FileState) {
    state.Unreadable? || state.Readable?
  }

  /** `configFileExists`: whether some candidate is accessible, without reading it. */
  method ConfigFileExists(fs: FileSystem) returns (found: bool)
    ensures found <==> exists i | 0 <= i < |CONFIG_FILES| :: Accessible(StateOf(fs, CONFIG_FILES[i]))
  {
    var i := 0;
    while i < |CONFIG_FILES|
      invariant 0 <= i <= |CONFIG_FILES|
      invariant forall j | 0 <= j < i :: !Accessible(StateOf(fs, CONFIG_FILES[j]))
    {
      if Accessible(StateOf(fs, CONFIG_FILES[i])) {
        return true;
      }
      i := i + 1;
    }
    return false;
  }

  /** Whenever a file loads, a file exists; the converse fails for a malformed file. */
  lemma LoadedImpliesExists(fs: FileSystem, parse: Parser)
    requires Scan(fs, parse, CONFIG_FILES).loaded.Found?
    ensures exists i | 0 <= i < |CONFIG_FILES| :: Accessible(StateOf(fs, CONFIG_FILES[i]))
  {
    var i := ScanFoundIsFirstHit(fs, parse, CONFIG_FILES);
    assert Accessible(StateOf(fs, CONFIG_FILES[i]));
  }

  /** `path.join(dir, name)` for a name without `.` or `..` segments. */
  function JoinPath(dir: string, name: string): string {
    if dir == "" then name else if EndsWith(dir, "/") then dir + name else dir + "/" + name
  }

  /** The template `createSampleConfig` serialises: the commonly tuned fields only. */
  function SampleConfig(): (sample: Obj)
    ensures At(sample, ["commit", "messageLimit"]) == Some(JNum(3))
    ensures At(sample, ["commit", "maxDiffBytes"]) == Some(JNum(20480))
    ensures At(sample, ["release", "messageLimit"]) == Some(JNum(3))
    ensures At(sample, ["release", "maxDiffBytes"]) == Some(JNum(20480))
  {
    map[
      "verbose" := JBool(false),
      "debug" := JBool(false),
      "model" := JStr("gpt-4o-mini"),
      "openaiReasoning" := JStr("low"),
      "outputDirectory" := JStr("output/kilde"),
      "commit" := JObj(map[
        "sendit" := JBool(false),
        "interactive" := JBool(false),
        "messageLimit" := JNum(3),
        "maxDiffBytes" := JNum(20480)
      ]),
      "release" := JObj(map[
        "interactive" := JBool(false),
        "messageLimit" := JNum(3),
        "maxDiffBytes" := JNum(20480)
      ])
    ]
  }

  /** Where `saveSampleConfig` writes, relative to the working directory. */
  const SAMPLE_CONFIG_FILE: string := ".kilde/config.yaml"

  /** The directory `path.join` puts in front of a name: none for an empty working directory,
      the directory itself when it already ends in a separator, the directory and a separator
      otherwise. */
  function DirPrefix(cwd: string): string {
    if cwd == "" || EndsWith(cwd, "/") then cwd else cwd + "/"
  }

  /** Joining `.kilde` and then `config.yaml` onto the working directory lands on the sample
      file's relative path under that directory. */
  lemma KildeUnderCwd(cwd: string)
    ensures JoinPath(cwd, ".kilde") == DirPrefix(cwd) + ".kilde"
  {
  }

  lemma ConfigUnderKilde(d: string)
    requires EndsWith(d, ".kilde")
    ensures JoinPath(d, "config.yaml") == d + "/" + "config.yaml"
  {
    assert d[|d| - 1] == ".kilde"[5];
  }

  lemma SamplePathSpelled(pre: string)
    ensures pre + ".kilde" + "/" + "config.yaml" == pre + SAMPLE_CONFIG_FILE
  {
    assert SAMPLE_CONFIG_FILE == ".kilde" + "/" + "config.yaml";
    AppendAssoc(pre, ".kilde", "/");
    AppendAssoc(pre, ".kilde" + "/", "config.yaml");
  }

  lemma SamplePathUnderCwd(cwd: string)
    ensures JoinPath(JoinPath(cwd, ".kilde"), "config.yaml") == DirPrefix(cwd) + SAMPLE_CONFIG_FILE
  {
    var d := DirPrefix(cwd) + ".kilde";
    KildeUnderCwd(cwd);
    assert EndsWith(d, ".kilde");
    ConfigUnderKilde(d);
    SamplePathSpelled(DirPrefix(cwd));
  }

  /** `saveSampleConfig`: write the serialised template to `.kilde/config.yaml`, replacing what
      was there, and return its path; a failing `mkdir` or write is rethrown. Every other file
      is left as it was. The file system holds files only, so the `.kilde` directory that
      `mkdir` creates is not part of the state. */
  function SaveSampleConfig(cwd: string, fs: FileSystem, dump: Obj -> string, writeError: Option<string>)
    : (r: Result<(string, FileSystem)>)
    ensures r.Ok? <==> writeError.None?
    ensures r.Err? ==> r == Err(writeError.value)
    ensures r.Ok? ==> r.value.0 == DirPrefix(cwd) + CONFIG_FILES[0]
    ensures r.Ok? ==> StateOf(r.value.1, CONFIG_FILES[0]) == Readable(dump(SampleConfig()))
    ensures r.Ok? ==> forall p | p != CONFIG_FILES[0] :: StateOf(r.value.1, p) == StateOf(fs, p)
  {
    match writeError
    case Some(e) => Err(e)
    case None =>
      SamplePathUnderCwd(cwd);
      Ok((JoinPath(JoinPath(cwd, ".kilde"), "config.yaml"),
          fs[SAMPLE_CONFIG_FILE := Readable(dump(SampleConfig()))]))
  }

  /** Saving the sample and loading the same directory yields the template's message limits and
      diff ceilings, whatever else the directory holds, provided the YAML dump parses back. */
  lemma SampleRoundTrip(cwd: string, fs: FileSystem, dump: Obj -> string, parse: Parser)
    requires parse(YamlFormat, dump(SampleConfig())) == Parsed(JObj(SampleConfig()))
    ensures var saved := SaveSampleConfig(cwd, fs, dump, None).value.1;
      var eff := EffectiveConfig(saved, parse);
      && At(eff, ["commit", "messageLimit"]) == Some(JNum(3))
      && At(eff, ["commit", "maxDiffBytes"]) == Some(JNum(20480))
      && At(eff, ["release", "messageLimit"]) == Some(JNum(3))
      && At(eff, ["release", "maxDiffBytes"]) == Some(JNum(20480))
  {
    var saved := SaveSampleConfig(cwd, fs, dump, None).value.1;
    assert EffectiveConfig(saved, parse) == MergeWithDefaults(JObj(SampleConfig())) by {
      assert Try(saved, parse, CONFIG_FILES[0]) == Hit(JObj(SampleConfig()));
      EffectiveConfigOfHit(saved, parse, 0);
    }
    FileLeafWins(SampleConfig(), ["commit", "messageLimit"], JNum(3));
    FileLeafWins(SampleConfig(), ["commit", "maxDiffBytes"], JNum(20480));
    FileLeafWins(SampleConfig(), ["release", "messageLimit"], JNum(3));
    FileLeafWins(SampleConfig(), ["release", "maxDiffBytes"], JNum(20480));
  }
}

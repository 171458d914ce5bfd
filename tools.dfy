/** The two tools the MCP server offers: how a tool call's arguments become a run configuration,
    which command it is handed to, and what the call replies. */
module McpTools {
  import opened Results
  import opened Json
  import opened Constants
  import Release
  import Application

  const TOOL_COMMIT: string := "kilde_commit"
  const TOOL_RELEASE: string := "kilde_release"

  /** A reply item; the only kind the tools produce is text. */
  datatype TextItem = TextItem(text: string)

  /** The file a release call writes when it names an output path. */
  datatype FileWrite = FileWrite(path: JVal, content: string)

  datatype ToolReply = ToolReply(content: seq<TextItem>, written: Option<FileWrite>)

  // ---------------------------------------------------------------------------------------
  // The configuration a tool call builds

  /** `args.<k> ?? false`. */
  function FlagOrFalse(args: Obj, k: string): JVal {
    Coalesce(Get(args, k), JBool(false))
  }

  /** The configuration every tool call starts from: the directory fields, then every entry of
      the server's configuration when it has one, then the three logging and preview flags. */
  function BaseToolConfig(args: Obj, contextConfig: Option<Obj>): Obj {
    (map["configDirectory" := JStr(DEFAULT_CONFIG_DIR),
        "discoveredConfigDirs" := JArr([], map[]),
        "resolvedConfigDirs" := JArr([], map[])]
    + contextConfig.GetOr(map[])
    )["dryRun" := FlagOrFalse(args, "dryRun")]
     ["verbose" := FlagOrFalse(args, "verbose")]
     ["debug" := FlagOrFalse(args, "debug")]
  }

  /** The `commit` section of a `kilde_commit` call. */
  function CommitSection(args: Obj): Obj {
    map["add" := FlagOrFalse(args, "add"),
        "cached" := FlagOrFalse(args, "cached"),
        "sendit" := FlagOrFalse(args, "sendit"),
        "interactive" := FlagOrFalse(args, "interactive"),
        "amend" := FlagOrFalse(args, "amend"),
        "context" := Get(args, "context"),
        "contextFiles" := Get(args, "contextFiles")]
  }

  /** The `release` section of a `kilde_release` call, before the optional fields. */
  function ReleaseFields(args: Obj): Obj {
    map["from" := Get(args, "fromTag"),
        "to" := Coalesce(Get(args, "toTag"), JStr("HEAD")),
        "interactive" := FlagOrFalse(args, "interactive"),
        "focus" := Get(args, "focus"),
        "context" := Get(args, "context"),
        "contextFiles" := Get(args, "contextFiles")]
  }

  /** `version` and `output` join the release section only when truthy. */
  function ReleaseSection(args: Obj): Obj {
    var version := Get(args, "version");
    var output := Get(args, "output");
    var withVersion := if Truthy(version) then ReleaseFields(args)["version" := version] else ReleaseFields(args);
    if Truthy(output) then withVersion["output" := output] else withVersion
  }

  /** The configuration handed to the command a tool names. */
  function ToolConfig(name: string, args: Obj, contextConfig: Option<Obj>): Obj {
    var base := BaseToolConfig(args, contextConfig);
    if name == TOOL_COMMIT then base["commit" := JObj(CommitSection(args))]
    else if name == TOOL_RELEASE then base["release" := JObj(ReleaseSection(args))]
    else base
  }

  /** The arguments a tool call reads, in the order its schema lists them. */
  function ArgumentsRead(name: string): seq<string> {
    if name == TOOL_COMMIT then
      ["add", "cached", "sendit", "interactive", "amend", "context", "contextFiles", "dryRun", "verbose", "debug"]
    else if name == TOOL_RELEASE then
      ["fromTag", "toTag", "version", "output", "interactive", "focus", "context", "contextFiles",
       "dryRun", "verbose", "debug"]
    else ["dryRun", "verbose", "debug"]
  }

  // ---------------------------------------------------------------------------------------
  // executeTool

  /** `executeTool(name, args, context)`, with the server's configuration as `contextConfig`
      and the commit and release commands as parameters. A command's error is rethrown as it
      is; a name that is neither tool throws. */
  method ExecuteTool(name: string, args: Obj, contextConfig: Option<Obj>,
                     commit: Obj -> Application.Completion<string>,
                     release: Obj -> Application.Completion<Release.Summary>)
    returns (c: Application.Completion<ToolReply>)
    ensures name != TOOL_COMMIT && name != TOOL_RELEASE ==>
      c == Application.Threw(Application.JsError("Error", Some("Unknown tool: " + name)))
    ensures name == TOOL_COMMIT ==>
      match commit(ToolConfig(name, args, contextConfig))
      case Normal(summary) => c == Application.Normal(ToolReply([TextItem(summary)], None))
      case Threw(e) => c == Application.Threw(e)
    ensures name == TOOL_RELEASE ==>
      match release(ToolConfig(name, args, contextConfig))
      case Normal(s) =>
        c == Application.Normal(ToolReply([TextItem(Release.Markdown(s))],
          if Truthy(Get(args, "output")) then Some(FileWrite(Get(args, "output"), Release.Markdown(s))) else None))
      case Threw(e) => c == Application.Threw(e)
  {
    var config := BaseToolConfig(args, contextConfig);
    if name == TOOL_COMMIT {
      config := config["commit" := JObj(CommitSection(args))];
      var r := commit(config);
      match r {
        case Normal(summary) =>
          c := Application.Normal(ToolReply([TextItem(summary)], None));
        case Threw(e) =>
          c := Application.Threw(e);
      }
    } else if name == TOOL_RELEASE {
      var section := ReleaseFields(args);
      if Truthy(Get(args, "version")) {
        section := section["version" := Get(args, "version")];
      }
      if Truthy(Get(args, "output")) {
        section := section["output" := Get(args, "output")];
      }
      config := config["release" := JObj(section)];
      var r := release(config);
      match r {
        case Normal(s) =>
          var notes := Release.Markdown(s);
          var written := None;
          if Truthy(Get(args, "output")) {
            written := Some(FileWrite(Get(args, "output"), notes));
          }
          c := Application.Normal(ToolReply([TextItem(notes)], written));
        case Threw(e) =>
          c := Application.Threw(e);
      }
    } else {
      c := Application.Threw(Application.JsError("Error", Some("Unknown tool: " + name)));
    }
  }

  // ---------------------------------------------------------------------------------------
  // Properties of the tool configuration

  /** A tool's section is the only key that tells the tools' configurations apart. */
  lemma OutsideSections(name: string, args: Obj, contextConfig: Option<Obj>, k: string)
    requires k != "commit" && k != "release"
    ensures Get(ToolConfig(name, args, contextConfig), k) == Get(BaseToolConfig(args, contextConfig), k)
  {
  }

  /** The three flags come from the call, `false` when absent, whatever the server's
      configuration says. */
  lemma CallFlagsOverride(name: string, args: Obj, contextConfig: Option<Obj>)
    ensures var c := ToolConfig(name, args, contextConfig);
      && Get(c, "dryRun") == FlagOrFalse(args, "dryRun") && !IsNullish(Get(c, "dryRun"))
      && Get(c, "verbose") == FlagOrFalse(args, "verbose") && !IsNullish(Get(c, "verbose"))
      && Get(c, "debug") == FlagOrFalse(args, "debug") && !IsNullish(Get(c, "debug"))
  {
    OutsideSections(name, args, contextConfig, "dryRun");
    OutsideSections(name, args, contextConfig, "verbose");
    OutsideSections(name, args, contextConfig, "debug");
  }

  /** The directory fields take the server configuration's values when it has them, and the
      built-in ones otherwise. */
  lemma DirectoryFields(name: string, args: Obj, contextConfig: Option<Obj>)
    ensures var c := ToolConfig(name, args, contextConfig);
      var server := contextConfig.GetOr(map[]);
      && Get(c, "configDirectory") == (if "configDirectory" in server then server["configDirectory"] else JStr(".kilde"))
      && Get(c, "discoveredConfigDirs") == (if "discoveredConfigDirs" in server then server["discoveredConfigDirs"] else JArr([], map[]))
      && Get(c, "resolvedConfigDirs") == (if "resolvedConfigDirs" in server then server["resolvedConfigDirs"] else JArr([], map[]))
  {
    OutsideSections(name, args, contextConfig, "configDirectory");
    OutsideSections(name, args, contextConfig, "discoveredConfigDirs");
    OutsideSections(name, args, contextConfig, "resolvedConfigDirs");
  }

  /** Every other entry of the server's configuration passes through, unless the call's flags
      or the tool's own section replace it. */
  lemma ServerEntriesPassThrough(name: string, args: Obj, contextConfig: Option<Obj>, k: string)
    requires contextConfig.Some? && k in contextConfig.value
    requires k != "dryRun" && k != "verbose" && k != "debug" && k != "commit" && k != "release"
    ensures Get(ToolConfig(name, args, contextConfig), k) == contextConfig.value[k]
  {
    OutsideSections(name, args, contextConfig, k);
  }

  /** Without a server configuration the tool path starts from nothing but the directory fields
      and the three flags: neither the built-in defaults nor a configuration file reach it. */
  lemma ToolPathSkipsDefaults(name: string, args: Obj)
    ensures ToolConfig(name, args, None).Keys
      == {"configDirectory", "discoveredConfigDirs", "resolvedConfigDirs", "dryRun", "verbose", "debug"}
        + (if name == TOOL_COMMIT then {"commit"} else if name == TOOL_RELEASE then {"release"} else {})
  {
    var base := BaseToolConfig(args, None);
    assert base.Keys == {"configDirectory", "discoveredConfigDirs", "resolvedConfigDirs", "dryRun", "verbose", "debug"};
  }

  /** The command-line path always carries a model setting, from the built-in defaults; the
      tool path without a server configuration leaves it undefined. */
  lemma OnlyCommandLineHasModel(name: string, args: Obj)
    ensures Get(KildeDefaults(), "model") == JStr(DEFAULT_MODEL)
    ensures Get(ToolConfig(name, args, None), "model") == JUndef
  {
    OutsideSections(name, args, None, "model");
  }

  /** `kilde_commit`: the five switches are `false` unless the call gives them, and the context
      fields pass through, present even when absent from the call. */
  lemma CommitToolSection(args: Obj, contextConfig: Option<Obj>)
    ensures var s := CommitSection(args);
      && Get(ToolConfig(TOOL_COMMIT, args, contextConfig), "commit") == JObj(s)
      && s.Keys == {"add", "cached", "sendit", "interactive", "amend", "context", "contextFiles"}
      && s["add"] == (if IsNullish(Get(args, "add")) then JBool(false) else args["add"])
      && s["cached"] == (if IsNullish(Get(args, "cached")) then JBool(false) else args["cached"])
      && s["sendit"] == (if IsNullish(Get(args, "sendit")) then JBool(false) else args["sendit"])
      && s["interactive"] == (if IsNullish(Get(args, "interactive")) then JBool(false) else args["interactive"])
      && s["amend"] == (if IsNullish(Get(args, "amend")) then JBool(false) else args["amend"])
      && s["context"] == Get(args, "context") && s["contextFiles"] == Get(args, "contextFiles")
  {
  }

  /** Only `version` and `output` are added to the release section after it is built. */
  lemma ReleaseSectionKeeps(args: Obj, k: string)
    requires k != "version" && k != "output"
    ensures Get(ReleaseSection(args), k) == Get(ReleaseFields(args), k)
  {
  }

  /** `kilde_release`: the start ref is the call's `fromTag`, the end ref its `toTag` or HEAD. */
  lemma ReleaseToolRefs(args: Obj, contextConfig: Option<Obj>)
    ensures var s := ReleaseSection(args);
      && Get(ToolConfig(TOOL_RELEASE, args, contextConfig), "release") == JObj(s)
      && Get(s, "from") == Get(args, "fromTag")
      && Get(s, "to") == (if IsNullish(Get(args, "toTag")) then JStr("HEAD") else args["toTag"])
      && Get(s, "interactive") == (if IsNullish(Get(args, "interactive")) then JBool(false) else args["interactive"])
      && Get(s, "focus") == Get(args, "focus")
  {
    ReleaseSectionKeeps(args, "from");
    ReleaseSectionKeeps(args, "to");
    ReleaseSectionKeeps(args, "interactive");
    ReleaseSectionKeeps(args, "focus");
  }

  /** `version` and `output` appear in the release section exactly when the call gives them
      truthy, with the call's values. */
  lemma ReleaseToolOptionals(args: Obj)
    ensures var s := ReleaseSection(args);
      && ("version" in s <==> Truthy(Get(args, "version")))
      && ("output" in s <==> Truthy(Get(args, "output")))
      && ("version" in s ==> s["version"] == args["version"])
      && ("output" in s ==> s["output"] == args["output"])
  {
    assert "version" !in ReleaseFields(args) && "output" !in ReleaseFields(args);
  }

  /** Two calls' arguments agree on the given names. */
  predicate AgreeOn(a1: Obj, a2: Obj, keys: seq<string>) {
    forall i | 0 <= i < |keys| :: Get(a1, keys[i]) == Get(a2, keys[i])
  }

  /** The configuration depends on the arguments the tool declares and on nothing else the
      caller sends. */
  lemma ToolReadsOnlyItsArguments(name: string, a1: Obj, a2: Obj, contextConfig: Option<Obj>)
    requires AgreeOn(a1, a2, ArgumentsRead(name))
    ensures ToolConfig(name, a1, contextConfig) == ToolConfig(name, a2, contextConfig)
  {
    var keys := ArgumentsRead(name);
    var n := |keys|;
    assert keys[n - 3] == "dryRun" && Get(a1, keys[n - 3]) == Get(a2, keys[n - 3]);
    assert keys[n - 2] == "verbose" && Get(a1, keys[n - 2]) == Get(a2, keys[n - 2]);
    assert keys[n - 1] == "debug" && Get(a1, keys[n - 1]) == Get(a2, keys[n - 1]);
    BaseReadsFlags(a1, a2, contextConfig);
    if name == TOOL_COMMIT {
      assert keys[0] == "add" && Get(a1, keys[0]) == Get(a2, keys[0]);
      assert keys[1] == "cached" && Get(a1, keys[1]) == Get(a2, keys[1]);
      assert keys[2] == "sendit" && Get(a1, keys[2]) == Get(a2, keys[2]);
      assert keys[3] == "interactive" && Get(a1, keys[3]) == Get(a2, keys[3]);
      assert keys[4] == "amend" && Get(a1, keys[4]) == Get(a2, keys[4]);
      assert keys[5] == "context" && Get(a1, keys[5]) == Get(a2, keys[5]);
      assert keys[6] == "contextFiles" && Get(a1, keys[6]) == Get(a2, keys[6]);
      CommitSectionReads(a1, a2);
    } else if name == TOOL_RELEASE {
      assert keys[0] == "fromTag" && Get(a1, keys[0]) == Get(a2, keys[0]);
      assert keys[1] == "toTag" && Get(a1, keys[1]) == Get(a2, keys[1]);
      assert keys[2] == "version" && Get(a1, keys[2]) == Get(a2, keys[2]);
      assert keys[3] == "output" && Get(a1, keys[3]) == Get(a2, keys[3]);
      assert keys[4] == "interactive" && Get(a1, keys[4]) == Get(a2, keys[4]);
      assert keys[5] == "focus" && Get(a1, keys[5]) == Get(a2, keys[5]);
      assert keys[6] == "context" && Get(a1, keys[6]) == Get(a2, keys[6]);
      assert keys[7] == "contextFiles" && Get(a1, keys[7]) == Get(a2, keys[7]);
      ReleaseSectionReads(a1, a2);
    }
  }

  lemma BaseReadsFlags(a1: Obj, a2: Obj, contextConfig: Option<Obj>)
    requires Get(a1, "dryRun") == Get(a2, "dryRun") && Get(a1, "verbose") == Get(a2, "verbose") && Get(a1, "debug") == Get(a2, "debug")
    ensures BaseToolConfig(a1, contextConfig) == BaseToolConfig(a2, contextConfig)
  {
  }

  lemma CommitSectionReads(a1: Obj, a2: Obj)
    requires Get(a1, "add") == Get(a2, "add") && Get(a1, "cached") == Get(a2, "cached") && Get(a1, "sendit") == Get(a2, "sendit") && Get(a1, "interactive") == Get(a2, "interactive") && Get(a1, "amend") == Get(a2, "amend") && Get(a1, "context") == Get(a2, "context") && Get(a1, "contextFiles") == Get(a2, "contextFiles")
    ensures CommitSection(a1) == CommitSection(a2)
  {
  }

  lemma ReleaseSectionReads(a1: Obj, a2: Obj)
    requires Get(a1, "fromTag") == Get(a2, "fromTag") && Get(a1, "toTag") == Get(a2, "toTag") && Get(a1, "version") == Get(a2, "version") && Get(a1, "output") == Get(a2, "output") && Get(a1, "interactive") == Get(a2, "interactive") && Get(a1, "focus") == Get(a2, "focus") && Get(a1, "context") == Get(a2, "context") && Get(a1, "contextFiles") == Get(a2, "contextFiles")
    ensures ReleaseSection(a1) == ReleaseSection(a2)
  {
    assert ReleaseFields(a1) == ReleaseFields(a2);
  }

  /** What the release generator is asked for on the tool path: the call's refs, focus and
      version. */
  lemma ToolReleaseRequest(args: Obj, contextConfig: Option<Obj>, defaultFrom: JVal, fromFiles: string)
    ensures var q := Release.PlanRelease(ToolConfig(TOOL_RELEASE, args, contextConfig), defaultFrom, fromFiles);
      && q.fromRef == (if IsNullish(Get(args, "fromTag")) then defaultFrom else args["fromTag"])
      && q.toRef == (if IsNullish(Get(args, "toTag")) then JStr("HEAD") else args["toTag"])
      && q.releaseFocus == Get(args, "focus")
      && q.targetVersion == (if Truthy(Get(args, "version")) then args["version"] else JUndef)
  {
    ReleaseToolRefs(args, contextConfig);
    ReleaseToolOptionals(args);
  }

  /** On the tool path without a server configuration the diff limit and the exclusions are
      the built-in ones, supplied by the release command itself. */
  lemma ToolReleaseLimits(args: Obj, defaultFrom: JVal, fromFiles: string)
    ensures var q := Release.PlanRelease(ToolConfig(TOOL_RELEASE, args, None), defaultFrom, fromFiles);
      && q.maxDiffBytes == JNum(DEFAULT_MAX_DIFF_BYTES)
      && q.excludedPatterns == StringList(DEFAULT_EXCLUDED_PATTERNS)
  {
    OutsideSections(TOOL_RELEASE, args, None, "excludedPatterns");
    ReleaseToolRefs(args, None);
    ReleaseSectionKeeps(args, "maxDiffBytes");
  }

  /** The tool path has no commit-message limit, since nothing supplies the defaults that
      would set one, and runs 30 agent iterations. */
  lemma ToolReleaseNoMessageLimit(args: Obj, contextConfig: Option<Obj>, defaultFrom: JVal, fromFiles: string)
    ensures var q := Release.PlanRelease(ToolConfig(TOOL_RELEASE, args, contextConfig), defaultFrom, fromFiles);
      && q.messageLimit == JUndef
      && q.maxIterations == JNum(30)
  {
    ReleaseToolRefs(args, contextConfig);
    ReleaseSectionKeeps(args, "messageLimit");
    ReleaseSectionKeeps(args, "maxAgenticIterations");
  }

  /** A release reply is the saved notes: a heading line with the title, then the body, and the
      file written, when one is, holds the same text. */
  lemma ReleaseReplyIsNotes(s: Release.Summary, output: JVal)
    requires '\n' !in s.title
    ensures var notes := Release.Markdown(s);
      && notes == "# " + s.title + "\n\n" + s.body
      && Text.Split(notes, '\n')[0] == "# " + s.title
  {
    Release.MarkdownHeading(s);
  }

  // ---------------------------------------------------------------------------------------
  // getTools

  /** One declared argument: its name, JSON type, description, and the element type of an array. */
  datatype Property = Property(name: string, kind: string, description: string, items: Option<string>)
  datatype InputSchema = InputSchema(kind: string, properties: seq<Property>)
  datatype Tool = Tool(name: string, description: string, inputSchema: InputSchema)

  function Boolean(name: string, description: string): Property { Property(name, "boolean", description, None) }
  function Str(name: string, description: string): Property { Property(name, "string", description, None) }
  function StringArray(name: string, description: string): Property { Property(name, "array", description, Some("string")) }

  /** The schema declares the given argument names, in that order, and no others. */
  predicate DeclaresExactly(schema: InputSchema, names: seq<string>) {
    |schema.properties| == |names| && forall i | 0 <= i < |names| :: schema.properties[i].name == names[i]
  }

  /** The `kilde_commit` schema declares exactly the arguments a commit call reads. */
  function CommitToolSchema(): (schema: InputSchema)
    ensures schema.kind == "object" && DeclaresExactly(schema, ArgumentsRead(TOOL_COMMIT))
  {
    InputSchema("object", [
      Boolean("add", "Stage all changes before committing"),
      Boolean("cached", "Only use staged changes"),
      Boolean("sendit", "Automatically commit with generated message"),
      Boolean("interactive", "Interactive mode for reviewing message"),
      Boolean("amend", "Amend the previous commit"),
      Str("context", "Additional context for commit message generation"),
      StringArray("contextFiles", "Context files to include"),
      Boolean("dryRun", "Preview without making changes"),
      Boolean("verbose", "Enable verbose logging"),
      Boolean("debug", "Enable debug logging")])
  }

  /** The `kilde_release` schema declares exactly the arguments a release call reads. */
  function ReleaseToolSchema(): (schema: InputSchema)
    ensures schema.kind == "object" && DeclaresExactly(schema, ArgumentsRead(TOOL_RELEASE))
  {
    InputSchema("object", [
      Str("fromTag", "Start tag for release notes (default: last tag)"),
      Str("toTag", "End tag for release notes (default: HEAD)"),
      Str("version", "Version number for the release"),
      Str("output", "Output file path for release notes"),
      Boolean("interactive", "Interactive mode for reviewing notes"),
      Str("focus", "Focus area for release notes (e.g., \"breaking changes\")"),
      Str("context", "Additional context for release notes generation"),
      StringArray("contextFiles", "Context files to include"),
      Boolean("dryRun", "Preview without saving to file"),
      Boolean("verbose", "Enable verbose logging"),
      Boolean("debug", "Enable debug logging")])
  }

  /** `getTools()`. */
  function GetTools(): (tools: seq<Tool>)
    ensures |tools| == 2 && tools[0].name == TOOL_COMMIT && tools[1].name == TOOL_RELEASE
    ensures forall i | 0 <= i < |tools| ::
      tools[i].inputSchema.kind == "object" && DeclaresExactly(tools[i].inputSchema, ArgumentsRead(tools[i].name))
  {
    [Tool(TOOL_COMMIT, "Generate AI-powered commit message and optionally create the commit", CommitToolSchema()),
     Tool(TOOL_RELEASE, "Generate release notes from git commit history (tag-based)", ReleaseToolSchema())]
  }
}

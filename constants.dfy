/** The built-in defaults of src/constants.ts that the configuration resolver, the command-line
    overlay and the release command read. */
module Constants {
  import opened Json

  /** Build-time placeholders; the build replaces them with the real version and host. */
  const VERSION: string :=
    "__VERSION__ (__GIT_BRANCH__/__GIT_COMMIT__ __GIT_TAGS__ __GIT_COMMIT_DATE__) __SYSTEM_INFO__"
  const BUILD_HOSTNAME: string := "__BUILD_HOSTNAME__"
  const BUILD_TIMESTAMP: string := "__BUILD_TIMESTAMP__"

  const DEFAULT_VERBOSE := false
  const DEFAULT_DRY_RUN := false
  const DEFAULT_DEBUG := false
  const DEFAULT_MODEL: string := "gpt-4o-mini"
  const DEFAULT_OPENAI_REASONING: string := "low"
  const DEFAULT_OPENAI_MAX_OUTPUT_TOKENS := 10000
  const DEFAULT_OUTPUT_DIRECTORY: string := "output/kilde"
  const DEFAULT_CONFIG_DIR: string := ".kilde"
  const DEFAULT_TO_COMMIT_ALIAS: string := "HEAD"

  const DEFAULT_ADD := false
  const DEFAULT_CACHED := false
  const DEFAULT_SENDIT_MODE := false
  const DEFAULT_INTERACTIVE_MODE := false
  const DEFAULT_AMEND_MODE := false
  const DEFAULT_MESSAGE_LIMIT := 3
  const DEFAULT_MAX_DIFF_BYTES := 20480

  const DEFAULT_EXCLUDED_PATTERNS: seq<string> := [
    "node_modules", "package-lock.json", "yarn.lock", "bun.lockb",
    "composer.lock", "Cargo.lock", "Gemfile.lock",
    "dist", "build", "out", ".next", ".nuxt", "coverage",
    ".vscode", ".idea", ".DS_Store", ".git", ".gitignore",
    "logs", "tmp", ".cache", "*.log", ".env", ".env.*",
    "*.pem", "*.crt", "*.key", "*.sqlite", "*.db",
    "*.zip", "*.tar", "*.gz", "*.exe", "*.bin"
  ]

  const COMMAND_COMMIT: string := "commit"
  const COMMAND_RELEASE: string := "release"

  /** A list of strings as a configuration value. */
  function StringList(xs: seq<string>): (v: JVal)
    ensures v.JArr? && |v.items| == |xs|
    ensures forall i | 0 <= i < |xs| :: v.items[i] == JStr(xs[i])
  {
    JArr(seq(|xs|, i requires 0 <= i < |xs| => JStr(xs[i])), map[])
  }

  const COMMIT_DEFAULTS: Obj := map[
    "add" := JBool(DEFAULT_ADD),
    "cached" := JBool(DEFAULT_CACHED),
    "sendit" := JBool(DEFAULT_SENDIT_MODE),
    "interactive" := JBool(DEFAULT_INTERACTIVE_MODE),
    "amend" := JBool(DEFAULT_AMEND_MODE),
    "messageLimit" := JNum(DEFAULT_MESSAGE_LIMIT),
    "skipFileCheck" := JBool(false),
    "maxDiffBytes" := JNum(DEFAULT_MAX_DIFF_BYTES),
    "contextFiles" := JUndef,
    "openaiReasoning" := JStr(DEFAULT_OPENAI_REASONING),
    "openaiMaxOutputTokens" := JNum(DEFAULT_OPENAI_MAX_OUTPUT_TOKENS)
  ]

  const RELEASE_DEFAULTS: Obj := map[
    "fromTag" := JUndef,
    "toTag" := JStr("HEAD"),
    "messageLimit" := JNum(DEFAULT_MESSAGE_LIMIT),
    "interactive" := JBool(DEFAULT_INTERACTIVE_MODE),
    "maxDiffBytes" := JNum(DEFAULT_MAX_DIFF_BYTES),
    "contextFiles" := JUndef,
    "openaiReasoning" := JStr(DEFAULT_OPENAI_REASONING),
    "openaiMaxOutputTokens" := JNum(DEFAULT_OPENAI_MAX_OUTPUT_TOKENS)
  ]

  /** `KILDE_DEFAULTS`: the complete configuration every merge starts from. */
  function KildeDefaults(): (d: Obj)
    ensures Get(d, "excludedPatterns") == StringList(DEFAULT_EXCLUDED_PATTERNS)
    ensures Get(d, "discoveredConfigDirs") == JArr([], map[])
    ensures Get(d, "resolvedConfigDirs") == JArr([], map[])
    ensures Get(d, "contextDirectories") == JArr([], map[])
    ensures Get(d, "dryRun") == JBool(false)
    ensures Get(d, "verbose") == JBool(false)
    ensures Get(d, "debug") == JBool(false)
    ensures Get(d, "model") == JStr("gpt-4o-mini")
    ensures Get(d, "openaiReasoning") == JStr("low")
    ensures Get(d, "configDirectory") == JStr(".kilde")
    ensures Get(d, "commit") == JObj(COMMIT_DEFAULTS)
    ensures Get(d, "release") == JObj(RELEASE_DEFAULTS)
  {
    map[
      "dryRun" := JBool(DEFAULT_DRY_RUN),
      "verbose" := JBool(DEFAULT_VERBOSE),
      "debug" := JBool(DEFAULT_DEBUG),
      "model" := JStr(DEFAULT_MODEL),
      "openaiReasoning" := JStr(DEFAULT_OPENAI_REASONING),
      "openaiMaxOutputTokens" := JNum(DEFAULT_OPENAI_MAX_OUTPUT_TOKENS),
      "outputDirectory" := JStr(DEFAULT_OUTPUT_DIRECTORY),
      "configDirectory" := JStr(DEFAULT_CONFIG_DIR),
      "discoveredConfigDirs" := JArr([], map[]),
      "resolvedConfigDirs" := JArr([], map[]),
      "excludedPatterns" := StringList(DEFAULT_EXCLUDED_PATTERNS),
      "contextDirectories" := JArr([], map[]),
      "overrides" := JBool(false),
      "commit" := JObj(COMMIT_DEFAULTS),
      "release" := JObj(RELEASE_DEFAULTS)
    ]
  }

  /** Every commit flag is off by default; commit and release share the history and diff limits. */
  lemma CommitAndReleaseDefaults()
    ensures Get(COMMIT_DEFAULTS, "add") == JBool(false)
    ensures Get(COMMIT_DEFAULTS, "cached") == JBool(false)
    ensures Get(COMMIT_DEFAULTS, "sendit") == JBool(false)
    ensures Get(COMMIT_DEFAULTS, "interactive") == JBool(false)
    ensures Get(COMMIT_DEFAULTS, "amend") == JBool(false)
    ensures Get(COMMIT_DEFAULTS, "messageLimit") == Get(RELEASE_DEFAULTS, "messageLimit") == JNum(3)
    ensures Get(COMMIT_DEFAULTS, "maxDiffBytes") == Get(RELEASE_DEFAULTS, "maxDiffBytes") == JNum(20480)
    ensures Get(RELEASE_DEFAULTS, "toTag") == JStr("HEAD")
    ensures Get(RELEASE_DEFAULTS, "fromTag") == JUndef
    ensures Get(RELEASE_DEFAULTS, "contextFiles") == JUndef
  {
  }

  /** The default exclusion list is non-empty and covers dependencies, VCS data and builds. */
  lemma ExcludedPatternsCoverCommonDirs()
    ensures |DEFAULT_EXCLUDED_PATTERNS| > 0
    ensures "node_modules" in DEFAULT_EXCLUDED_PATTERNS
    ensures ".git" in DEFAULT_EXCLUDED_PATTERNS
    ensures "dist" in DEFAULT_EXCLUDED_PATTERNS
  {
    assert DEFAULT_EXCLUDED_PATTERNS[0] == "node_modules";
    assert DEFAULT_EXCLUDED_PATTERNS[16] == ".git";
    assert DEFAULT_EXCLUDED_PATTERNS[7] == "dist";
  }
}

# kilde configuration resolution, in Dafny

kilde is a command-line tool and MCP (Model Context Protocol) server that drafts commit
messages and release notes from git history with a language model. This project models the
part of it that decides what a run is configured to do, and proves properties of that model:

- **Configuration resolver** (`config.dfy`, module `ConfigResolver`): the fixed list of
  candidate configuration files, the loader that returns the first one that reads and parses,
  the deep merge of the loaded fragment over the built-in defaults, the existence check, and the
  sample template with the path it is saved to.
- **Built-in defaults** (`constants.dfy`, module `Constants`): `KILDE_DEFAULTS` and the scalar
  defaults and exclusion patterns it is built from.
- **Command-line overlay** (`application.dfy`, module `Application`): `buildConfig`, which lays
  the program-wide and command flags over the effective configuration, the early log-level
  choice, how `executeCommand` settles a command's outcome (cancellation versus failure), the
  Node.js major-version gate and the version banner.
- **MCP tool overlay** (`tools.dfy`, module `McpTools`): how `executeTool` turns tool-call
  arguments into a configuration, dispatches it and replies, and the two tools `getTools` lists.
- **MCP prompts** (`prompts.dfy`, module `McpPrompts`): the two workflow prompts and the text
  `getPrompt` assembles from optional arguments.
- **Release command** (`release.dfy`, module `Release`): reading context files, combining
  context, the defaulting of refs and limits handed to the release-notes generator, the
  title/body split of edited notes, the interactive feedback loop, and `execute` around them.

Supporting modules: `json.dfy` (module `Json`) gives configuration values as JavaScript sees
them (`undefined`, `null`, booleans, integers, strings, arrays, plain objects) with the
operators the code relies on: truthiness, `??`, `||`, property reads and writes, `for…in`.
`text.dfy` (module `Text`) gives the string operations (`trim`, `split`, `join`, `includes`,
`parseInt`). `results.dfy` (module `Results`) holds `Option` and `Result`; `Err(message)`
stands for a thrown `Error`.

Modelling choices:

- The file system is a map from candidate path to a `FileState` (`Missing` for ENOENT,
  `Unreachable` and `Unreadable` for the other failures, `Readable(text)`). The JSON and YAML
  parsers are a function parameter returning a value or a syntax error. The loader's warnings
  are returned as the list of candidates warned about.
- The git readers, the release-notes generator, the commit command, the editor, the language
  model, the terminal check and storage are parameters: plain functions whose results are
  inputs to the model.
- The interactive feedback loop is `while (true)` in the source. The model runs it over a
  finite sequence of rounds. Each round holds the key pressed and the outcome of an edit or
  improvement. When the rounds run out before a confirm or skip, the result is `Undecided`.
- Objects are `map<string, JVal>`, so the key order of JavaScript objects is not modelled. Every
  property of the merge holds whatever that order is.
- **Aliasing assumption.** In the source, `mergeWithDefaults(null)` returns the `KILDE_DEFAULTS`
  object itself (src/utils/config.ts:93-95). `buildConfig` copies it only shallowly
  (src/application.ts:122). So the flag writes at src/application.ts:137-155 go into the nested
  `commit` and `release` objects that `KILDE_DEFAULTS` shares with every later reader in the
  same process. The model uses value semantics throughout: every configuration is a fresh
  value, and a run's flags never change the defaults another run sees. This matches the source
  for one command per process, which is how the command line runs.
- The two ways a run gets its configuration are modelled separately. The command-line path
  starts from `KILDE_DEFAULTS` and the effective file configuration. The MCP tool path starts
  only from the directory fields, the server's configuration (which the server passes as
  `undefined`) and the call's arguments (`McpTools.ToolPathSkipsDefaults`).
- `release.ts` imports `DEFAULT_EXCLUDED_PATTERNS`, `DEFAULT_TO_COMMIT_ALIAS` and
  `DEFAULT_MAX_DIFF_BYTES` from a library package that is not part of this model. They are
  taken to equal the constants of the same names in src/constants.ts.
- `execute` reads `release.from` and `release.to`. The defaults set `release.toTag`, and
  nothing reads it (`Release.ToRefIgnoresToTag`).
- The loader has a JSON-then-YAML fallback for names with neither extension, but every
  candidate ends in `.json`, `.yaml` or `.yml`, so that branch never runs
  (`ConfigResolver.FallbackParseNeverRuns`).
- A flag assignment into a `commit` or `release` section that a configuration file set to a
  truthy primitive (a string, say) throws a TypeError in strict-mode code. The model gives
  `Err` there (`Application.BuildFails`). An array section keeps its elements and gains the
  flags as named properties, as a JavaScript array does (`Application.SlotOutcome`).
- Arrays are `JArr(items, props)`: the elements, and the named properties an assignment such as
  `config.release.from = ...` puts on an array. Property reads see those named properties,
  `for…in` lists the indices and then the named properties, and `String(array)` joins only the
  elements.
- `buildConfig` reads the program-wide flags from `cliOptions.parent` (src/application.ts:128-132).
  The model takes that object as the `parent` parameter of `Application.BuildConfig` and
  `Application.AssignGlobalOptions`, standing for the program's parsed global options.

## Model

| member | source | states |
|---|---|---|
| `ConfigResolver.LoadConfig` | src/utils/config.ts:20-55 | the loader's result and warnings are exactly the ordered scan of `CONFIG_FILES` |
| `ConfigResolver.TryCandidates` | src/utils/config.ts:23-51 | the loop over candidates returns what the ordered scan specifies: the first hit with the warnings before it, or none with every warning |
| `ConfigResolver.FallbackParseNeverRuns` | src/utils/config.ts:30-41 | every candidate ends in `.json`, `.yaml` or `.yml`, so the JSON-then-YAML fallback is dead code |
| `ConfigResolver.ScanReturnsFirstHit` | src/utils/config.ts:23-45 | when candidate i reads and parses and no earlier one does, candidate i's parse (even `null`) is returned |
| `ConfigResolver.ScanFoundIsFirstHit` | src/utils/config.ts:23-45 | a returned file is a candidate that parsed, and no earlier candidate parsed |
| `ConfigResolver.ScanNoneFound` | src/utils/config.ts:46-54 | nothing is returned exactly when no candidate reads and parses |
| `ConfigResolver.ScanIgnoresLaterCandidates` | src/utils/config.ts:23-45 | candidates after the returned one are never consulted: changing them changes nothing |
| `ConfigResolver.ScanWarnsOnlyFailures` | src/utils/config.ts:46-50 | every warned candidate exists in some form and failed to read or parse; a missing file is never warned about |
| `ConfigResolver.ScanWarnsEveryFailure` | src/utils/config.ts:46-50 | when nothing loads, every candidate that failed other than by ENOENT was warned about |
| `ConfigResolver.ScanAllMissing` | src/utils/config.ts:46-54 | with every candidate missing, the loader returns nothing and warns about nothing |
| `ConfigResolver.DeepMerge` | src/utils/config.ts:67-85 | copying the target and updating it key by key from the source gives the specified merge |
| `ConfigResolver.MergeAtKey` | src/utils/config.ts:68-83 | the merge's keys are the target's plus the source's defined ones; unmentioned keys keep the target's value; two objects merge recursively; any other defined source value replaces |
| `ConfigResolver.MergeReplacement` | src/utils/config.ts:78-80 | arrays, `null`, `false` and `0` from the source replace the target's value wholesale; `undefined` never changes or adds a key |
| `ConfigResolver.SourceLeafWins` | src/utils/config.ts:75-80 | a defined non-object leaf of the source is the merge's value at that path, however deep |
| `ConfigResolver.TargetLeafSurvives` | src/utils/config.ts:75-77 | a target leaf survives at any path the source does not touch, so nested defaults such as `commit.cached` survive |
| `ConfigResolver.MergeSelf` | src/utils/config.ts:67-85 | merging an object over itself changes nothing |
| `ConfigResolver.MergeWithDefaultsKeepsDefaults` | src/utils/config.ts:90-98 | the result has every default key; a falsy fragment such as `null` yields the defaults exactly |
| `ConfigResolver.MergeWithDefaultsOfObject` | src/utils/config.ts:93-97 | a loaded object is merged entry by entry over the defaults |
| `ConfigResolver.GetEffectiveConfig` | src/utils/config.ts:103-106 | the effective configuration is the first loaded candidate merged over the defaults, and holds every default key |
| `ConfigResolver.EffectiveConfigOfEmptyDirectory` | src/utils/config.ts:103-106 | a directory with no candidate gives exactly the defaults |
| `ConfigResolver.EffectiveConfigOfHit` | src/utils/config.ts:23-45 | the effective configuration is the defaults merged with the first candidate that loads |
| `ConfigResolver.MalformedOnlyCandidate` | src/utils/config.ts:46-54 | a malformed `.kilde/config.yaml` alone gives exactly one warning and the defaults |
| `ConfigResolver.RcJsonScenario` | src/utils/config.ts:23-45 | `.kilderc.json` holding verbose and commit.sendit true turns both on and keeps commit.add and debug false |
| `ConfigResolver.FileLeafWins` | src/utils/config.ts:90-98 | a defined non-object leaf of the loaded file wins over the default at its path |
| `ConfigResolver.DefaultLeafSurvives` | src/utils/config.ts:90-98 | a default leaf survives unless the loaded file touches its path |
| `ConfigResolver.DefaultsOverlay` | src/utils/config.ts:75-80 | the merge part of the `.kilderc.json` scenario |
| `ConfigResolver.ArrayReplacesDefault` | src/utils/config.ts:78-80 | `discoveredConfigDirs: ["custom-dir"]` in the file gives exactly that list, not a concatenation |
| `ConfigResolver.ConfigFileExists` | src/utils/config.ts:170-181 | true iff some candidate is accessible, whether or not it reads or parses |
| `ConfigResolver.LoadedImpliesExists` | src/utils/config.ts:170-181 | whenever a file loads, `configFileExists` is true |
| `ConfigResolver.SampleConfig` | src/utils/config.ts:111-134 | the template's commit and release message limits are 3 and diff ceilings 20480 |
| `ConfigResolver.SaveSampleConfig` | src/utils/config.ts:146-165 | on success the returned path is the working directory joined with .kilde/config.yaml, that file holds the dumped template and every other file is unchanged; a write error is rethrown as is |
| `ConfigResolver.SamplePathUnderCwd` | src/utils/config.ts:147-148 | the two `path.join` calls put `.kilde/config.yaml` after the working directory, with exactly one separator between |
| `ConfigResolver.SampleRoundTrip` | src/utils/config.ts:146-157 | saving the sample and loading the directory gives the template's limits and ceilings, provided the YAML dump parses back |
| `Constants.KildeDefaults` | src/constants.ts:123-162 | excluded patterns are `DEFAULT_EXCLUDED_PATTERNS`; the directory lists are empty; dryRun, verbose and debug are false; model gpt-4o-mini; reasoning low; configDirectory .kilde |
| `Constants.CommitAndReleaseDefaults` | src/constants.ts:138-161 | the commit switches are false; both sections default to messageLimit 3 and maxDiffBytes 20480; release toTag is HEAD and fromTag and contextFiles are undefined |
| `Constants.ExcludedPatternsCoverCommonDirs` | src/constants.ts:68-76 | the exclusion list is non-empty and holds node_modules, .git and dist |
| `Json.SetProp` | src/application.ts:137-155 | assigning a property succeeds on an object and on an array (a named property beside the elements) and reads back the assigned value; it throws exactly on undefined, null and other primitives |
| `Application.AssignGlobalOptions` | src/application.ts:128-132 | the five global flag lines, run in order, give the table-driven assignment |
| `Application.AssignFlag` | src/application.ts:137-155 | one guarded flag line assigns when its guard fires and otherwise leaves the section |
| `Application.AssignCommitOptions` | src/application.ts:137-144 | the commit flag lines, run in order, stop at the first throwing assignment and otherwise give the table-driven result |
| `Application.AssignReleaseOptions` | src/application.ts:147-155 | the release flag lines, run in order, stop at the first throwing assignment and otherwise give the table-driven result |
| `Application.BuildConfig` | src/application.ts:117-160 | the run configuration is the global layer over the effective file configuration, then the command's flags in its own section only |
| `Application.GlobalTable` | src/application.ts:128-132 | verbose, debug and dryRun are copied when defined; model and reasoning only when truthy; reasoning goes into openaiReasoning |
| `Application.CommitTable` | src/application.ts:137-144 | add, cached, sendit, interactive, amend and push are copied when defined; context and contextFiles only when truthy |
| `Application.ReleaseTable` | src/application.ts:147-155 | fromTag goes to `from`, toTag to `to`; interactive is copied when defined; focus, context, contextFiles, version and output only when truthy |
| `Application.FlagsOnObject` | src/application.ts:136-155 | on an object section each table key takes the flag's value when its guard fires and keeps its own otherwise; no other key changes |
| `Application.GlobalFlagPrecedence` | src/application.ts:128-132 | a defined CLI verbose, debug or dryRun (even false) wins over the file; model and reasoning win only when truthy; every other key keeps the file's value |
| `Application.DefaultsCopyIsRedundant` | src/application.ts:119-125 | copying the effective configuration over a copy of the defaults changes nothing |
| `Application.SlotOutcome` | src/application.ts:136-155 | an object section gains the flags over its own entries, a falsy one is created with just the flags, an array keeps its elements and gains the flags as named properties, a truthy primitive throws iff a flag fires |
| `Application.ApplyRulesOnArray` | src/application.ts:136-155 | the flag lines on an array section add the fired flags to its named properties and leave its elements |
| `Application.FiredFlagInSection` | src/application.ts:136-155 | when building succeeds, a fired flag is read back from the section, whether the file made it an object, an array or nothing |
| `Application.SectionOnlyChanges` | src/application.ts:135-156 | the commit flags change only `commit`, the release flags only `release` |
| `Application.BuildFails` | src/application.ts:136-155 | building fails exactly when the command's section is a truthy primitive and one of its flags is given |
| `Application.TagFlagsReachRelease` | src/application.ts:147-148 | whatever the file's release section is, when building succeeds a truthy --from-tag and --to-tag become the release generator's start and end refs |
| `Application.ConfigureEarlyLogging` | src/application.ts:219-229 | a debug flag selects debug even beside verbose; verbose alone selects verbose; with neither the level is unchanged |
| `Application.Settle` | src/application.ts:203-213 | a normal completion returns its summary; an error is a cancellation iff its name is UserCancellationError or its message contains "cancelled"; every other error is rethrown |
| `Application.ExecuteCommand` | src/application.ts:165-214 | the log level follows verbose then debug, and the outcome is the settled result of the dispatched command |
| `Application.UnknownCommandFails` | src/application.ts:192-213 | an unknown command whose name does not contain "cancelled" is rethrown as "Unknown command: X" |
| `Application.UnknownCancelledCommand` | src/application.ts:192-208 | an unknown command whose name contains "cancelled" ends normally as a cancellation |
| `Application.ReleaseErrorSettles` | src/application.ts:189-212 | a release error mentioning "cancelled" ends the run normally; one without 'c' in its message and another name is rethrown |
| `Application.ReleaseReportLines` | src/application.ts:191 | the release summary's first two lines are "Release notes generated:" and "Title: " + title |
| `Application.NodeMajorOfRelease` | src/application.ts:29-42 | for v&lt;major&gt; or v&lt;major&gt;.&lt;rest&gt; the major number is read back, and the process exits iff it is below 24 |
| `Application.NodeVersionNaN` | src/application.ts:32-34 | a letter where the major number belongs parses to NaN and the gate lets the run continue |
| `Application.VersionLines` | src/application.ts:53 | the banner's three lines are the version, "Built on: " + host and "Build time: " + timestamp |
| `Application.GetVersionInfo` | src/application.ts:48-55 | the fields are the build constants and `formatted` is their banner |
| `McpTools.ExecuteTool` | src/mcp/tools.ts:23-107 | a commit call replies with the summary; a release call replies with "# " + title + "\n\n" + body and writes it when output is truthy; command errors are rethrown; other names throw "Unknown tool: X" |
| `McpTools.CallFlagsOverride` | src/mcp/tools.ts:32-40 | dryRun, verbose and debug are the call's values or false, whatever the server configuration holds |
| `McpTools.DirectoryFields` | src/mcp/tools.ts:32-36 | configDirectory is .kilde and the dir lists are empty unless the server configuration supplies them |
| `McpTools.ServerEntriesPassThrough` | src/mcp/tools.ts:32-40 | any other server configuration entry passes through unchanged |
| `McpTools.ToolPathSkipsDefaults` | src/mcp/tools.ts:32-40 | without a server configuration the tool configuration has only the directory fields, the three flags and the tool's section |
| `McpTools.OnlyCommandLineHasModel` | src/mcp/tools.ts:32-40 | the defaults carry a model; the tool path without a server configuration does not |
| `McpTools.CommitToolSection` | src/mcp/tools.ts:45-53 | the five commit switches are false unless given; context and contextFiles pass through |
| `McpTools.ReleaseSectionKeeps` | src/mcp/tools.ts:78-80 | only version and output are added to the release section after it is built |
| `McpTools.ReleaseToolRefs` | src/mcp/tools.ts:69-76 | `from` is fromTag, `to` is toTag or HEAD, interactive defaults to false, focus passes through |
| `McpTools.ReleaseToolOptionals` | src/mcp/tools.ts:79-80 | version and output appear in the release section exactly when truthy, with the call's values |
| `McpTools.ToolReadsOnlyItsArguments` | src/mcp/tools.ts:32-80 | the configuration depends only on the arguments the tool's schema declares |
| `McpTools.ToolReleaseRequest` | src/mcp/tools.ts:67-83 | the release generator gets the call's refs (or the fallback and HEAD), focus and truthy version |
| `McpTools.ToolReleaseLimits` | src/mcp/tools.ts:32-40 | without a server configuration the diff ceiling and exclusions come from the release command's own fallbacks |
| `McpTools.ToolReleaseNoMessageLimit` | src/mcp/tools.ts:32-40 | the tool path has no commit-history limit and runs 30 agent iterations |
| `McpTools.ReleaseReplyIsNotes` | src/mcp/tools.ts:85-98 | a release reply's first line is "# " + title |
| `McpTools.CommitToolSchema` | src/mcp/tools.ts:114-162 | the kilde_commit schema is of type object and declares exactly the arguments a commit call reads |
| `McpTools.ReleaseToolSchema` | src/mcp/tools.ts:164-217 | the kilde_release schema is of type object and declares exactly the arguments a release call reads |
| `McpTools.GetTools` | src/mcp/tools.ts:112-219 | exactly two tools, kilde_commit and kilde_release, each with an object input schema |
| `McpPrompts.GetPrompts` | src/mcp/prompts/index.ts:10-40 | exactly two prompts, commit-workflow and release-workflow, and no argument is required |
| `McpPrompts.GetPrompt` | src/mcp/prompts/index.ts:45-98 | any other name, including '', throws "Unknown prompt: X"; a known one gives one user message |
| `McpPrompts.CommitContextSection` | src/mcp/prompts/index.ts:50-60 | a non-empty context adds exactly "\n\nAdditional context: ctx" after the opening and nothing else; an empty one gives the bare workflow |
| `McpPrompts.ReleaseSections` | src/mcp/prompts/index.ts:72-84 | the version and fromTag lines are inserted after the opening only when non-empty, the version line first |
| `McpPrompts.ReleaseMentionsArguments` | src/mcp/prompts/index.ts:72-84 | a non-empty version or fromTag shows up as its own quoted line |
| `McpPrompts.CommitContextLabel` | src/mcp/prompts/index.ts:50-60 | the commit text contains "Additional context: " if and only if the context is non-empty |
| `McpPrompts.ReleaseArgumentLabels` | src/mcp/prompts/index.ts:72-84 | the release text contains "\n- version: " iff a version is given, and "\n- fromTag: " iff a start tag is given, when the other argument has no '-' |
| `McpPrompts.LabelInsideValue` | src/mcp/prompts/index.ts:72-84 | a start tag ending in "\n- version: " puts the version label in the text with no version given |
| `McpPrompts.CommitStepsMention` | src/mcp/prompts/index.ts:62-66 | the commit steps mention "Steps:", kilde_commit and dryRun=true |
| `McpPrompts.ReleaseStepsMention` | src/mcp/prompts/index.ts:86-90 | the release steps mention "Steps:", kilde_release and dryRun=true |
| `McpPrompts.StepsNameTheTool` | src/mcp/prompts/index.ts:60-90 | whatever the arguments, each text contains "Steps:", "dryRun=true" and its tool's name |
| `McpPrompts.ListedPromptsResolve` | src/mcp/prompts/index.ts:10-98 | every listed prompt resolves, and its text is built from the arguments it declares |
| `Release.MarkdownHeading` | src/commands/release.ts:423 | the saved markdown's first line is "# " + title, the second is blank, and the rest is the body |
| `Release.ReadContextFiles` | src/commands/release.ts:50-69 | the loop gives the specified join of sections; a truthy non-iterable list throws |
| `Release.ContextParts` | src/commands/release.ts:58-66 | there are never more sections than listed files |
| `Release.ContextPartsAppend` | src/commands/release.ts:58-66 | the sections of a concatenated list are those of each half, in order |
| `Release.ContextPartsAllReadable` | src/commands/release.ts:58-68 | when every file reads, there is one "## Context from path" section per file, in list order |
| `Release.ContextPartsNoneReadable` | src/commands/release.ts:58-68 | when no file reads, there are no sections |
| `Release.TwoContextFiles` | src/commands/release.ts:50-69 | two readable files give their two sections around one "\n---\n\n" |
| `Release.ContextFromFilesEdges` | src/commands/release.ts:50-53 | an absent or empty list gives ''; a truthy non-iterable one throws |
| `Release.CombinedContextCases` | src/commands/release.ts:345-359 | the configured context and the file context are joined by "\n\n---\n\n" when both are present; with neither the generator gets undefined |
| `Release.EditedRoundTrip` | src/commands/release.ts:79-86 | splitting the editor's unchanged text gives back a trimmed one-line title and trimmed body |
| `Release.FirstDecision` | src/commands/release.ts:248-262 | the index of the first round that confirms or skips, or the number of rounds |
| `Release.HandleInteractiveReleaseFeedback` | src/commands/release.ts:211-286 | the loop ends as the feedback specification says |
| `Release.FeedbackDecidesAtFirst` | src/commands/release.ts:224-285 | the loop ends at the first 'c' or 's' with every successful revision before it applied; otherwise it is undecided |
| `Release.FailedRoundsKeepSummary` | src/commands/release.ts:252-283 | failed edits and improvements and unknown keys leave the summary unchanged |
| `Release.LastRevisionWins` | src/commands/release.ts:252-279 | after the last successful edit or improvement, the summary is that revision |
| `Release.ImmediateDecision` | src/commands/release.ts:248-262 | 'c' confirms and 's' skips with the current summary |
| `Release.EditUnchangedThenConfirm` | src/commands/release.ts:252-259 | an unchanged edit followed by 'c' keeps the notes |
| `Release.FromRefPrecedence` | src/commands/release.ts:302 | `release.from` wins unless null or undefined; then the collaborator default is used |
| `Release.IterationLimit` | src/commands/release.ts:362 | a non-zero maxAgenticIterations is kept; 0, null or undefined becomes 30 |
| `Release.ToRefIgnoresToTag` | src/commands/release.ts:302-303 | `release.toTag` is never read when choosing the refs |
| `Release.DefaultsPlanRefs` | src/commands/release.ts:302-362 | over the defaults alone the release starts at the collaborator default, ends at HEAD, gets no context and 30 iterations |
| `Release.DefaultsPlanLimits` | src/commands/release.ts:310-318 | over the defaults alone the history limit is 3, the diff ceiling 20480 and the exclusions the defaults |
| `Release.Execute` | src/commands/release.ts:294-450 | with collaborators that do not throw, execute fails iff the context files throw or interactive review is needed without a terminal; it does not return while the review is undecided; review runs iff interactive and not a dry run, and a returned review confirmed or skipped; the saved markdown is "# " + title + "\n\n" + body |

## Left out

- File I/O: `readFile`, `access`, `mkdir` and `writeFile` are replaced by a map from path to file state. Paths are relative to the working directory. `path.join` appears only in `saveSampleConfig`'s returned path.
- ConfigResolver.SaveSampleConfig: the working directory is taken as already normalised. `path.join` also resolves `.` and `..` segments and collapses repeated separators in it; `JoinPath` does not.
- McpPrompts.ReleaseArgumentLabels: the "only if" halves hold only when the other argument has no '-'. An argument value can spell out the other argument's label (`McpPrompts.LabelInsideValue`), so the unconditional equivalence is false.
- Application.BuildConfig, Application.AssignGlobalOptions: `parent` stands for `cliOptions.parent`, which Commander fills with the program's parsed global options; without it, src/application.ts:128 throws a TypeError. How Commander fills it, which varies with its version, is not modelled.
- JSON and YAML parsing and `yaml.dump` formatting are library code: the parsers are a function parameter and the dump is a function parameter of the save.
- Logging: the winston logger's messages are not modelled. The loader's warnings are the list of warned candidates. The one logger setting the code changes, its level, is a `Logger` class.
- Git and AI collaborators (`Log`, `Diff`, `getCurrentBranch`, `getDefaultFromRef`, `runAgenticRelease`, `improveContentWithLLM`, `filterContent`, `toAIConfig`, `CommandsGit.commit`, the editor and the TTY prompts): they are parameters whose results are inputs. `filterContent` with the stop context is taken as the identity.
- The self-reflection report, the timestamped copy of the release notes and the `Date`-based file names: they have no effect on the returned summary, and their write failures are only logged.
- Release.Execute: `storage.ensureDirectory` and the writes of the output file are taken to succeed; the source logs and continues when the output write fails, and an `ensureDirectory` failure would throw.
- Release.Execute: the git readers (`getCurrentBranch`, `getDefaultFromRef`, `Log`, `Diff`) and the generator `runAgenticRelease` are taken never to throw; in the source a throw from any of them rejects `execute` (src/commands/release.ts:299-353), so the failure cases stated are those of the model's own steps only.
- Release.Execute: a run whose review rounds run out without a confirm or skip is `None`, "has not returned"; the source's loop would keep waiting for input there.
- McpTools.ExecuteTool: the write to `args.output` is taken to succeed; in the source a failing write throws and is rethrown. The error log before rethrowing is not modelled.
- Release.HandleInteractiveReleaseFeedback: the source loops forever until 'c' or 's'; the model runs over a finite list of rounds and returns `Undecided` when they run out.
- The aliasing of `KILDE_DEFAULTS` through `mergeWithDefaults(null)` and the shallow copy in `buildConfig` is not modelled (value semantics; see above).
- src/mcp/server.ts (stdio transport, schema wiring), src/mcp/resources.ts (shells out), src/main.ts (process exit) and the Commander parsing in `parseArguments` are not part of this model.
- Numbers are integers: no configuration value the core compares is fractional.
- Strings are sequences of code points; UTF-16 code units are not modelled.

/** The workflow prompts the MCP server offers, and the text each one asks the assistant to
    follow. */
module McpPrompts {
  import opened Results
  import opened Text
  import McpTools

  const COMMIT_WORKFLOW: string := "commit-workflow"
  const RELEASE_WORKFLOW: string := "release-workflow"

  datatype PromptArgument = PromptArgument(name: string, description: string, required: bool)
  datatype Prompt = Prompt(name: string, description: string, arguments: seq<PromptArgument>)

  /** `getPrompts()`. */
  function GetPrompts(): (prompts: seq<Prompt>)
    ensures |prompts| == 2 && prompts[0].name == COMMIT_WORKFLOW && prompts[1].name == RELEASE_WORKFLOW
    ensures forall i, j | 0 <= i < |prompts| && 0 <= j < |prompts[i].arguments| ::
      !prompts[i].arguments[j].required
  {
    [Prompt(COMMIT_WORKFLOW, "Complete workflow for generating and creating a commit",
            [PromptArgument("context", "Additional context for the commit message", false)]),
     Prompt(RELEASE_WORKFLOW, "Complete workflow for generating release notes",
            [PromptArgument("version", "Version number for the release", false),
             PromptArgument("fromTag", "Start tag for release notes", false)])]
  }

  /** A message of the prompt; its content is always text. */
  datatype Message = Message(role: string, text: string)
  datatype PromptResult = PromptResult(description: string, messages: seq<Message>)

  /** `args?.<k> || ''`: a missing argument list, a missing argument and an empty one all read
      as the empty string. */
  function Argument(args: Option<map<string, string>>, k: string): string {
    if args.Some? && k in args.value then args.value[k] else ""
  }

  // ---------------------------------------------------------------------------------------
  // The two texts: a fixed opening, the optional sections, and the fixed steps

  const COMMIT_OPENING: string :=
    "I need to create a commit. " + "Please help me generate " + "a good commit message " + "based on my staged changes."
  const RELEASE_OPENING: string := "I need to generate release notes " + "for a new release."

  const CONTEXT_LABEL: string := "Additional context: "
  const STEPS_LABEL: string := "Steps:"
  const DRY_RUN: string := "dryRun=true"

  // The fixed wording of the steps, in short pieces so that the characters of each can be
  // checked one piece at a time
  const COMMIT_FIRST: string := "\n1. First, use "
  const COMMIT_CACHED: string := " with cached=true and "
  const COMMIT_PREVIEW: string :=
    " to preview the commit message" + "\n2. Review the " + "generated message" + "\n3. If it looks good, use "
  const COMMIT_SEND: string := " with sendit=true " + "to create the commit\n"
  const COMMIT_LAST: string := "4. If adjustments are needed, " + "provide feedback " + "and regenerate"
  const RELEASE_FIRST: string := "\n1. Use "
  const RELEASE_WITH: string := " with "
  const RELEASE_PREVIEW: string :=
    " to preview the release notes" + "\n2. Review the " + "generated notes" + "\n3. If they look good, use "
  const RELEASE_SAVE: string := " with output=" + "\"RELEASE_NOTES.md\"" + " to save them\n"
  const RELEASE_LAST: string := "4. If adjustments are needed, " + "use the focus parameter " + "to guide the generation"

  const COMMIT_STEPS: string :=
    "\n\n" + STEPS_LABEL + COMMIT_FIRST + McpTools.TOOL_COMMIT + COMMIT_CACHED + DRY_RUN
    + COMMIT_PREVIEW + McpTools.TOOL_COMMIT + COMMIT_SEND + COMMIT_LAST

  const RELEASE_STEPS: string :=
    "\n\n" + STEPS_LABEL + RELEASE_FIRST + McpTools.TOOL_RELEASE + RELEASE_WITH + DRY_RUN
    + RELEASE_PREVIEW + McpTools.TOOL_RELEASE + RELEASE_SAVE + RELEASE_LAST

  /** The context section, present only for a non-empty context. */
  function ContextSection(context: string): string {
    if context != "" then "\n\n" + (CONTEXT_LABEL + context) else ""
  }

  /** A quoted argument line such as `- version: "1.2.0"`, on a line of its own. */
  function ArgumentLine(key: string, value: string): string {
    "\n- " + key + ": \"" + value + "\""
  }

  /** The start of an argument line, up to its value. */
  function ArgumentLabel(key: string): string {
    "\n- " + key + ": "
  }

  function OptionalLine(key: string, value: string): string {
    if value != "" then ArgumentLine(key, value) else ""
  }

  function CommitText(context: string): string {
    COMMIT_OPENING + ContextSection(context) + COMMIT_STEPS
  }

  function ReleaseText(version: string, fromTag: string): string {
    RELEASE_OPENING + OptionalLine("version", version) + OptionalLine("fromTag", fromTag) + RELEASE_STEPS
  }

  /** `getPrompt(name, args)`; any other name is an error. */
  function GetPrompt(name: string, args: Option<map<string, string>>): (r: Result<PromptResult>)
    ensures r.Err? <==> name != COMMIT_WORKFLOW && name != RELEASE_WORKFLOW
    ensures r.Err? ==> r.message == "Unknown prompt: " + name
    ensures r.Ok? ==> |r.value.messages| == 1 && r.value.messages[0].role == "user"
  {
    if name == COMMIT_WORKFLOW then
      Ok(PromptResult("Workflow for generating AI-powered commit messages",
                      [Message("user", CommitText(Argument(args, "context")))]))
    else if name == RELEASE_WORKFLOW then
      Ok(PromptResult("Workflow for generating release notes from git history",
                      [Message("user", ReleaseText(Argument(args, "version"), Argument(args, "fromTag")))]))
    else
      Err("Unknown prompt: " + name)
  }

  // ---------------------------------------------------------------------------------------
  // Properties of the texts

  /** Inserting `piece` into `s` at position `at`. */
  function Insert(s: string, at: nat, piece: string): string
    requires at <= |s|
  {
    s[..at] + piece + s[at..]
  }

  /** Inserting between the two halves of a text. */
  lemma InsertBetween(a: string, piece: string, b: string)
    ensures Insert(a + b, |a|, piece) == a + piece + b
  {
    assert (a + b)[..|a|] == a && (a + b)[|a|..] == b;
  }

  /** A context adds exactly one section, right after the opening, and changes nothing else;
      without one the text is the bare workflow. */
  lemma CommitContextSection(context: string)
    ensures CommitText("") == COMMIT_OPENING + COMMIT_STEPS
    ensures context != "" ==>
      CommitText(context) == Insert(CommitText(""), |COMMIT_OPENING|, "\n\n" + CONTEXT_LABEL + context)
    ensures context != "" ==> Contains(CommitText(context), CONTEXT_LABEL + context)
  {
    assert COMMIT_OPENING + "" == COMMIT_OPENING;
    if context != "" {
      InsertBetween(COMMIT_OPENING, "\n\n" + CONTEXT_LABEL + context, COMMIT_STEPS);
      AppendAssoc("\n\n", CONTEXT_LABEL, context);
      AppendAssoc(COMMIT_OPENING, "\n\n", CONTEXT_LABEL + context);
      ContainsInfix(COMMIT_OPENING + "\n\n", CONTEXT_LABEL + context, COMMIT_STEPS);
    }
  }

  /** The version and start-tag lines are each added only when given, right after the opening,
      the version line first. */
  lemma ReleaseSections(version: string, fromTag: string)
    ensures ReleaseText("", "") == RELEASE_OPENING + RELEASE_STEPS
    ensures ReleaseText(version, fromTag)
      == Insert(ReleaseText("", fromTag), |RELEASE_OPENING|, OptionalLine("version", version))
    ensures fromTag != "" ==>
      ReleaseText("", fromTag) == Insert(ReleaseText("", ""), |RELEASE_OPENING|, ArgumentLine("fromTag", fromTag))
  {
    var v, t := OptionalLine("version", version), OptionalLine("fromTag", fromTag);
    assert RELEASE_OPENING + "" == RELEASE_OPENING;
    assert ReleaseText("", fromTag) == RELEASE_OPENING + t + RELEASE_STEPS;
    AppendAssoc(RELEASE_OPENING, t, RELEASE_STEPS);
    InsertBetween(RELEASE_OPENING, v, t + RELEASE_STEPS);
    AppendAssoc(RELEASE_OPENING + v, t, RELEASE_STEPS);
    InsertBetween(RELEASE_OPENING, t, RELEASE_STEPS);
  }

  /** A given version or start tag shows up on its own quoted line. */
  lemma ReleaseMentionsArguments(version: string, fromTag: string)
    ensures version != "" ==> Contains(ReleaseText(version, fromTag), ArgumentLine("version", version))
    ensures fromTag != "" ==> Contains(ReleaseText(version, fromTag), ArgumentLine("fromTag", fromTag))
  {
    var v, t := OptionalLine("version", version), OptionalLine("fromTag", fromTag);
    AppendAssoc(RELEASE_OPENING + v, t, RELEASE_STEPS);
    ContainsInfix(RELEASE_OPENING, v, t + RELEASE_STEPS);
    ContainsInfix(RELEASE_OPENING + v, t, RELEASE_STEPS);
  }

  lemma CommitOpeningLacksX() ensures 'x' !in COMMIT_OPENING { }
  lemma CommitPreviewLacksX() ensures 'x' !in COMMIT_PREVIEW { }
  lemma CommitLastLacksX() ensures 'x' !in COMMIT_LAST { }
  lemma ReleasePreviewLacksDash() ensures '-' !in RELEASE_PREVIEW { }
  lemma ReleaseLastLacksDash() ensures '-' !in RELEASE_LAST { }
  lemma ReleaseSaveLacksDash() ensures '-' !in RELEASE_SAVE { }
  lemma CommitSendLacksX() ensures 'x' !in COMMIT_SEND { }

  /** No character 'x' in the fixed commit wording (the one in `Additional context` tells the
      context section apart from the rest). */
  lemma CommitWordingLacksX()
    ensures 'x' !in COMMIT_OPENING && 'x' !in COMMIT_STEPS
  {
    CommitOpeningLacksX();
    CommitPreviewLacksX();
    CommitLastLacksX();
    CommitSendLacksX();
    assert 'x' !in "\n\n" && 'x' !in STEPS_LABEL && 'x' !in COMMIT_FIRST && 'x' !in McpTools.TOOL_COMMIT;
    assert 'x' !in COMMIT_CACHED && 'x' !in DRY_RUN;
  }

  /** No '-' in the fixed release wording: every one in a release text comes from an argument
      line. */
  lemma ReleaseWordingLacksDash()
    ensures '-' !in RELEASE_OPENING && '-' !in RELEASE_STEPS
  {
    ReleasePreviewLacksDash();
    ReleaseLastLacksDash();
    ReleaseSaveLacksDash();
    assert '-' !in "\n\n" && '-' !in STEPS_LABEL && '-' !in RELEASE_FIRST && '-' !in McpTools.TOOL_RELEASE;
    assert '-' !in RELEASE_WITH && '-' !in DRY_RUN;
  }

  /** The commit text has a context section exactly when a non-empty context is given. */
  lemma CommitContextLabel(context: string)
    ensures Contains(CommitText(context), CONTEXT_LABEL) <==> context != ""
  {
    CommitContextSection(context);
    if context == "" {
      CommitWordingLacksX();
      assert CONTEXT_LABEL[16] == 'x';
      ContainsNeedsChar(COMMIT_OPENING + COMMIT_STEPS, CONTEXT_LABEL, 16);
    } else {
      ContainsPrefix(CommitText(context), CONTEXT_LABEL, context);
    }
  }

  /** An argument line whose key starts with a letter other than `other`'s, between two texts
      without '-', and with no '-' in its key and value, does not bring in the label of `other`. */
  lemma OtherLabelAbsent(a: string, key: string, value: string, b: string, other: string)
    requires '-' !in a && '-' !in b && '-' !in key && '-' !in value
    requires |key| > 0 && |other| > 0 && key[0] != other[0]
    ensures !Contains(a + OptionalLine(key, value) + b, ArgumentLabel(other))
  {
    var m, p := OptionalLine(key, value), ArgumentLabel(other);
    var s := a + m + b;
    assert p[1] == '-';
    if value != "" {
      var rest := " " + key + ": \"" + value + "\"";
      assert m == "\n-" + rest;
      assert '-' !in rest;
      assert forall k | 2 <= k < |m| :: m[k] == rest[k - 2];
      forall k | 0 <= k < |m| && m[k] == p[1]
        ensures !OccursAt(s, p, |a| + k - 1)
      {
        assert k == 1;
        assert s[|a| + 3] == m[3] == key[0];
        assert p[3] == other[0];
        if |a| + |p| <= |s| {
          assert s[|a|..|a| + |p|][3] == s[|a| + 3];
        }
      }
    }
    OccurrenceCoversChar(a, m, b, p, 1);
  }

  /** An argument line starts with its label. */
  lemma LineStartsWithLabel(key: string, value: string)
    ensures ArgumentLine(key, value) == ArgumentLabel(key) + ("\"" + value + "\"")
  {
  }

  /** A given argument's label is in the release text. */
  lemma GivenLabelsPresent(version: string, fromTag: string)
    ensures version != "" ==> Contains(ReleaseText(version, fromTag), ArgumentLabel("version"))
    ensures fromTag != "" ==> Contains(ReleaseText(version, fromTag), ArgumentLabel("fromTag"))
  {
    var text := ReleaseText(version, fromTag);
    ReleaseMentionsArguments(version, fromTag);
    LineStartsWithLabel("version", version);
    LineStartsWithLabel("fromTag", fromTag);
    if version != "" {
      ContainsPrefix(text, ArgumentLabel("version"), "\"" + version + "\"");
    }
    if fromTag != "" {
      ContainsPrefix(text, ArgumentLabel("fromTag"), "\"" + fromTag + "\"");
    }
  }

  /** Without a version, and with no '-' in the start tag, there is no version label. */
  lemma MissingVersionLabel(fromTag: string)
    requires '-' !in fromTag
    ensures !Contains(ReleaseText("", fromTag), ArgumentLabel("version"))
  {
    ReleaseWordingLacksDash();
    assert ReleaseText("", fromTag) == RELEASE_OPENING + OptionalLine("fromTag", fromTag) + RELEASE_STEPS;
    OtherLabelAbsent(RELEASE_OPENING, "fromTag", fromTag, RELEASE_STEPS, "version");
  }

  /** Without a start tag, and with no '-' in the version, there is no start-tag label. */
  lemma MissingFromTagLabel(version: string)
    requires '-' !in version
    ensures !Contains(ReleaseText(version, ""), ArgumentLabel("fromTag"))
  {
    ReleaseWordingLacksDash();
    assert ReleaseText(version, "") == RELEASE_OPENING + OptionalLine("version", version) + RELEASE_STEPS;
    OtherLabelAbsent(RELEASE_OPENING, "version", version, RELEASE_STEPS, "fromTag");
  }

  /** A release text carries the version label exactly when a version is given, and the
      start-tag label exactly when a start tag is given, as long as the other argument has no
      '-' in it (one that does can spell out the label itself, see `LabelInsideValue`). */
  lemma ReleaseArgumentLabels(version: string, fromTag: string)
    ensures '-' !in fromTag ==>
      (Contains(ReleaseText(version, fromTag), ArgumentLabel("version")) <==> version != "")
    ensures '-' !in version ==>
      (Contains(ReleaseText(version, fromTag), ArgumentLabel("fromTag")) <==> fromTag != "")
  {
    GivenLabelsPresent(version, fromTag);
    if version == "" && '-' !in fromTag {
      MissingVersionLabel(fromTag);
    }
    if fromTag == "" && '-' !in version {
      MissingFromTagLabel(version);
    }
  }

  /** Without the condition on the other argument the equivalence fails: a start tag that
      ends in the version label spells it out although no version is given. */
  lemma LabelInsideValue(before: string)
    ensures Contains(ReleaseText("", before + ArgumentLabel("version")), ArgumentLabel("version"))
  {
    var versionLabel := ArgumentLabel("version");
    var t := before + versionLabel;
    var head := "\n- " + "fromTag" + ": \"" + before;
    ReleaseMentionsArguments("", t);
    assert ArgumentLine("fromTag", t) == head + versionLabel + "\"";
    ContainsInfix(head, versionLabel, "\"");
    ContainsWithin(ReleaseText("", t), ArgumentLine("fromTag", t), versionLabel);
  }

  lemma CommitStepsMention()
    ensures Contains(COMMIT_STEPS, STEPS_LABEL) && Contains(COMMIT_STEPS, McpTools.TOOL_COMMIT)
    ensures Contains(COMMIT_STEPS, DRY_RUN)
  {
    var c0 := "\n\n";
    var c1 := c0 + STEPS_LABEL;
    var c2 := c1 + COMMIT_FIRST;
    var c3 := c2 + McpTools.TOOL_COMMIT;
    var c4 := c3 + COMMIT_CACHED;
    var c5 := c4 + DRY_RUN;
    var c6 := c5 + COMMIT_PREVIEW;
    var c7 := c6 + McpTools.TOOL_COMMIT;
    var c8 := c7 + COMMIT_SEND;
    var c9 := c8 + COMMIT_LAST;
    assert COMMIT_STEPS == c9;
    ContainsItself(STEPS_LABEL);
    ContainsExtended(STEPS_LABEL, c0, STEPS_LABEL);
    ContainsExtended(c1, COMMIT_FIRST, STEPS_LABEL);
    ContainsExtended(c2, McpTools.TOOL_COMMIT, STEPS_LABEL);
    ContainsExtended(c3, COMMIT_CACHED, STEPS_LABEL);
    ContainsExtended(c4, DRY_RUN, STEPS_LABEL);
    ContainsExtended(c5, COMMIT_PREVIEW, STEPS_LABEL);
    ContainsExtended(c6, McpTools.TOOL_COMMIT, STEPS_LABEL);
    ContainsExtended(c7, COMMIT_SEND, STEPS_LABEL);
    ContainsExtended(c8, COMMIT_LAST, STEPS_LABEL);
    ContainsItself(McpTools.TOOL_COMMIT);
    ContainsExtended(McpTools.TOOL_COMMIT, c2, McpTools.TOOL_COMMIT);
    ContainsExtended(c3, COMMIT_CACHED, McpTools.TOOL_COMMIT);
    ContainsExtended(c4, DRY_RUN, McpTools.TOOL_COMMIT);
    ContainsExtended(c5, COMMIT_PREVIEW, McpTools.TOOL_COMMIT);
    ContainsExtended(c6, McpTools.TOOL_COMMIT, McpTools.TOOL_COMMIT);
    ContainsExtended(c7, COMMIT_SEND, McpTools.TOOL_COMMIT);
    ContainsExtended(c8, COMMIT_LAST, McpTools.TOOL_COMMIT);
    ContainsItself(DRY_RUN);
    ContainsExtended(DRY_RUN, c4, DRY_RUN);
    ContainsExtended(c5, COMMIT_PREVIEW, DRY_RUN);
    ContainsExtended(c6, McpTools.TOOL_COMMIT, DRY_RUN);
    ContainsExtended(c7, COMMIT_SEND, DRY_RUN);
    ContainsExtended(c8, COMMIT_LAST, DRY_RUN);
  }

  lemma ReleaseStepsMention()
    ensures Contains(RELEASE_STEPS, STEPS_LABEL) && Contains(RELEASE_STEPS, McpTools.TOOL_RELEASE)
    ensures Contains(RELEASE_STEPS, DRY_RUN)
  {
    var c0 := "\n\n";
    var c1 := c0 + STEPS_LABEL;
    var c2 := c1 + RELEASE_FIRST;
    var c3 := c2 + McpTools.TOOL_RELEASE;
    var c4 := c3 + RELEASE_WITH;
    var c5 := c4 + DRY_RUN;
    var c6 := c5 + RELEASE_PREVIEW;
    var c7 := c6 + McpTools.TOOL_RELEASE;
    var c8 := c7 + RELEASE_SAVE;
    var c9 := c8 + RELEASE_LAST;
    assert RELEASE_STEPS == c9;
    ContainsItself(STEPS_LABEL);
    ContainsExtended(STEPS_LABEL, c0, STEPS_LABEL);
    ContainsExtended(c1, RELEASE_FIRST, STEPS_LABEL);
    ContainsExtended(c2, McpTools.TOOL_RELEASE, STEPS_LABEL);
    ContainsExtended(c3, RELEASE_WITH, STEPS_LABEL);
    ContainsExtended(c4, DRY_RUN, STEPS_LABEL);
    ContainsExtended(c5, RELEASE_PREVIEW, STEPS_LABEL);
    ContainsExtended(c6, McpTools.TOOL_RELEASE, STEPS_LABEL);
    ContainsExtended(c7, RELEASE_SAVE, STEPS_LABEL);
    ContainsExtended(c8, RELEASE_LAST, STEPS_LABEL);
    ContainsItself(McpTools.TOOL_RELEASE);
    ContainsExtended(McpTools.TOOL_RELEASE, c2, McpTools.TOOL_RELEASE);
    ContainsExtended(c3, RELEASE_WITH, McpTools.TOOL_RELEASE);
    ContainsExtended(c4, DRY_RUN, McpTools.TOOL_RELEASE);
    ContainsExtended(c5, RELEASE_PREVIEW, McpTools.TOOL_RELEASE);
    ContainsExtended(c6, McpTools.TOOL_RELEASE, McpTools.TOOL_RELEASE);
    ContainsExtended(c7, RELEASE_SAVE, McpTools.TOOL_RELEASE);
    ContainsExtended(c8, RELEASE_LAST, McpTools.TOOL_RELEASE);
    ContainsItself(DRY_RUN);
    ContainsExtended(DRY_RUN, c4, DRY_RUN);
    ContainsExtended(c5, RELEASE_PREVIEW, DRY_RUN);
    ContainsExtended(c6, McpTools.TOOL_RELEASE, DRY_RUN);
    ContainsExtended(c7, RELEASE_SAVE, DRY_RUN);
    ContainsExtended(c8, RELEASE_LAST, DRY_RUN);
  }

  /** Each workflow's steps name its tool and ask for a dry run, whatever the arguments. */
  lemma StepsNameTheTool(context: string, version: string, fromTag: string)
    ensures Contains(CommitText(context), McpTools.TOOL_COMMIT)
    ensures Contains(CommitText(context), DRY_RUN) && Contains(CommitText(context), STEPS_LABEL)
    ensures Contains(ReleaseText(version, fromTag), McpTools.TOOL_RELEASE)
    ensures Contains(ReleaseText(version, fromTag), DRY_RUN) && Contains(ReleaseText(version, fromTag), STEPS_LABEL)
  {
    CommitStepsMention();
    ReleaseStepsMention();
    var c := COMMIT_OPENING + ContextSection(context);
    ContainsExtended(COMMIT_STEPS, c, McpTools.TOOL_COMMIT);
    ContainsExtended(COMMIT_STEPS, c, DRY_RUN);
    ContainsExtended(COMMIT_STEPS, c, STEPS_LABEL);
    var r := RELEASE_OPENING + OptionalLine("version", version) + OptionalLine("fromTag", fromTag);
    ContainsExtended(RELEASE_STEPS, r, McpTools.TOOL_RELEASE);
    ContainsExtended(RELEASE_STEPS, r, DRY_RUN);
    ContainsExtended(RELEASE_STEPS, r, STEPS_LABEL);
  }

  /** Every prompt `getPrompts` lists is one `getPrompt` answers, and each prompt's text is
      built from the arguments `getPrompts` declares for it. */
  lemma ListedPromptsResolve(args: Option<map<string, string>>)
    ensures forall i | 0 <= i < |GetPrompts()| :: GetPrompt(GetPrompts()[i].name, args).Ok?
    ensures GetPrompts()[0].arguments[0].name == "context"
      && GetPrompt(COMMIT_WORKFLOW, args).value.messages[0].text == CommitText(Argument(args, "context"))
    ensures GetPrompts()[1].arguments[0].name == "version" && GetPrompts()[1].arguments[1].name == "fromTag"
      && GetPrompt(RELEASE_WORKFLOW, args).value.messages[0].text
         == ReleaseText(Argument(args, "version"), Argument(args, "fromTag"))
  {
  }
}

/** src/commands/release.ts: the parts of the release command that decide what is asked of the
    release-notes generator and what is done with its answer. Git, the generator, the editor, the
    language model and storage are parameters. */
module Release {
  import opened Results
  import opened Text
  import opened Json
  import opened Constants

  /** A release summary: a title line and a markdown body. */
  datatype Summary = Summary(title: string, body: string)

  /** The markdown saved for a summary: a level-one heading, a blank line, the body. */
  function Markdown(s: Summary): string {
    "# " + s.title + "\n\n" + s.body
  }

  /** The first line of the saved markdown is the heading, followed by a blank line. */
  lemma MarkdownHeading(s: Summary)
    requires '\n' !in s.title
    ensures |Split(Markdown(s), '\n')| >= 2
    ensures Split(Markdown(s), '\n')[0] == "# " + s.title
    ensures Split(Markdown(s), '\n')[1] == ""
    ensures Join(Split(Markdown(s), '\n')[2..], "\n") == s.body
  {
    var head := "# " + s.title;
    assert '\n' !in head by {
      assert forall i | 0 <= i < |head| :: head[i] == if i < 2 then "# "[i] else s.title[i - 2];
    }
    assert Markdown(s) == head + ['\n'] + ([] + ['\n'] + s.body);
    SplitAtFirst(head, '\n', [] + ['\n'] + s.body);
    SplitAtFirst([], '\n', s.body);
    var parts := Split(Markdown(s), '\n');
    assert parts == [head] + ([""] + Split(s.body, '\n'));
    assert parts[2..] == Split(s.body, '\n');
    JoinSplit(s.body, '\n');
  }

  // ---------------------------------------------------------------- context files

  /** The section one readable context file contributes. */
  function ContextSection(path: JVal, content: string): string {
    "## Context from " + JsString(path) + "\n\n" + content + "\n"
  }

  /** The sections of the readable files among `paths`, in list order; unreadable files are
      skipped. */
  function ContextParts(paths: seq<JVal>, read: JVal -> Option<string>): (parts: seq<string>)
    ensures |parts| <= |paths|
  {
    if paths == [] then []
    else
      var init := ContextParts(paths[..|paths| - 1], read);
      match read(paths[|paths| - 1])
      case None => init
      case Some(content) => init + [ContextSection(paths[|paths| - 1], content)]
  }

  /** The sections of a concatenated list are those of each half, in order. */
  lemma {:induction false} ContextPartsAppend(a: seq<JVal>, b: seq<JVal>, read: JVal -> Option<string>)
    ensures ContextParts(a + b, read) == ContextParts(a, read) + ContextParts(b, read)
    decreases |b|
  {
    if b == [] {
      assert a + b == a;
    } else {
      var b' := b[..|b| - 1];
      assert (a + b)[..|a + b| - 1] == a + b';
      assert (a + b)[|a + b| - 1] == b[|b| - 1];
      ContextPartsAppend(a, b', read);
    }
  }

  /** When every file reads, there is one section per file, in list order. */
  lemma {:induction false} ContextPartsAllReadable(
    paths: seq<JVal>, contents: seq<string>, read: JVal -> Option<string>)
    requires |contents| == |paths|
    requires forall i | 0 <= i < |paths| :: read(paths[i]) == Some(contents[i])
    ensures |ContextParts(paths, read)| == |paths|
    ensures forall i | 0 <= i < |paths| :: ContextParts(paths, read)[i] == ContextSection(paths[i], contents[i])
  {
    if paths != [] {
      var n := |paths| - 1;
      ContextPartsAllReadable(paths[..n], contents[..n], read);
    }
  }

  /** When no file reads, there are no sections. */
  lemma {:induction false} ContextPartsNoneReadable(paths: seq<JVal>, read: JVal -> Option<string>)
    requires forall i | 0 <= i < |paths| :: read(paths[i]).None?
    ensures ContextParts(paths, read) == []
  {
    if paths != [] {
      ContextPartsNoneReadable(paths[..|paths| - 1], read);
    }
  }

  /** What `for…of` visits: the elements of an array, the characters of a string; any other
      value is not iterable. */
  function Iterated(v: JVal): Option<seq<JVal>> {
    match v
    case JArr(xs, _) => Some(xs)
    case JStr(s) => Some(seq(|s|, i requires 0 <= i < |s| => JStr([s[i]])))
    case _ => None
  }

  /** `v.length`. */
  function Length(v: JVal): JVal {
    match v
    case JArr(xs, _) => JNum(|xs|)
    case JStr(s) => JNum(|s|)
    case JObj(m) => Get(m, "length")
    case _ => JUndef
  }

  const CONTEXT_SEPARATOR: string := "\n---\n\n"

  /** What `readContextFiles` resolves to, or the TypeError it throws. */
  function ContextFromFiles(contextFiles: JVal, read: JVal -> Option<string>): Result<string> {
    if !Truthy(contextFiles) || Length(contextFiles) == JNum(0) then Ok("")
    else
      match Iterated(contextFiles)
      case None => Err("contextFiles is not iterable")
      case Some(paths) => Ok(Join(ContextParts(paths, read), CONTEXT_SEPARATOR))
  }

  /** `readContextFiles`: read each listed file, collect a section per readable one, join them. */
  method ReadContextFiles(contextFiles: JVal, read: JVal -> Option<string>) returns (r: Result<string>)
    ensures r == ContextFromFiles(contextFiles, read)
  {
    if !Truthy(contextFiles) || Length(contextFiles) == JNum(0) {
      return Ok("");
    }
    var paths: seq<JVal>;
    match Iterated(contextFiles) {
      case None => return Err("contextFiles is not iterable");
      case Some(ps) => paths := ps;
    }
    var contextParts: seq<string> := [];
    var i := 0;
    while i < |paths|
      invariant 0 <= i <= |paths|
      invariant contextParts == ContextParts(paths[..i], read)
    {
      assert paths[..i + 1][..i] == paths[..i];
      match read(paths[i]) {
        case None =>
        case Some(content) =>
          contextParts := contextParts + [ContextSection(paths[i], content)];
      }
      i := i + 1;
    }
    assert paths[..i] == paths;
    r := Ok(Join(contextParts, CONTEXT_SEPARATOR));
  }

  /** Two readable files give their two sections around one separator. */
  lemma TwoContextFiles(p: string, q: string, a: string, b: string, read: JVal -> Option<string>)
    requires read(JStr(p)) == Some(a) && read(JStr(q)) == Some(b)
    ensures ContextFromFiles(JArr([JStr(p), JStr(q)], map[]), read)
      == Ok(ContextSection(JStr(p), a) + CONTEXT_SEPARATOR + ContextSection(JStr(q), b))
  {
    ContextPartsAllReadable([JStr(p), JStr(q)], [a, b], read);
    var parts := ContextParts([JStr(p), JStr(q)], read);
    assert parts == [ContextSection(JStr(p), a), ContextSection(JStr(q), b)];
    assert parts[1..] == [ContextSection(JStr(q), b)];
    JoinTwoOrMore(parts, CONTEXT_SEPARATOR);
    assert Join(parts, CONTEXT_SEPARATOR) == ContextSection(JStr(p), a) + CONTEXT_SEPARATOR + ContextSection(JStr(q), b);
    assert Iterated(JArr([JStr(p), JStr(q)], map[])) == Some([JStr(p), JStr(q)]);
  }

  /** Absent, empty and non-iterable lists. */
  lemma ContextFromFilesEdges(read: JVal -> Option<string>)
    ensures ContextFromFiles(JUndef, read) == Ok("")
    ensures ContextFromFiles(JArr([], map[]), read) == Ok("")
    ensures ContextFromFiles(JObj(map["length" := JNum(0)]), read) == Ok("")
    ensures ContextFromFiles(JBool(true), read).Err?
    ensures ContextFromFiles(JNum(7), read).Err?
  {
  }

  /** `[context, fromFiles].filter(Boolean).join('\n\n---\n\n')`. */
  function CombinedContext(context: JVal, fromFiles: string): string {
    var kept := (if Truthy(context) then [JsString(context)] else [])
      + (if fromFiles != "" then [fromFiles] else []);
    Join(kept, "\n\n---\n\n")
  }

  /** `combinedContext || undefined`. */
  function UserContext(combined: string): JVal {
    if combined == "" then JUndef else JStr(combined)
  }

  /** Each present part appears, the configured context first; with neither the generator gets
      `undefined`. */
  lemma CombinedContextCases(c: string, fromFiles: string)
    ensures c != "" && fromFiles != "" ==>
      UserContext(CombinedContext(JStr(c), fromFiles)) == JStr(c + "\n\n---\n\n" + fromFiles)
    ensures c != "" && fromFiles == "" ==> UserContext(CombinedContext(JStr(c), fromFiles)) == JStr(c)
    ensures c == "" && fromFiles != "" ==> UserContext(CombinedContext(JStr(c), fromFiles)) == JStr(fromFiles)
    ensures UserContext(CombinedContext(JUndef, "")) == JUndef
  {
    if c != "" && fromFiles != "" {
      JoinTwoOrMore([c, fromFiles], "\n\n---\n\n");
      assert [c, fromFiles][1..] == [fromFiles];
    }
  }

  // ---------------------------------------------------------------- editing and feedback

  /** The title and body recovered from edited text: the trimmed first line, and the other lines
      re-joined and trimmed. */
  function SplitEdited(content: string): Summary {
    var lines := Split(content, '\n');
    Summary(Trim(lines[0]), Trim(Join(lines[1..], "\n")))
  }

  /** Saving the editor's text unchanged gives back the summary, for a one-line trimmed title and
      a trimmed body. */
  lemma EditedRoundTrip(s: Summary)
    requires '\n' !in s.title && IsTrimmed(s.title) && IsTrimmed(s.body)
    ensures SplitEdited(s.title + "\n\n" + s.body) == s
  {
    var rest := "\n" + s.body;
    assert s.title + "\n\n" + s.body == s.title + ['\n'] + rest;
    SplitAtFirst(s.title, '\n', rest);
    var lines := Split(s.title + "\n\n" + s.body, '\n');
    assert lines[0] == s.title && lines[1..] == Split(rest, '\n');
    JoinSplit(rest, '\n');
    TrimDropsLeadingSpace('\n', s.body);
    TrimOfTrimmed(s.title);
    TrimOfTrimmed(s.body);
  }

  /** The key pressed in one round: 'c', 'e', 's', 'i', or anything else. */
  datatype Choice = Confirm | Edit | Skip | Improve | Other

  function ChoiceOf(key: string): Choice {
    if key == "c" then Confirm
    else if key == "e" then Edit
    else if key == "s" then Skip
    else if key == "i" then Improve
    else Other
  }

  /** One round of the feedback loop: the choice; what `editReleaseNotesInteractively` returned
      (the `SplitEdited` of the text saved in the editor), or `None` when it threw; what
      `improveReleaseNotesWithLLM` returned, or `None` when it threw. */
  datatype Step = Step(choice: Choice, edited: Option<Summary>, improved: Option<Summary>)

  /** How the loop ended; `Undecided` means the rounds ran out before a confirm or skip. */
  datatype Decision = Confirmed(summary: Summary) | Skipped(summary: Summary) | Undecided(summary: Summary)

  predicate Decides(step: Step) {
    step.choice == Confirm || step.choice == Skip
  }

  /** The summary after a round that does not decide: a successful edit or improvement replaces
      it, anything else keeps it. */
  function Revised(current: Summary, step: Step): Summary {
    if step.choice == Edit && step.edited.Some? then step.edited.value
    else if step.choice == Improve && step.improved.Some? then step.improved.value
    else current
  }

  /** The summary after a sequence of rounds, each revising it in turn. */
  function Current(initial: Summary, steps: seq<Step>): Summary
    decreases |steps|
  {
    if steps == [] then initial
    else Current(Revised(initial, steps[0]), steps[1..])
  }

  /** The index of the first deciding round, or the number of rounds when none decides. */
  function FirstDecision(steps: seq<Step>): (i: nat)
    ensures i <= |steps|
    ensures i < |steps| ==> Decides(steps[i])
    ensures forall j | 0 <= j < i :: !Decides(steps[j])
  {
    if steps == [] then 0
    else if Decides(steps[0]) then 0
    else 1 + FirstDecision(steps[1..])
  }

  /** The outcome of `handleInteractiveReleaseFeedback` over the given rounds: each round either
      decides with the summary as it stands or revises it and loops. */
  function Feedback(current: Summary, steps: seq<Step>): Decision
    decreases |steps|
  {
    if steps == [] then Undecided(current)
    else
      match steps[0].choice
      case Confirm => Confirmed(current)
      case Skip => Skipped(current)
      case _ => Feedback(Revised(current, steps[0]), steps[1..])
  }

  /** `handleInteractiveReleaseFeedback`: show, ask, and act on the answer until it is confirm
      or skip. */
  method HandleInteractiveReleaseFeedback(summary: Summary, steps: seq<Step>) returns (d: Decision)
    ensures d == Feedback(summary, steps)
  {
    var currentSummary := summary;
    var i := 0;
    while i < |steps|
      invariant 0 <= i <= |steps|
      invariant Feedback(summary, steps) == Feedback(currentSummary, steps[i..])
    {
      var step := steps[i];
      assert steps[i..][0] == step && steps[i..][1..] == steps[i + 1..];
      match step.choice {
        case Confirm =>
          return Confirmed(currentSummary);
        case Edit =>
          if step.edited.Some? {
            currentSummary := step.edited.value;
          }
        case Skip =>
          return Skipped(currentSummary);
        case Improve =>
          if step.improved.Some? {
            currentSummary := step.improved.value;
          }
        case Other =>
      }
      i := i + 1;
    }
    return Undecided(currentSummary);
  }

  /** The loop ends at the first confirm or skip, with every successful revision before it
      applied in order; without one it is still undecided when the rounds run out. */
  lemma {:induction false} FeedbackDecidesAtFirst(initial: Summary, steps: seq<Step>)
    ensures var i := FirstDecision(steps);
      var current := Current(initial, steps[..i]);
      Feedback(initial, steps) ==
        if i == |steps| then Undecided(current)
        else if steps[i].choice == Confirm then Confirmed(current)
        else Skipped(current)
    decreases |steps|
  {
    if steps != [] && !Decides(steps[0]) {
      var i := FirstDecision(steps);
      FeedbackDecidesAtFirst(Revised(initial, steps[0]), steps[1..]);
      assert steps[..i][1..] == steps[1..][..i - 1];
      assert steps[..i] != [] && steps[..i][0] == steps[0];
    }
  }

  /** No round in `steps` carries a successful edit or improvement. */
  predicate Unrevised(steps: seq<Step>) {
    forall j | 0 <= j < |steps| :: steps[j].edited.None? && steps[j].improved.None?
  }

  /** Failed edits and improvements, and unknown keys, leave the summary as it was. */
  lemma {:induction false} FailedRoundsKeepSummary(initial: Summary, steps: seq<Step>)
    requires Unrevised(steps)
    ensures Current(initial, steps) == initial
    decreases |steps|
  {
    if steps != [] {
      assert Unrevised(steps[1..]) by {
        forall j | 0 <= j < |steps[1..]|
          ensures steps[1..][j].edited.None? && steps[1..][j].improved.None?
        {
          assert steps[1..][j] == steps[j + 1];
        }
      }
      FailedRoundsKeepSummary(initial, steps[1..]);
    }
  }

  /** A successful edit or improvement replaces the summary, whatever it was. */
  predicate Revises(step: Step) {
    (step.choice == Edit && step.edited.Some?) || (step.choice == Improve && step.improved.Some?)
  }

  lemma RevisionReplaces(a: Summary, b: Summary, step: Step)
    requires Revises(step)
    ensures Revised(a, step) == Revised(b, step)
  {
  }

  lemma DropFirst(steps: seq<Step>, k: nat)
    requires 0 < k < |steps|
    ensures steps[1..][k - 1] == steps[k] && steps[1..][k..] == steps[k + 1..]
  {
  }

  /** After the last successful revision, the summary is that revision. */
  lemma {:induction false} LastRevisionWins(initial: Summary, steps: seq<Step>, k: nat)
    requires k < |steps|
    requires Revises(steps[k])
    requires Unrevised(steps[k + 1..])
    ensures Current(initial, steps) == Revised(initial, steps[k])
    decreases |steps|
  {
    var rest := steps[1..];
    var next := Revised(initial, steps[0]);
    assert Current(initial, steps) == Current(next, rest);
    if k == 0 {
      FailedRoundsKeepSummary(next, rest);
    } else {
      DropFirst(steps, k);
      LastRevisionWins(next, rest, k - 1);
      RevisionReplaces(next, initial, steps[k]);
    }
  }

  /** Confirming at once keeps the generated notes; skipping also returns the current notes. */
  lemma ImmediateDecision(s: Summary, rest: seq<Step>)
    ensures Feedback(s, [Step(Confirm, None, None)] + rest) == Confirmed(s)
    ensures Feedback(s, [Step(Skip, None, None)] + rest) == Skipped(s)
  {
  }

  /** An edit followed by a confirm returns the edited notes. */
  lemma EditThenConfirm(s: Summary, edited: Summary)
    ensures Feedback(s, [Step(Edit, Some(edited), None), Step(Confirm, None, None)]) == Confirmed(edited)
  {
    var steps := [Step(Edit, Some(edited), None), Step(Confirm, None, None)];
    assert steps[1..] == [Step(Confirm, None, None)];
  }

  /** An edit that saves the text unchanged and then a confirm keeps the notes. */
  lemma EditUnchangedThenConfirm(s: Summary)
    requires '\n' !in s.title && IsTrimmed(s.title) && IsTrimmed(s.body)
    ensures Feedback(s, [Step(Edit, Some(SplitEdited(s.title + "\n\n" + s.body)), None), Step(Confirm, None, None)]) == Confirmed(s)
  {
    EditedRoundTrip(s);
    EditThenConfirm(s, SplitEdited(s.title + "\n\n" + s.body));
  }

  // ---------------------------------------------------------------- execute

  /** What `execute` hands to the release-notes generator. */
  datatype AgentRequest = AgentRequest(
    fromRef: JVal,
    toRef: JVal,
    messageLimit: JVal,
    maxDiffBytes: JVal,
    excludedPatterns: JVal,
    releaseFocus: JVal,
    userContext: JVal,
    targetVersion: JVal,
    maxIterations: JVal)

  /** The defaulting `execute` applies, given the collaborator's default start ref and the text
      read from the context files. */
  function PlanRelease(config: Obj, defaultFrom: JVal, fromFiles: string): AgentRequest {
    var release := Get(config, "release");
    AgentRequest(
      Coalesce(Prop(release, "from"), defaultFrom),
      Coalesce(Prop(release, "to"), JStr(DEFAULT_TO_COMMIT_ALIAS)),
      Prop(release, "messageLimit"),
      Coalesce(Prop(release, "maxDiffBytes"), JNum(DEFAULT_MAX_DIFF_BYTES)),
      Coalesce(Get(config, "excludedPatterns"), StringList(DEFAULT_EXCLUDED_PATTERNS)),
      Prop(release, "focus"),
      UserContext(CombinedContext(Prop(release, "context"), fromFiles)),
      Prop(release, "version"),
      OrElse(Prop(release, "maxAgenticIterations"), JNum(30)))
  }

  /** An explicit start ref wins, even an empty one; only `null` and `undefined` fall back. */
  lemma FromRefPrecedence(config: Obj, defaultFrom: JVal, fromFiles: string)
    ensures var from := Prop(Get(config, "release"), "from");
      && (!IsNullish(from) ==> PlanRelease(config, defaultFrom, fromFiles).fromRef == from)
      && (IsNullish(from) ==> PlanRelease(config, defaultFrom, fromFiles).fromRef == defaultFrom)
  {
  }

  /** A configured iteration limit of 0 (or none) becomes 30; a positive one is kept. */
  lemma IterationLimit(config: Obj, defaultFrom: JVal, fromFiles: string, n: int)
    requires Get(config, "release").JObj?
    ensures var m := Get(config, "release").fields;
      && (Get(m, "maxAgenticIterations") == JNum(n) && n != 0 ==>
            PlanRelease(config, defaultFrom, fromFiles).maxIterations == JNum(n))
      && (Get(m, "maxAgenticIterations") in {JNum(0), JUndef, JNull} ==>
            PlanRelease(config, defaultFrom, fromFiles).maxIterations == JNum(30))
  {
  }

  /** The end ref comes from `release.to`; `release.toTag`, which the defaults set, is never
      read. */
  lemma ToRefIgnoresToTag(m: Obj, config: Obj, defaultFrom: JVal, fromFiles: string, tag: JVal)
    requires Get(config, "release") == JObj(m)
    ensures PlanRelease(config[("release") := JObj(m["toTag" := tag])], defaultFrom, fromFiles)
      == PlanRelease(config, defaultFrom, fromFiles)
  {
    assert Get(m["toTag" := tag], "to") == Get(m, "to");
    assert Get(m["toTag" := tag], "from") == Get(m, "from");
  }

  /** Run over the built-in defaults alone, the release starts from the collaborator's default,
      ends at HEAD, gets no extra context and 30 iterations. */
  lemma DefaultsPlanRefs(defaultFrom: JVal)
    ensures var q := PlanRelease(KildeDefaults(), defaultFrom, "");
      && q.fromRef == defaultFrom
      && q.toRef == JStr("HEAD")
      && q.userContext == JUndef
      && q.maxIterations == JNum(30)
  {
    var release := Get(KildeDefaults(), "release");
    assert release == JObj(RELEASE_DEFAULTS);
    assert Prop(release, "from") == JUndef;
    assert Prop(release, "to") == JUndef;
    assert Prop(release, "context") == JUndef;
    assert Prop(release, "maxAgenticIterations") == JUndef;
    assert CombinedContext(JUndef, "") == Join([], "\n\n---\n\n") == "";
  }

  /** Run over the built-in defaults alone, the release keeps the history limit of 3, the
      20480-byte diff ceiling and the default exclusions. */
  lemma DefaultsPlanLimits(defaultFrom: JVal)
    ensures var q := PlanRelease(KildeDefaults(), defaultFrom, "");
      && q.messageLimit == JNum(3)
      && q.maxDiffBytes == JNum(20480)
      && q.excludedPatterns == StringList(DEFAULT_EXCLUDED_PATTERNS)
  {
    assert Get(KildeDefaults(), "release") == JObj(RELEASE_DEFAULTS);
    CommitAndReleaseDefaults();
  }

  /** What a run of `execute` produced: the request, the final summary, how the review ended (if
      there was one), the markdown saved, and where else it was written. */
  datatype ReleaseRun = ReleaseRun(
    request: AgentRequest,
    summary: Summary,
    review: Option<Decision>,
    saved: string,
    outputFile: Option<JVal>)

  const TTY_REQUIRED: string := "Interactive mode requires a terminal. Use --dry-run instead."

  /** `execute`, with git, the generator, the terminal, the reviewer's answers and storage as
      parameters. `None` means `execute` has not returned: the review loop is still waiting for
      a confirm or skip when the given rounds run out. */
  method Execute(
    config: Obj,
    defaultFrom: JVal,
    read: JVal -> Option<string>,
    generate: AgentRequest -> Summary,
    isTTY: bool,
    steps: seq<Step>)
    returns (r: Option<Result<ReleaseRun>>)
    ensures var release := Get(config, "release");
      var interactive := Truthy(Prop(release, "interactive")) && !Truthy(Get(config, "dryRun"));
      var context := ContextFromFiles(Prop(release, "contextFiles"), read);
      && (r.None? <==>
            (context.Ok? && interactive && isTTY
             && Feedback(generate(PlanRelease(config, defaultFrom, context.value)), steps).Undecided?))
      && (r.Some? ==> (r.value.Ok? <==> context.Ok? && (isTTY || !interactive)))
      && (context.Err? ==> r == Some(Err(context.message)))
      && (context.Ok? && interactive && !isTTY ==> r == Some(Err(TTY_REQUIRED)))
      && (r.Some? && r.value.Ok? ==>
        var request := PlanRelease(config, defaultFrom, context.value);
        && r.value.value.request == request
        && r.value.value.saved == Markdown(r.value.value.summary)
        && (interactive ==>
              && r.value.value.review == Some(Feedback(generate(request), steps))
              && !Feedback(generate(request), steps).Undecided?
              && r.value.value.summary == Feedback(generate(request), steps).summary)
        && (!interactive ==> r.value.value.review == None && r.value.value.summary == generate(request))
        && (r.value.value.outputFile.Some? <==> Truthy(Prop(release, "output"))))
  {
    var isDryRun := Truthy(Get(config, "dryRun"));
    var release := Get(config, "release");
    var fileContext := ReadContextFiles(Prop(release, "contextFiles"), read);
    if fileContext.Err? {
      return Some(Err(fileContext.message));
    }
    var contextFromFiles := fileContext.value;
    var request := PlanRelease(config, defaultFrom, contextFromFiles);
    var releaseSummary := generate(request);
    var review: Option<Decision> := None;
    if Truthy(Prop(release, "interactive")) && !isDryRun {
      if !isTTY {
        return Some(Err(TTY_REQUIRED));
      }
      var decision := HandleInteractiveReleaseFeedback(releaseSummary, steps);
      if decision.Undecided? {
        return None;
      }
      review := Some(decision);
      releaseSummary := decision.summary;
    }
    var releaseNotesContent := Markdown(releaseSummary);
    var outputFile := Prop(release, "output");
    return Some(Ok(ReleaseRun(request, releaseSummary, review, releaseNotesContent,
      if Truthy(outputFile) then Some(outputFile) else None)));
  }
}

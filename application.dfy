/** The command-line layer of src/application.ts: the run configuration built from the
    defaults, the effective file configuration and the command-line flags; the log level the
    flags select; how `executeCommand` settles a command's outcome; the Node.js version gate and
    the version banner. */
module Application {
  import opened Results
  import opened Text
  import opened Json
  import opened Constants
  import opened ConfigResolver
  import Release

  // ---------------------------------------------------------------------------------------
  // Flag tables

  /** When a flag is copied: whenever it is not `undefined`, or only when it is truthy. */
  datatype Guard = WhenDefined | WhenTruthy

  /** `if (<guard> options.<option>) <slot>.<field> = options.<option>`. */
  datatype Rule = Rule(option: string, field: string, guard: Guard)

  predicate Fires(rule: Rule, options: Obj) {
    match rule.guard
    case WhenDefined => !Get(options, rule.option).JUndef?
    case WhenTruthy => Truthy(Get(options, rule.option))
  }

  /** The program-wide flags, copied to the top level of the configuration. */
  const GLOBAL_RULES: seq<Rule> := [
    Rule("verbose", "verbose", WhenDefined),
    Rule("debug", "debug", WhenDefined),
    Rule("dryRun", "dryRun", WhenDefined),
    Rule("model", "model", WhenTruthy),
    Rule("reasoning", "openaiReasoning", WhenTruthy)
  ]

  /** The flags of `kilde commit`, copied into `config.commit`. */
  const COMMIT_RULES: seq<Rule> := [
    Rule("add", "add", WhenDefined),
    Rule("cached", "cached", WhenDefined),
    Rule("sendit", "sendit", WhenDefined),
    Rule("interactive", "interactive", WhenDefined),
    Rule("amend", "amend", WhenDefined),
    Rule("push", "push", WhenDefined),
    Rule("context", "context", WhenTruthy),
    Rule("contextFiles", "contextFiles", WhenTruthy)
  ]

  /** The flags of `kilde release`, copied into `config.release`; the tag flags land in
      `from` and `to`. */
  const RELEASE_RULES: seq<Rule> := [
    Rule("fromTag", "from", WhenTruthy),
    Rule("toTag", "to", WhenTruthy),
    Rule("interactive", "interactive", WhenDefined),
    Rule("focus", "focus", WhenTruthy),
    Rule("context", "context", WhenTruthy),
    Rule("contextFiles", "contextFiles", WhenTruthy),
    Rule("version", "version", WhenTruthy),
    Rule("output", "output", WhenTruthy)
  ]

  /** The tables entry by entry, for the straight-line code that follows them. */
  lemma GlobalEntries()
    ensures |GLOBAL_RULES| == 5
    ensures GLOBAL_RULES[0] == Rule("verbose", "verbose", WhenDefined)
    ensures GLOBAL_RULES[1] == Rule("debug", "debug", WhenDefined)
    ensures GLOBAL_RULES[2] == Rule("dryRun", "dryRun", WhenDefined)
    ensures GLOBAL_RULES[3] == Rule("model", "model", WhenTruthy)
    ensures GLOBAL_RULES[4] == Rule("reasoning", "openaiReasoning", WhenTruthy)
  {
  }

  lemma CommitEntries()
    ensures |COMMIT_RULES| == 8
    ensures COMMIT_RULES[0] == Rule("add", "add", WhenDefined)
    ensures COMMIT_RULES[1] == Rule("cached", "cached", WhenDefined)
    ensures COMMIT_RULES[2] == Rule("sendit", "sendit", WhenDefined)
    ensures COMMIT_RULES[3] == Rule("interactive", "interactive", WhenDefined)
    ensures COMMIT_RULES[4] == Rule("amend", "amend", WhenDefined)
    ensures COMMIT_RULES[5] == Rule("push", "push", WhenDefined)
    ensures COMMIT_RULES[6] == Rule("context", "context", WhenTruthy)
    ensures COMMIT_RULES[7] == Rule("contextFiles", "contextFiles", WhenTruthy)
  {
  }

  lemma ReleaseEntries()
    ensures |RELEASE_RULES| == 8
    ensures RELEASE_RULES[0] == Rule("fromTag", "from", WhenTruthy)
    ensures RELEASE_RULES[1] == Rule("toTag", "to", WhenTruthy)
    ensures RELEASE_RULES[2] == Rule("interactive", "interactive", WhenDefined)
    ensures RELEASE_RULES[3] == Rule("focus", "focus", WhenTruthy)
    ensures RELEASE_RULES[4] == Rule("context", "context", WhenTruthy)
    ensures RELEASE_RULES[5] == Rule("contextFiles", "contextFiles", WhenTruthy)
    ensures RELEASE_RULES[6] == Rule("version", "version", WhenTruthy)
    ensures RELEASE_RULES[7] == Rule("output", "output", WhenTruthy)
  {
  }

  /** One line of a flag block: when the rule fires, the flag's value is assigned to the
      section's property, which throws on a primitive section; once an assignment has thrown,
      no later line runs. */
  function Step(acc: Result<JVal>, rule: Rule, options: Obj): Result<JVal> {
    if acc.Err? || !Fires(rule, options) then acc
    else SetProp(acc.value, rule.field, Get(options, rule.option))
  }

  /** The lines of rules `from` onwards, in order. */
  function Fold(acc: Result<JVal>, rules: seq<Rule>, from: nat, options: Obj): Result<JVal>
    requires from <= |rules|
    decreases |rules| - from
  {
    if from == |rules| then acc else Fold(Step(acc, rules[from], options), rules, from + 1, options)
  }

  /** The flag block of rules `from` onwards run on `slot`. */
  function ApplyRules(slot: JVal, rules: seq<Rule>, from: nat, options: Obj): Result<JVal>
    requires from <= |rules|
  {
    Fold(Ok(slot), rules, from, options)
  }

  lemma {:induction false} FoldKeepsError(message: string, rules: seq<Rule>, from: nat, options: Obj)
    requires from <= |rules|
    ensures Fold(Err(message), rules, from, options) == Err(message)
    decreases |rules| - from
  {
    if from < |rules| {
      FoldKeepsError(message, rules, from + 1, options);
    }
  }

  lemma FoldKeepsErrors(rules: seq<Rule>, options: Obj)
    ensures forall message: string, k | 0 <= k <= |rules| :: Fold(Err(message), rules, k, options) == Err(message)
  {
    forall message: string, k | 0 <= k <= |rules|
      ensures Fold(Err(message), rules, k, options) == Err(message)
    {
      FoldKeepsError(message, rules, k, options);
    }
  }

  lemma FoldStepAt(slot: JVal, rules: seq<Rule>, k: nat, options: Obj, rule: Rule)
    requires k < |rules| && rules[k] == rule
    ensures Fold(Ok(slot), rules, k, options) == Fold(Step(Ok(slot), rule, options), rules, k + 1, options)
  {
  }

  /** The entries that rules `from` onwards write, each key holding what the last rule writing
      it copies. */
  function Updates(rules: seq<Rule>, from: nat, options: Obj): Obj
    requires from <= |rules|
    decreases |rules| - from
  {
    if from == |rules| then map[]
    else
      var rule := rules[from];
      (if Fires(rule, options) then map[rule.field := Get(options, rule.option)] else map[])
        + Updates(rules, from + 1, options)
  }

  /** The assignments of rules `from` onwards onto a plain object, in order. */
  function Assigned(m: Obj, rules: seq<Rule>, from: nat, options: Obj): Obj
    requires from <= |rules|
    decreases |rules| - from
  {
    if from == |rules| then m
    else
      var rule := rules[from];
      Assigned(if Fires(rule, options) then m[rule.field := Get(options, rule.option)] else m,
               rules, from + 1, options)
  }

  /** Assigning onto an object adds the written entries over its own. */
  lemma {:induction false} AssignedIsMerge(m: Obj, rules: seq<Rule>, from: nat, options: Obj)
    requires from <= |rules|
    ensures Assigned(m, rules, from, options) == m + Updates(rules, from, options)
    decreases |rules| - from
  {
    if from == |rules| {
      assert m + map[] == m;
    } else {
      var r := rules[from];
      var next := if Fires(r, options) then m[r.field := Get(options, r.option)] else m;
      AssignedIsMerge(next, rules, from + 1, options);
      UpdatesStep(m, rules, from, options);
    }
  }

  /** Rule `i` fires and writes key `k`. */
  predicate Writes(rules: seq<Rule>, options: Obj, i: int, k: string) {
    0 <= i < |rules| && rules[i].field == k && Fires(rules[i], options)
  }

  /** The keys a table can write. */
  function Fields(rules: seq<Rule>): set<string> {
    set i | 0 <= i < |rules| :: rules[i].field
  }

  /** No two rules of the table write the same key. */
  predicate DistinctFields(rules: seq<Rule>) {
    forall i, j | 0 <= i < j < |rules| :: rules[i].field != rules[j].field
  }

  lemma UpdatesStep(m: Obj, rules: seq<Rule>, from: nat, options: Obj)
    requires from < |rules|
    ensures m + Updates(rules, from, options)
      == (if Fires(rules[from], options) then m[rules[from].field := Get(options, rules[from].option)] else m)
         + Updates(rules, from + 1, options)
  {
  }

  /** A key is written iff some rule writing it fires, and it holds what the last such rule
      copies. */
  lemma {:induction false} UpdatesLastWriter(rules: seq<Rule>, from: nat, options: Obj, k: string)
    requires from <= |rules|
    ensures k in Updates(rules, from, options) <==> exists i | from <= i :: Writes(rules, options, i, k)
    ensures forall i | from <= i && Writes(rules, options, i, k) &&
        (forall j | i < j :: !Writes(rules, options, j, k)) ::
      Updates(rules, from, options)[k] == Get(options, rules[i].option)
    decreases |rules| - from
  {
    if from < |rules| {
      UpdatesLastWriter(rules, from + 1, options, k);
      if Writes(rules, options, from, k) {
        assert k in Updates(rules, from, options);
      }
    }
  }

  /** In a table without repeated keys, each rule's key is written exactly when the rule
      fires, with the flag's value, and no key outside the table is written. */
  lemma UpdatesOfDistinct(rules: seq<Rule>, options: Obj)
    requires DistinctFields(rules)
    ensures forall i | 0 <= i < |rules| ::
      (rules[i].field in Updates(rules, 0, options) <==> Fires(rules[i], options))
    ensures forall i | 0 <= i < |rules| && Fires(rules[i], options) ::
      Updates(rules, 0, options)[rules[i].field] == Get(options, rules[i].option)
    ensures Updates(rules, 0, options).Keys <= Fields(rules)
  {
    forall i | 0 <= i < |rules|
      ensures rules[i].field in Updates(rules, 0, options) <==> Fires(rules[i], options)
      ensures Fires(rules[i], options) ==>
        Updates(rules, 0, options)[rules[i].field] == Get(options, rules[i].option)
    {
      UpdatesLastWriter(rules, 0, options, rules[i].field);
    }
    forall k | k in Updates(rules, 0, options) ensures k in Fields(rules) {
      UpdatesLastWriter(rules, 0, options, k);
    }
  }

  /** Assigning into an object adds the written entries over its own. */
  lemma {:induction false} ApplyRulesOnObject(m: Obj, rules: seq<Rule>, from: nat, options: Obj)
    requires from <= |rules|
    ensures ApplyRules(JObj(m), rules, from, options) == Ok(JObj(m + Updates(rules, from, options)))
    decreases |rules| - from
  {
    if from == |rules| {
      assert m + map[] == m;
    } else {
      var r := rules[from];
      var next := if Fires(r, options) then m[r.field := Get(options, r.option)] else m;
      assert Step(Ok(JObj(m)), r, options) == Ok(JObj(next));
      ApplyRulesOnObject(next, rules, from + 1, options);
      UpdatesStep(m, rules, from, options);
    }
  }

  /** Assigning into an array adds the written entries over its named properties and keeps
      its elements. */
  lemma {:induction false} ApplyRulesOnArray(items: seq<JVal>, named: Obj, rules: seq<Rule>, from: nat, options: Obj)
    requires from <= |rules|
    ensures ApplyRules(JArr(items, named), rules, from, options)
      == Ok(JArr(items, named + Updates(rules, from, options)))
    decreases |rules| - from
  {
    if from == |rules| {
      assert named + map[] == named;
    } else {
      var r := rules[from];
      var next := if Fires(r, options) then named[r.field := Get(options, r.option)] else named;
      assert Step(Ok(JArr(items, named)), r, options) == Ok(JArr(items, next));
      ApplyRulesOnArray(items, next, rules, from + 1, options);
      UpdatesStep(named, rules, from, options);
    }
  }

  /** Into a primitive, the assignments throw iff some rule fires, and nothing changes
      otherwise. */
  lemma {:induction false} ApplyRulesOnPrimitive(v: JVal, rules: seq<Rule>, from: nat, options: Obj)
    requires !v.JObj? && !v.JArr?
    requires from <= |rules|
    ensures ApplyRules(v, rules, from, options).Err? <==> exists i | from <= i < |rules| :: Fires(rules[i], options)
    ensures ApplyRules(v, rules, from, options).Ok? ==> ApplyRules(v, rules, from, options) == Ok(v)
    decreases |rules| - from
  {
    if from < |rules| {
      var r := rules[from];
      if Fires(r, options) {
        var e := SetProp(v, r.field, Get(options, r.option));
        assert e.Err?;
        FoldKeepsError(e.message, rules, from + 1, options);
      } else {
        ApplyRulesOnPrimitive(v, rules, from + 1, options);
      }
    }
  }

  /** A table without repeated keys, applied to an object: a rule's key takes the flag's value
      when the rule fires and keeps the object's otherwise; keys outside the table keep theirs. */
  lemma FlagsOnObject(m: Obj, rules: seq<Rule>, options: Obj)
    requires DistinctFields(rules)
    ensures ApplyRules(JObj(m), rules, 0, options) == Ok(JObj(m + Updates(rules, 0, options)))
    ensures var c := m + Updates(rules, 0, options);
      && (forall i | 0 <= i < |rules| ::
            Get(c, rules[i].field) == (if Fires(rules[i], options) then Get(options, rules[i].option)
                                       else Get(m, rules[i].field)))
      && (forall k | k !in Fields(rules) :: Get(c, k) == Get(m, k))
  {
    ApplyRulesOnObject(m, rules, 0, options);
    UpdatesOfDistinct(rules, options);
  }

  // ---------------------------------------------------------------------------------------
  // buildConfig

  /** `config.<name> = config.<name> || {}` followed by the command's flag assignments. */
  function WithSlot(config: Obj, name: string, rules: seq<Rule>, options: Obj): Result<Obj> {
    var slot :- ApplyRules(OrElse(Get(config, name), JObj(map[])), rules, 0, options);
    Ok(config[name := slot])
  }

  /** Assigning a key twice leaves the second value. */
  lemma OverwriteTwice(m: Obj, k: string, first: JVal, second: JVal)
    ensures m[k := first][k := second] == m[k := second]
  {
  }

  /** The section step ends in the section's flags or in the first error they raise. */
  lemma WithSlotOutcome(config: Obj, name: string, rules: seq<Rule>, options: Obj)
    ensures var applied := ApplyRules(OrElse(Get(config, name), JObj(map[])), rules, 0, options);
      && (applied.Ok? ==> WithSlot(config, name, rules, options) == Ok(config[name := applied.value]))
      && (applied.Err? ==> WithSlot(config, name, rules, options) == Err(applied.message))
  {
  }

  /** The configuration after the defaults, every own entry of the effective file
      configuration, and the global flags. */
  function GlobalLayer(effective: Obj, parent: Obj): Obj {
    Assigned(KildeDefaults() + effective, GLOBAL_RULES, 0, parent)
  }

  /** The run configuration: the global layer, then the command's flags in its own section. */
  function Layered(command: string, effective: Obj, parent: Obj, options: Obj): Result<Obj> {
    var config := GlobalLayer(effective, parent);
    if command == COMMAND_COMMIT then WithSlot(config, "commit", COMMIT_RULES, options)
    else if command == COMMAND_RELEASE then WithSlot(config, "release", RELEASE_RULES, options)
    else Ok(config)
  }

  /** The global flags, copied onto the configuration one by one. */
  method AssignGlobalOptions(config: Obj, parent: Obj) returns (result: Obj)
    ensures result == Assigned(config, GLOBAL_RULES, 0, parent)
  {
    GlobalEntries();
    ghost var spec := Assigned(config, GLOBAL_RULES, 0, parent);
    result := config;
    if !Get(parent, "verbose").JUndef? {
      result := result["verbose" := Get(parent, "verbose")];
    }
    assert spec == Assigned(result, GLOBAL_RULES, 1, parent);
    if !Get(parent, "debug").JUndef? {
      result := result["debug" := Get(parent, "debug")];
    }
    assert spec == Assigned(result, GLOBAL_RULES, 2, parent);
    if !Get(parent, "dryRun").JUndef? {
      result := result["dryRun" := Get(parent, "dryRun")];
    }
    assert spec == Assigned(result, GLOBAL_RULES, 3, parent);
    if Truthy(Get(parent, "model")) {
      result := result["model" := Get(parent, "model")];
    }
    assert spec == Assigned(result, GLOBAL_RULES, 4, parent);
    if Truthy(Get(parent, "reasoning")) {
      result := result["openaiReasoning" := Get(parent, "reasoning")];
    }
    assert spec == Assigned(result, GLOBAL_RULES, 5, parent);
  }

  /** One line of a flag block, `if (<guard> options.<option>) section.<field> = options.<option>`. */
  method AssignFlag(slot: JVal, rule: Rule, options: Obj) returns (r: Result<JVal>)
    ensures r == Step(Ok(slot), rule, options)
  {
    r := Ok(slot);
    if Fires(rule, options) {
      r := SetProp(slot, rule.field, Get(options, rule.option));
    }
  }

  /** The `kilde commit` flag block, line by line in source order. */
  method AssignCommitOptions(commit: JVal, options: Obj) returns (r: Result<JVal>)
    ensures r == ApplyRules(commit, COMMIT_RULES, 0, options)
  {
    CommitEntries();
    FoldKeepsErrors(COMMIT_RULES, options);
    var slot := commit;
    FoldStepAt(slot, COMMIT_RULES, 0, options, Rule("add", "add", WhenDefined));
    slot :- AssignFlag(slot, Rule("add", "add", WhenDefined), options);
    FoldStepAt(slot, COMMIT_RULES, 1, options, Rule("cached", "cached", WhenDefined));
    slot :- AssignFlag(slot, Rule("cached", "cached", WhenDefined), options);
    FoldStepAt(slot, COMMIT_RULES, 2, options, Rule("sendit", "sendit", WhenDefined));
    slot :- AssignFlag(slot, Rule("sendit", "sendit", WhenDefined), options);
    FoldStepAt(slot, COMMIT_RULES, 3, options, Rule("interactive", "interactive", WhenDefined));
    slot :- AssignFlag(slot, Rule("interactive", "interactive", WhenDefined), options);
    FoldStepAt(slot, COMMIT_RULES, 4, options, Rule("amend", "amend", WhenDefined));
    slot :- AssignFlag(slot, Rule("amend", "amend", WhenDefined), options);
    FoldStepAt(slot, COMMIT_RULES, 5, options, Rule("push", "push", WhenDefined));
    slot :- AssignFlag(slot, Rule("push", "push", WhenDefined), options);
    FoldStepAt(slot, COMMIT_RULES, 6, options, Rule("context", "context", WhenTruthy));
    slot :- AssignFlag(slot, Rule("context", "context", WhenTruthy), options);
    FoldStepAt(slot, COMMIT_RULES, 7, options, Rule("contextFiles", "contextFiles", WhenTruthy));
    slot :- AssignFlag(slot, Rule("contextFiles", "contextFiles", WhenTruthy), options);
    r := Ok(slot);
  }

  /** The `kilde release` flag block, line by line in source order. */
  method AssignReleaseOptions(release: JVal, options: Obj) returns (r: Result<JVal>)
    ensures r == ApplyRules(release, RELEASE_RULES, 0, options)
  {
    ReleaseEntries();
    FoldKeepsErrors(RELEASE_RULES, options);
    var slot := release;
    FoldStepAt(slot, RELEASE_RULES, 0, options, Rule("fromTag", "from", WhenTruthy));
    slot :- AssignFlag(slot, Rule("fromTag", "from", WhenTruthy), options);
    FoldStepAt(slot, RELEASE_RULES, 1, options, Rule("toTag", "to", WhenTruthy));
    slot :- AssignFlag(slot, Rule("toTag", "to", WhenTruthy), options);
    FoldStepAt(slot, RELEASE_RULES, 2, options, Rule("interactive", "interactive", WhenDefined));
    slot :- AssignFlag(slot, Rule("interactive", "interactive", WhenDefined), options);
    FoldStepAt(slot, RELEASE_RULES, 3, options, Rule("focus", "focus", WhenTruthy));
    slot :- AssignFlag(slot, Rule("focus", "focus", WhenTruthy), options);
    FoldStepAt(slot, RELEASE_RULES, 4, options, Rule("context", "context", WhenTruthy));
    slot :- AssignFlag(slot, Rule("context", "context", WhenTruthy), options);
    FoldStepAt(slot, RELEASE_RULES, 5, options, Rule("contextFiles", "contextFiles", WhenTruthy));
    slot :- AssignFlag(slot, Rule("contextFiles", "contextFiles", WhenTruthy), options);
    FoldStepAt(slot, RELEASE_RULES, 6, options, Rule("version", "version", WhenTruthy));
    slot :- AssignFlag(slot, Rule("version", "version", WhenTruthy), options);
    FoldStepAt(slot, RELEASE_RULES, 7, options, Rule("output", "output", WhenTruthy));
    slot :- AssignFlag(slot, Rule("output", "output", WhenTruthy), options);
    r := Ok(slot);
  }

  /** `buildConfig(commandName, cliOptions)`, with `parent` the program-wide flags and
      `options` the command's own. */
  method BuildConfig(command: string, fs: FileSystem, parse: Parser, parent: Obj, options: Obj)
    returns (r: Result<Obj>)
    ensures r == Layered(command, EffectiveConfig(fs, parse), parent, options)
  {
    var fileConfig := GetEffectiveConfig(fs, parse);
    var config := KildeDefaults();
    config := config + fileConfig;
    config := AssignGlobalOptions(config, parent);
    ghost var base := config;
    ghost var spec := Layered(command, fileConfig, parent, options);
    assert base == GlobalLayer(fileConfig, parent);
    if command == COMMAND_COMMIT {
      var commit := OrElse(Get(config, "commit"), JObj(map[]));
      config := config["commit" := commit];
      var flagged := AssignCommitOptions(commit, options);
      WithSlotOutcome(base, "commit", COMMIT_RULES, options);
      assert spec == WithSlot(base, "commit", COMMIT_RULES, options);
      if flagged.Err? {
        r := Err(flagged.message);
        assert r == spec;
        return;
      }
      commit := flagged.value;
      OverwriteTwice(base, "commit", config["commit"], commit);
      config := config["commit" := commit];
      assert Ok(config) == spec;
    } else if command == COMMAND_RELEASE {
      var release := OrElse(Get(config, "release"), JObj(map[]));
      config := config["release" := release];
      var flagged := AssignReleaseOptions(release, options);
      WithSlotOutcome(base, "release", RELEASE_RULES, options);
      assert spec == WithSlot(base, "release", RELEASE_RULES, options);
      if flagged.Err? {
        r := Err(flagged.message);
        assert r == spec;
        return;
      }
      release := flagged.value;
      OverwriteTwice(base, "release", config["release"], release);
      config := config["release" := release];
      assert Ok(config) == spec;
    } else {
      assert spec == Ok(base);
    }
    r := Ok(config);
    assert r == spec;
  }

  /** The global table: verbose, debug and dryRun are copied whenever defined, model and
      reasoning only when truthy, reasoning into `openaiReasoning`. */
  lemma GlobalTable()
    ensures DistinctFields(GLOBAL_RULES) && |GLOBAL_RULES| == 5
    ensures Fields(GLOBAL_RULES) == {"verbose", "debug", "dryRun", "model", "openaiReasoning"}
    ensures forall i | 0 <= i < 3 :: GLOBAL_RULES[i].guard == WhenDefined
    ensures forall i | 3 <= i < 5 :: GLOBAL_RULES[i].guard == WhenTruthy
    ensures forall i | 0 <= i < 4 :: GLOBAL_RULES[i].option == GLOBAL_RULES[i].field
    ensures GLOBAL_RULES[4] == Rule("reasoning", "openaiReasoning", WhenTruthy)
  {
    var f := Fields(GLOBAL_RULES);
    assert GLOBAL_RULES[0].field in f && GLOBAL_RULES[1].field in f && GLOBAL_RULES[2].field in f;
    assert GLOBAL_RULES[3].field in f && GLOBAL_RULES[4].field in f;
  }

  /** The commit table: add, cached, sendit, interactive, amend and push are copied whenever
      defined, context and contextFiles only when truthy, each under its own name. */
  lemma CommitTable()
    ensures DistinctFields(COMMIT_RULES) && |COMMIT_RULES| == 8
    ensures Fields(COMMIT_RULES)
      == {"add", "cached", "sendit", "interactive", "amend", "push", "context", "contextFiles"}
    ensures forall i | 0 <= i < 6 :: COMMIT_RULES[i].guard == WhenDefined
    ensures forall i | 6 <= i < 8 :: COMMIT_RULES[i].guard == WhenTruthy
    ensures forall i | 0 <= i < 8 :: COMMIT_RULES[i].option == COMMIT_RULES[i].field
  {
    var f := Fields(COMMIT_RULES);
    assert COMMIT_RULES[0].field in f && COMMIT_RULES[1].field in f && COMMIT_RULES[2].field in f;
    assert COMMIT_RULES[3].field in f && COMMIT_RULES[4].field in f && COMMIT_RULES[5].field in f;
    assert COMMIT_RULES[6].field in f && COMMIT_RULES[7].field in f;
  }

  /** The release table: `--from-tag` writes `from` and `--to-tag` writes `to`, interactive is
      copied whenever defined, and everything else only when truthy under its own name; the
      table never writes `fromTag` or `toTag`. */
  lemma ReleaseTable()
    ensures DistinctFields(RELEASE_RULES) && |RELEASE_RULES| == 8
    ensures Fields(RELEASE_RULES)
      == {"from", "to", "interactive", "focus", "context", "contextFiles", "version", "output"}
    ensures RELEASE_RULES[0] == Rule("fromTag", "from", WhenTruthy)
    ensures RELEASE_RULES[1] == Rule("toTag", "to", WhenTruthy)
    ensures RELEASE_RULES[2] == Rule("interactive", "interactive", WhenDefined)
    ensures forall i | 3 <= i < 8 :: RELEASE_RULES[i].guard == WhenTruthy
    ensures forall i | 2 <= i < 8 :: RELEASE_RULES[i].option == RELEASE_RULES[i].field
  {
    var f := Fields(RELEASE_RULES);
    assert RELEASE_RULES[0].field in f && RELEASE_RULES[1].field in f && RELEASE_RULES[2].field in f;
    assert RELEASE_RULES[3].field in f && RELEASE_RULES[4].field in f && RELEASE_RULES[5].field in f;
    assert RELEASE_RULES[6].field in f && RELEASE_RULES[7].field in f;
  }

  /** Copying the effective configuration over a copy of the defaults changes nothing: the
      effective configuration already holds every default key. */
  lemma DefaultsCopyIsRedundant(fs: FileSystem, parse: Parser)
    ensures KildeDefaults() + EffectiveConfig(fs, parse) == EffectiveConfig(fs, parse)
  {
    MergeWithDefaultsKeepsDefaults(Returned(Scan(fs, parse, CONFIG_FILES)));
  }

  /** verbose, debug and dryRun follow the command line whenever it gives a value, even
      `false`; model and reasoning only when it gives a truthy one, reasoning landing in
      `openaiReasoning`; every other key keeps the file's value. */
  lemma GlobalFlagPrecedence(config: Obj, parent: Obj)
    ensures var c := config + Updates(GLOBAL_RULES, 0, parent);
      && (forall f | f in ["verbose", "debug", "dryRun"] ::
            Get(c, f) == (if Get(parent, f).JUndef? then Get(config, f) else Get(parent, f)))
      && Get(c, "model") == (if Truthy(Get(parent, "model")) then Get(parent, "model") else Get(config, "model"))
      && Get(c, "openaiReasoning") ==
           (if Truthy(Get(parent, "reasoning")) then Get(parent, "reasoning") else Get(config, "openaiReasoning"))
      && (forall k | k !in Fields(GLOBAL_RULES) :: Get(c, k) == Get(config, k))
  {
    GlobalTable();
    ApplyRulesOnObject(config, GLOBAL_RULES, 0, parent);
    FlagsOnObject(config, GLOBAL_RULES, parent);
    var c := config + Updates(GLOBAL_RULES, 0, parent);
    forall f | f in ["verbose", "debug", "dryRun"]
      ensures Get(c, f) == (if Get(parent, f).JUndef? then Get(config, f) else Get(parent, f))
    {
      var i := if f == "verbose" then 0 else if f == "debug" then 1 else 2;
      assert GLOBAL_RULES[i].field == f;
    }
    assert GLOBAL_RULES[3].field == "model";
  }

  /** The command's section after its flags: an object section gains the written entries over
      its own, a falsy one is replaced by the written entries alone, an array keeps its
      elements and gains the written entries over its named properties, and a truthy primitive
      makes the first firing assignment throw. */
  lemma SlotOutcome(slot: JVal, rules: seq<Rule>, options: Obj)
    ensures var r := ApplyRules(OrElse(slot, JObj(map[])), rules, 0, options);
      && (slot.JObj? ==> r == Ok(JObj(slot.fields + Updates(rules, 0, options))))
      && (!Truthy(slot) ==> r == Ok(JObj(Updates(rules, 0, options))))
      && (slot.JArr? ==> r == Ok(JArr(slot.items, slot.props + Updates(rules, 0, options))))
      && (Truthy(slot) && !slot.JObj? && !slot.JArr? ==>
            (r.Err? <==> exists i | 0 <= i < |rules| :: Fires(rules[i], options)))
  {
    var s := OrElse(slot, JObj(map[]));
    if s.JObj? {
      ApplyRulesOnObject(s.fields, rules, 0, options);
      assert map[] + Updates(rules, 0, options) == Updates(rules, 0, options);
    } else if s.JArr? {
      ApplyRulesOnArray(s.items, s.props, rules, 0, options);
    } else {
      ApplyRulesOnPrimitive(s, rules, 0, options);
    }
  }

  /** A command's flag block changes its own section only: every other key keeps the value
      it had after the global flags. */
  lemma SectionOnlyChanges(config: Obj, name: string, rules: seq<Rule>, options: Obj)
    requires WithSlot(config, name, rules, options).Ok?
    ensures var c := WithSlot(config, name, rules, options).value;
      && c.Keys == config.Keys + {name}
      && forall k | k in config && k != name :: c[k] == config[k]
  {
    WithSlotOutcome(config, name, rules, options);
  }

  /** In a table without repeated keys, a firing rule's flag is what the section holds under
      the rule's key afterwards, whether the section was an object, an array or falsy. */
  lemma FiredFlagInSection(slot: JVal, rules: seq<Rule>, options: Obj, i: nat)
    requires DistinctFields(rules) && i < |rules| && Fires(rules[i], options)
    requires ApplyRules(OrElse(slot, JObj(map[])), rules, 0, options).Ok?
    ensures Prop(ApplyRules(OrElse(slot, JObj(map[])), rules, 0, options).value, rules[i].field)
      == Get(options, rules[i].option)
  {
    UpdatesOfDistinct(rules, options);
    var s := OrElse(slot, JObj(map[]));
    if s.JObj? {
      ApplyRulesOnObject(s.fields, rules, 0, options);
    } else if s.JArr? {
      ApplyRulesOnArray(s.items, s.props, rules, 0, options);
    } else {
      ApplyRulesOnPrimitive(s, rules, 0, options);
      assert false;
    }
  }

  /** A truthy `--from-tag` reaches the release generator as its start ref, and a truthy
      `--to-tag` as its end ref, whatever object or array the release section was. */
  lemma TagFlagsReachRelease(effective: Obj, parent: Obj, options: Obj, defaultFrom: JVal, fromFiles: string)
    requires Layered(COMMAND_RELEASE, effective, parent, options).Ok?
    ensures var q := Release.PlanRelease(Layered(COMMAND_RELEASE, effective, parent, options).value, defaultFrom, fromFiles);
      && (Truthy(Get(options, "fromTag")) ==> q.fromRef == Get(options, "fromTag"))
      && (Truthy(Get(options, "toTag")) ==> q.toRef == Get(options, "toTag"))
  {
    var base := GlobalLayer(effective, parent);
    var slot := Get(base, "release");
    WithSlotOutcome(base, "release", RELEASE_RULES, options);
    ReleaseTable();
    if Truthy(Get(options, "fromTag")) {
      FiredFlagInSection(slot, RELEASE_RULES, options, 0);
    }
    if Truthy(Get(options, "toTag")) {
      FiredFlagInSection(slot, RELEASE_RULES, options, 1);
    }
  }

  /** The build fails exactly when the command's section is a truthy primitive and one of its
      flags is given. */
  lemma BuildFails(command: string, effective: Obj, parent: Obj, options: Obj)
    requires command == COMMAND_COMMIT || command == COMMAND_RELEASE
    ensures var slot := Get(GlobalLayer(effective, parent), command);
      var rules := if command == COMMAND_COMMIT then COMMIT_RULES else RELEASE_RULES;
      Layered(command, effective, parent, options).Err? <==>
        Truthy(slot) && !slot.JObj? && !slot.JArr? && exists i | 0 <= i < |rules| :: Fires(rules[i], options)
  {
    var rules := if command == COMMAND_COMMIT then COMMIT_RULES else RELEASE_RULES;
    SlotOutcome(Get(GlobalLayer(effective, parent), command), rules, options);
  }

  // ---------------------------------------------------------------------------------------
  // Logging level

  /** The process-wide logger, by the one setting this layer changes. */
  class Logger {
    var level: string

    constructor (level: string)
      ensures this.level == level
    {
      this.level := level;
    }

    /** `setLogLevel(level)`. */
    method SetLogLevel(level: string)
      modifies this
      ensures this.level == level
    {
      this.level := level;
    }
  }

  /** `configureEarlyLogging()` over the process arguments `argv`: a debug flag selects debug
      even beside a verbose flag, a verbose flag alone selects verbose, and with neither the
      level stays as it was. */
  method ConfigureEarlyLogging(logger: Logger, argv: seq<string>)
    modifies logger
    ensures ("--debug" in argv || "-d" in argv) ==> logger.level == "debug"
    ensures !("--debug" in argv || "-d" in argv) && ("--verbose" in argv || "-v" in argv) ==>
      logger.level == "verbose"
    ensures !("--debug" in argv || "-d" in argv || "--verbose" in argv || "-v" in argv) ==>
      logger.level == old(logger.level)
  {
    var hasVerbose := "--verbose" in argv || "-v" in argv;
    var hasDebug := "--debug" in argv || "-d" in argv;
    if hasDebug {
      logger.SetLogLevel("debug");
    } else if hasVerbose {
      logger.SetLogLevel("verbose");
    }
  }

  // ---------------------------------------------------------------------------------------
  // executeCommand

  /** A thrown JavaScript error: its `name` and its `message`, which may be missing. */
  datatype JsError = JsError(name: string, message: Option<string>)

  /** How a call into a collaborator ended. */
  datatype Completion<T> = Normal(value: T) | Threw(error: JsError)

  /** The user cancelled: the error is a UserCancellationError or its message mentions
      "cancelled". */
  predicate IsCancellation(e: JsError) {
    e.name == "UserCancellationError" || (e.message.Some? && Contains(e.message.value, "cancelled"))
  }

  /** How `executeCommand` ends: normally after a summary, normally after a cancellation, or by
      rethrowing the error. */
  datatype Outcome = Completed(summary: string) | Cancelled | Failed(error: JsError)

  function ReleaseReport(s: Release.Summary): string {
    "Release notes generated:\nTitle: " + s.title + "\n\n" + s.body
  }

  /** The try block: the command's summary, or the error it throws. */
  function Dispatch(command: string, config: Obj, commit: Obj -> Completion<string>,
                    release: Obj -> Completion<Release.Summary>): Completion<string>
  {
    if command == COMMAND_COMMIT then commit(config)
    else if command == COMMAND_RELEASE then
      match release(config)
      case Normal(s) => Normal(ReleaseReport(s))
      case Threw(e) => Threw(e)
    else Threw(JsError("Error", Some("Unknown command: " + command)))
  }

  /** The catch block: a cancellation ends the run normally, any other error is rethrown. */
  function Settle(c: Completion<string>): (o: Outcome)
    ensures c.Normal? ==> o == Completed(c.value)
    ensures c.Threw? ==> (o == Cancelled <==> IsCancellation(c.error))
    ensures c.Threw? && !IsCancellation(c.error) ==> o == Failed(c.error)
  {
    match c
    case Normal(s) => Completed(s)
    case Threw(e) => if IsCancellation(e) then Cancelled else Failed(e)
  }

  /** `executeCommand(commandName, runConfig)`, with the commit and release commands as
      parameters. A truthy `verbose` selects verbose and a truthy `debug` then selects debug;
      with neither the level is left as it was. */
  method ExecuteCommand(logger: Logger, command: string, config: Obj,
                        commit: Obj -> Completion<string>, release: Obj -> Completion<Release.Summary>)
    returns (outcome: Outcome)
    modifies logger
    ensures logger.level == (if Truthy(Get(config, "debug")) then "debug"
                             else if Truthy(Get(config, "verbose")) then "verbose"
                             else old(logger.level))
    ensures outcome == Settle(Dispatch(command, config, commit, release))
  {
    if Truthy(Get(config, "verbose")) {
      logger.SetLogLevel("verbose");
    }
    if Truthy(Get(config, "debug")) {
      logger.SetLogLevel("debug");
    }
    var completion: Completion<string>;
    if command == COMMAND_COMMIT {
      completion := commit(config);
    } else if command == COMMAND_RELEASE {
      var r := release(config);
      match r {
        case Normal(s) =>
          completion := Normal("Release notes generated:\nTitle: " + s.title + "\n\n" + s.body);
        case Threw(e) =>
          completion := Threw(e);
      }
    } else {
      completion := Threw(JsError("Error", Some("Unknown command: " + command)));
    }
    match completion {
      case Normal(summary) =>
        outcome := Completed(summary);
      case Threw(e) =>
        if e.name == "UserCancellationError" || (e.message.Some? && Contains(e.message.value, "cancelled")) {
          outcome := Cancelled;
        } else {
          outcome := Failed(e);
        }
    }
  }

  /** "Unknown command: " followed by a name spells "cancelled" only when the name does: the
      prefix has no 'l', and its last five characters hold no 'c' to start one. */
  lemma UnknownCommandMessage(command: string)
    requires !Contains(command, "cancelled")
    ensures !Contains("Unknown command: " + command, "cancelled")
  {
    var a, p := "Unknown command: ", "cancelled";
    var s := a + command;
    forall i | 0 <= i <= |s| - |p|
      ensures !OccursAt(s, p, i)
    {
      if i >= |a| {
        assert s[i..i + |p|] == command[i - |a|..i - |a| + |p|];
        assert !OccursAt(command, p, i - |a|);
      } else if i + 5 < |a| {
        assert s[i..i + |p|][5] == s[i + 5] == a[i + 5];
      } else {
        assert s[i..i + |p|][0] == s[i] == a[i];
      }
    }
  }

  /** An unknown command whose name does not contain "cancelled" fails with
      "Unknown command: <name>". */
  lemma UnknownCommandFails(command: string, config: Obj, commit: Obj -> Completion<string>,
                            release: Obj -> Completion<Release.Summary>)
    requires command != COMMAND_COMMIT && command != COMMAND_RELEASE
    requires !Contains(command, "cancelled")
    ensures Settle(Dispatch(command, config, commit, release))
      == Failed(JsError("Error", Some("Unknown command: " + command)))
  {
    UnknownCommandMessage(command);
  }

  /** An unknown command whose name mentions "cancelled" ends normally, as a cancellation. */
  lemma UnknownCancelledCommand(pre: string, post: string, config: Obj,
                                commit: Obj -> Completion<string>,
                                release: Obj -> Completion<Release.Summary>)
    requires pre + "cancelled" + post != COMMAND_COMMIT && pre + "cancelled" + post != COMMAND_RELEASE
    ensures Settle(Dispatch(pre + "cancelled" + post, config, commit, release)) == Cancelled
  {
    ContainsInfix("Unknown command: " + pre, "cancelled", post);
    assert "Unknown command: " + (pre + "cancelled" + post) == "Unknown command: " + pre + "cancelled" + post;
  }

  /** A release that throws with "cancelled" anywhere in its message ends the run normally;
      one whose message lacks 'c' is rethrown unchanged. */
  lemma ReleaseErrorSettles(config: Obj, commit: Obj -> Completion<string>,
                            release: Obj -> Completion<Release.Summary>, name: string, message: string)
    requires release(config) == Threw(JsError(name, Some(message)))
    ensures Contains(message, "cancelled") ==>
      Settle(Dispatch(COMMAND_RELEASE, config, commit, release)) == Cancelled
    ensures name != "UserCancellationError" && 'c' !in message ==>
      Settle(Dispatch(COMMAND_RELEASE, config, commit, release)) == Failed(JsError(name, Some(message)))
  {
    if 'c' !in message {
      ContainsNeedsChar(message, "cancelled", 0);
    }
  }

  /** The completion report of a release opens with its own line, then the title's. */
  lemma ReleaseReportLines(s: Release.Summary)
    requires '\n' !in s.title
    ensures var lines := Split(ReleaseReport(s), '\n');
      |lines| >= 3 && lines[0] == "Release notes generated:" && lines[1] == "Title: " + s.title
  {
    var title := "Title: " + s.title;
    var tail := "\n" + s.body;
    ReportShape(s);
    ReportHeadHasNoNewline();
    SplitAtFirst(REPORT_HEAD, '\n', title + ['\n'] + tail);
    NoNewlineAfter("Title: ", s.title);
    SplitAtFirst(title, '\n', tail);
    assert tail == "" + ['\n'] + s.body;
    SplitAtFirst("", '\n', s.body);
  }

  const REPORT_HEAD := "Release notes generated:"

  lemma ReportShape(s: Release.Summary)
    ensures ReleaseReport(s) == REPORT_HEAD + ['\n'] + (("Title: " + s.title) + ['\n'] + ("\n" + s.body))
  {
    assert "Release notes generated:\nTitle: " == REPORT_HEAD + ['\n'] + "Title: ";
  }

  lemma ReportHeadHasNoNewline()
    ensures '\n' !in REPORT_HEAD
  {
  }

  // ---------------------------------------------------------------------------------------
  // Node.js version gate

  const REQUIRED_NODE_MAJOR := 24

  /** `parseInt(version.slice(1).split('.')[0], 10)`; `None` is NaN. */
  function NodeMajor(version: string): Option<int> {
    ParseInt(Split(if version == "" then "" else version[1..], '.')[0])
  }

  /** `checkNodeVersion` exits when the major version is a number below 24; NaN compares false
      and lets the run continue. */
  predicate NodeTooOld(version: string) {
    var major := NodeMajor(version);
    major.Some? && major.value < REQUIRED_NODE_MAJOR
  }

  /** For a version string `v<major>` or `v<major>.<rest>` the major number is read back, and
      the run stops exactly when it is below 24. */
  lemma NodeMajorOfRelease(major: nat, rest: string)
    requires rest == [] || rest[0] == '.'
    ensures NodeMajor("v" + DecimalString(major) + rest) == Some(major)
    ensures NodeTooOld("v" + DecimalString(major) + rest) <==> major < 24
  {
    var digits := DecimalString(major);
    var v := "v" + digits + rest;
    assert v[1..] == digits + rest;
    assert forall i | 0 <= i < |digits| :: digits[i] != '.';
    assert '.' !in digits;
    if rest == [] {
      assert digits + rest == digits;
      SplitWithoutSeparator(digits, '.');
    } else {
      assert digits + rest == digits + ['.'] + rest[1..];
      SplitAtFirst(digits, '.', rest[1..]);
    }
    ParseIntOfDecimal(major, "");
    assert digits + "" == digits;
  }

  /** A version string with a letter where the major number belongs parses to NaN, and the
      gate lets it through. */
  lemma NodeVersionNaN(version: string)
    requires |version| >= 2 && 'a' <= version[1] <= 'z'
    ensures NodeMajor(version) == None && !NodeTooOld(version)
  {
    var tail := version[1..];
    assert tail[0] == version[1];
    var first := Split(tail, '.')[0];
    assert first == [tail[0]] + Split(tail[1..], '.')[0];
    ParseIntNoDigits(first);
  }

  // ---------------------------------------------------------------------------------------
  // Version banner

  datatype VersionInfo = VersionInfo(version: string, buildHostname: string, buildTimestamp: string,
                                     formatted: string)

  function FormatVersion(version: string, host: string, time: string): string {
    version + "\nBuilt on: " + host + "\nBuild time: " + time
  }

  /** The banner's three lines hold the version, the build host and the build time, so each can
      be read back from it. */
  lemma VersionLines(version: string, host: string, time: string)
    requires '\n' !in version && '\n' !in host && '\n' !in time
    ensures Split(FormatVersion(version, host, time), '\n')
      == [version, "Built on: " + host, "Build time: " + time]
  {
    var lines := [version, "Built on: " + host, "Build time: " + time];
    NoNewlineAfter("Built on: ", host);
    NoNewlineAfter("Build time: ", time);
    assert forall p | p in lines :: '\n' !in p;
    BannerJoin(version, host, time);
    SplitJoin(lines, '\n');
  }

  lemma BannerJoin(version: string, host: string, time: string)
    ensures Join([version, "Built on: " + host, "Build time: " + time], "\n") == FormatVersion(version, host, time)
  {
    var b, c := "Built on: " + host, "Build time: " + time;
    JoinThree(version, b, c, "\n");
    assert version + "\n" + b == version + "\nBuilt on: " + host;
    assert version + "\n" + b + "\n" + c == version + "\nBuilt on: " + host + "\nBuild time: " + time;
  }

  lemma NoNewlineAfter(prefix: string, s: string)
    requires prefix == "Built on: " || prefix == "Build time: " || prefix == "Title: "
    requires '\n' !in s
    ensures '\n' !in prefix + s
  {
  }

  lemma JoinThree(a: string, b: string, c: string, sep: string)
    ensures Join([a, b, c], sep) == a + sep + b + sep + c
  {
    assert [a, b, c][1..] == [b, c] && [b, c][1..] == [c];
    JoinTwoOrMore([a, b, c], sep);
    JoinTwoOrMore([b, c], sep);
    assert Join([b, c], sep) == b + sep + c;
    assert a + sep + (b + sep + c) == a + sep + b + sep + c;
  }

  /** `getVersionInfo()`. */
  function GetVersionInfo(): (info: VersionInfo)
    ensures info.version == VERSION && info.buildHostname == BUILD_HOSTNAME
    ensures info.buildTimestamp == BUILD_TIMESTAMP
    ensures info.formatted == FormatVersion(info.version, info.buildHostname, info.buildTimestamp)
  {
    VersionInfo(VERSION, BUILD_HOSTNAME, BUILD_TIMESTAMP, FormatVersion(VERSION, BUILD_HOSTNAME, BUILD_TIMESTAMP))
  }
}

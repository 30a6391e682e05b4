/**
 * Parsing one task block of turbo.json (`BookkeepingTaskDefinition.UnmarshalJSON`
 * and `gatherEnvVars` in cli/internal/fs/turbo_json.go). The JSON layer is
 * abstract: a raw task is a record of optional fields, `None` for a key that
 * is absent (Go's nil slice or nil pointer).
 */
module TaskParse {
  import opened Wrappers
  import opened Strings
  import opened TaskDefinitions

  /** The prefix of a deprecated environment-variable dependency. */
  const EnvPipelineDelimiter: char := '$'
  /** The prefix of a dependency on the same task in dependency packages. */
  const TopologicalPipelineDelimiter: char := '^'
  /** The prefix of an excluded output glob. */
  const ExclusionPrefix: char := '!'

  /**
   * `turbopath.CheckedToAnchoredUnixPath`: the anchored path for a string, or
   * `None` when it is not a valid one. That package is not part of this model.
   */
  type PathCheck = string -> Option<string>

  /** `rawTask`: the task block as decoded, each key optional. */
  datatype RawTask = RawTask(
    outputs: Option<seq<string>>,
    cache: Option<bool>,
    dependsOn: Option<seq<string>>,
    inputs: Option<seq<string>>,
    outputMode: Option<TaskOutputMode>,
    persistent: Option<bool>,
    env: Option<seq<string>>,
    passThroughEnv: Option<seq<string>>,
    dotEnv: Option<seq<string>>)

  /** The errors of parsing: a `$`-prefixed variable under `key`, or a path that is not anchored. */
  datatype ParseError = InvalidEnvPrefix(value: string, key: string) | InvalidPath(path: string)

  predicate EnvPrefixed(value: string) {
    StartsWith(value, EnvPipelineDelimiter)
  }

  /**
   * What `gatherEnvVars` computes: an error naming the first `$`-prefixed
   * value and the key, or `into` with all the values added.
   */
  function GatheredEnvVars(vars: seq<string>, key: string, into: set<string>): (r: Result<set<string>, ParseError>)
    ensures r.Failure? <==> exists i | 0 <= i < |vars| :: EnvPrefixed(vars[i])
    ensures r.Failure? ==> exists i | 0 <= i < |vars| ::
                             && r.error == InvalidEnvPrefix(vars[i], key) && EnvPrefixed(vars[i])
                             && forall j | 0 <= j < i :: !EnvPrefixed(vars[j])
    ensures r.Success? ==> r.value == into + Elems(vars)
  {
    match FirstWhere(vars, EnvPrefixed)
    case Some(i) => Failure(InvalidEnvPrefix(vars[i], key))
    case None => Success(into + Elems(vars))
  }

  /** `gatherEnvVars`: add the values to the set, failing at the first `$`-prefixed one. */
  method GatherEnvVars(vars: seq<string>, key: string, into: set<string>) returns (r: Result<set<string>, ParseError>)
    ensures r == GatheredEnvVars(vars, key, into)
  {
    var acc := into;
    for i := 0 to |vars|
      invariant acc == into + Elems(vars[..i])
      invariant forall j | 0 <= j < i :: !EnvPrefixed(vars[j])
    {
      var value := vars[i];
      if EnvPrefixed(value) {
        return Failure(InvalidEnvPrefix(value, key));
      }
      assert Elems(vars[..i + 1]) == Elems(vars[..i]) + {value} by {
        assert vars[..i + 1] == vars[..i] + [value];
      }
      acc := acc + {value};
    }
    assert vars[..|vars|] == vars;
    return Success(acc);
  }

  /**
   * The result of checking a list of `.env` paths: the anchored paths in
   * declared order, or an error naming the first invalid one.
   */
  function CheckedPaths(paths: seq<string>, check: PathCheck): (r: Result<seq<string>, ParseError>)
    ensures r.Success? <==> forall i | 0 <= i < |paths| :: check(paths[i]).Some?
    ensures r.Success? ==> |r.value| == |paths| && forall i | 0 <= i < |paths| :: check(paths[i]) == Some(r.value[i])
    ensures r.Failure? ==> exists i | 0 <= i < |paths| ::
                             && r.error == InvalidPath(paths[i]) && check(paths[i]).None?
                             && forall j | 0 <= j < i :: check(paths[j]).Some?
  {
    match FirstWhere(paths, p => check(p).None?)
    case Some(i) => Failure(InvalidPath(paths[i]))
    case None => Success(seq(|paths|, i requires 0 <= i < |paths| && check(paths[i]).Some? => check(paths[i]).value))
  }

  /** The `.env` loop: check each path in order, keeping the order (never sorted). */
  method CheckDotEnv(paths: seq<string>, check: PathCheck) returns (r: Result<seq<string>, ParseError>)
    ensures r == CheckedPaths(paths, check)
  {
    var checked: seq<string> := [];
    for i := 0 to |paths|
      invariant |checked| == i
      invariant forall j | 0 <= j < i :: check(paths[j]) == Some(checked[j])
    {
      var typeCheckedPath := check(paths[i]);
      if typeCheckedPath.None? {
        return Failure(InvalidPath(paths[i]));
      }
      checked := checked + [typeCheckedPath.value];
    }
    assert checked == CheckedPaths(paths, check).value;
    return Success(checked);
  }

  /** Some entry starts with `$` (in `dependsOn`, a deprecated environment variable; in `env`, an error). */
  predicate AnyEnvPrefixed(deps: seq<string>) {
    exists i | 0 <= i < |deps| :: EnvPrefixed(deps[i])
  }

  /** Whether parsing records `f` as defined: its key was present (for `Env`, also a `$` dependency). */
  predicate Declares(task: RawTask, f: Field) {
    match f
    case Outputs => task.outputs.Some?
    case Cache => task.cache.Some?
    case DependsOn => task.dependsOn.Some?
    case Inputs => task.inputs.Some?
    case OutputMode => task.outputMode.Some?
    case Persistent => task.persistent.Some?
    case Env => task.env.Some? || AnyEnvPrefixed(task.dependsOn.GetOr([]))
    case PassThroughEnv => task.passThroughEnv.Some?
    case DotEnv => task.dotEnv.Some?
  }

  /** The outputs a present `outputs` key parses to: split on `!`, each half sorted. */
  function ParsedOutputs(globs: seq<string>): TaskOutputs {
    TaskOutputs(Sort(Unprefixed(globs, {ExclusionPrefix})), Sort(Stripped(globs, ExclusionPrefix)))
  }

  /** `fields` with `f` added when `present`: one `definedFields.Add` of the source. */
  function Mark(fields: set<Field>, present: bool, f: Field): set<Field> {
    if present then fields + {f} else fields
  }

  /** The fields parsing records as defined, key by key in the source's order. */
  function DefinedFields(task: RawTask): set<Field> {
    var fields := Mark({}, task.outputs.Some?, Outputs);
    var fields := Mark(fields, task.cache.Some?, Cache);
    var fields := Mark(fields, task.dependsOn.Some?, DependsOn);
    var fields := Mark(fields, AnyEnvPrefixed(task.dependsOn.GetOr([])), Env);
    var fields := Mark(fields, task.env.Some?, Env);
    var fields := Mark(fields, task.passThroughEnv.Some?, PassThroughEnv);
    var fields := Mark(fields, task.dotEnv.Some?, DotEnv);
    var fields := Mark(fields, task.inputs.Some?, Inputs);
    var fields := Mark(fields, task.outputMode.Some?, OutputMode);
    Mark(fields, task.persistent.Some?, Persistent)
  }

  /**
   * The `env` list: the `$` dependencies and the `env` key together,
   * deduplicated and sorted; or the error for a `$` inside the `env` key.
   */
  function ParsedEnv(task: RawTask): Result<seq<string>, ParseError> {
    var deps := task.dependsOn.GetOr([]);
    var gathered := if task.env.Some? then GatheredEnvVars(task.env.value, "env", {}) else Success({});
    if gathered.Failure? then Failure(gathered.error)
    else Success(SortedSet(Stripped(deps, EnvPipelineDelimiter) + task.env.GetOr([])))
  }

  /** The `passThroughEnv` list: absent, or present, deduplicated and sorted; or its `$` error. */
  function ParsedPassThroughEnv(task: RawTask): Result<Option<seq<string>>, ParseError> {
    if task.passThroughEnv.None? then Success(None)
    else
      var gathered := GatheredEnvVars(task.passThroughEnv.value, "passThroughEnv", {});
      if gathered.Failure? then Failure(gathered.error)
      else Success(Some(SortedSet(task.passThroughEnv.value)))
  }

  /** The `dotEnv` list: absent, or the checked paths in declared order; or the first invalid path. */
  function ParsedDotEnv(task: RawTask, check: PathCheck): Result<Option<seq<string>>, ParseError> {
    if task.dotEnv.None? then Success(None)
    else
      var checked := CheckedPaths(task.dotEnv.value, check);
      if checked.Failure? then Failure(checked.error)
      else Success(Some(checked.value))
  }

  /**
   * `BookkeepingTaskDefinition.UnmarshalJSON` as a function of the decoded
   * task block. The three keys that can fail are tried in the source's order.
   */
  function TaskFromRaw(task: RawTask, check: PathCheck): Result<BookkeepingTaskDefinition, ParseError> {
    var deps := task.dependsOn.GetOr([]);
    var env := ParsedEnv(task);
    var passThroughEnv := ParsedPassThroughEnv(task);
    var dotEnv := ParsedDotEnv(task, check);
    if env.Failure? then Failure(env.error)
    else if passThroughEnv.Failure? then Failure(passThroughEnv.error)
    else if dotEnv.Failure? then Failure(dotEnv.error)
    else
      Success(BookkeepingTaskDefinition(
        DefinedFields(task),
        {},
        TaskDefinition(
          outputs := if task.outputs.Some? then ParsedOutputs(task.outputs.value) else TaskOutputs([], []),
          cache := task.cache.GetOr(true),
          topologicalDependencies := Sort(Stripped(deps, TopologicalPipelineDelimiter)),
          taskDependencies := Sort(Unprefixed(deps, {EnvPipelineDelimiter, TopologicalPipelineDelimiter})),
          inputs := task.inputs.GetOr([]),
          outputMode := task.outputMode.GetOr(0),
          persistent := task.persistent.GetOr(false),
          env := env.value,
          passThroughEnv := passThroughEnv.value,
          dotEnv := dotEnv.value)))
  }

  /** The output-globs loop: split the globs on the `!` prefix, keeping declared order. */
  method SplitOutputs(globs: seq<string>) returns (outputs: TaskOutputs)
    ensures outputs == ParsedOutputs(globs)
  {
    var inclusions: seq<string> := [];
    var exclusions: seq<string> := [];
    for i := 0 to |globs|
      invariant inclusions == Unprefixed(globs[..i], {ExclusionPrefix})
      invariant exclusions == Stripped(globs[..i], ExclusionPrefix)
    {
      assert globs[..i + 1][..i] == globs[..i];
      var glob := globs[i];
      if StartsWith(glob, ExclusionPrefix) {
        exclusions := exclusions + [glob[1..]];
      } else {
        inclusions := inclusions + [glob];
      }
    }
    assert globs[..|globs|] == globs;
    outputs := TaskOutputs(Sort(inclusions), Sort(exclusions));
  }

  /**
   * The `dependsOn` loop: `$` entries go (stripped) to the environment set,
   * `^` entries (stripped) to the topological list, the rest to the task list.
   */
  method SplitDependsOn(deps: seq<string>) returns (envVars: set<string>, topological: seq<string>, tasks: seq<string>, sawEnv: bool)
    ensures envVars == Elems(Stripped(deps, EnvPipelineDelimiter))
    ensures topological == Stripped(deps, TopologicalPipelineDelimiter)
    ensures tasks == Unprefixed(deps, {EnvPipelineDelimiter, TopologicalPipelineDelimiter})
    ensures sawEnv == AnyEnvPrefixed(deps)
  {
    envVars, topological, tasks, sawEnv := {}, [], [], false;
    for i := 0 to |deps|
      invariant envVars == Elems(Stripped(deps[..i], EnvPipelineDelimiter))
      invariant topological == Stripped(deps[..i], TopologicalPipelineDelimiter)
      invariant tasks == Unprefixed(deps[..i], {EnvPipelineDelimiter, TopologicalPipelineDelimiter})
      invariant sawEnv == AnyEnvPrefixed(deps[..i])
    {
      var prefix := deps[..i + 1];
      assert prefix[..i] == deps[..i];
      var dependency := deps[i];
      if StartsWith(dependency, EnvPipelineDelimiter) {
        sawEnv := true;
        assert Elems(Stripped(prefix, EnvPipelineDelimiter)) == envVars + {dependency[1..]};
        envVars := envVars + {dependency[1..]};
      } else if StartsWith(dependency, TopologicalPipelineDelimiter) {
        topological := topological + [dependency[1..]];
      } else {
        tasks := tasks + [dependency];
      }
      assert AnyEnvPrefixed(prefix) <==> AnyEnvPrefixed(deps[..i]) || EnvPrefixed(dependency) by {
        assert forall j | 0 <= j < i :: prefix[j] == deps[..i][j];
      }
    }
    assert deps[..|deps|] == deps;
  }

  /** `util.Set.UnsafeListOfStrings` followed by `sort.Strings`: the set as a sorted list. */
  method SortedList(s: set<string>) returns (r: seq<string>)
    ensures Sorted(r) && NoDup(r) && Elems(r) == s
  {
    var list := UnsafeListOfStrings(s);
    r := Sort(list);
    NoDupPermutation(list, r);
    assert Elems(r) == Elems(list) by {
      forall x ensures x in r <==> x in list {
        assert x in r <==> x in multiset(r);
      }
    }
  }

  /** The `env` step: add the `env` key to the `$` dependencies already gathered, then list them sorted. */
  method UnmarshalEnv(task: RawTask, envVarDependencies: set<string>) returns (r: Result<seq<string>, ParseError>)
    requires envVarDependencies == Elems(Stripped(task.dependsOn.GetOr([]), EnvPipelineDelimiter))
    ensures r == ParsedEnv(task)
  {
    var envVars := envVarDependencies;
    if task.env.Some? {
      var gathered := GatherEnvVars(task.env.value, "env", envVars);
      if gathered.Failure? {
        return Failure(gathered.error);
      }
      envVars := gathered.value;
    }
    var env := SortedList(envVars);
    SortedSetUnique(env, Stripped(task.dependsOn.GetOr([]), EnvPipelineDelimiter) + task.env.GetOr([]));
    return Success(env);
  }

  /** The `passThroughEnv` step: gather into a fresh set and list it sorted, only when the key is present. */
  method UnmarshalPassThroughEnv(task: RawTask) returns (r: Result<Option<seq<string>>, ParseError>)
    ensures r == ParsedPassThroughEnv(task)
  {
    if task.passThroughEnv.None? {
      return Success(None);
    }
    var envVarPassThroughs := GatherEnvVars(task.passThroughEnv.value, "passThroughEnv", {});
    if envVarPassThroughs.Failure? {
      return Failure(envVarPassThroughs.error);
    }
    var list := SortedList(envVarPassThroughs.value);
    SortedSetUnique(list, task.passThroughEnv.value);
    return Success(Some(list));
  }

  /** The `dotEnv` step, only when the key is present. */
  method UnmarshalDotEnv(task: RawTask, check: PathCheck) returns (r: Result<Option<seq<string>>, ParseError>)
    ensures r == ParsedDotEnv(task, check)
  {
    if task.dotEnv.None? {
      return Success(None);
    }
    var checked := CheckDotEnv(task.dotEnv.value, check);
    if checked.Failure? {
      return Failure(checked.error);
    }
    return Success(Some(checked.value));
  }

  /** A field is recorded as defined exactly when its key was present (for `Env`, also a `$` dependency). */
  lemma DefinedFieldsDeclared(task: RawTask, f: Field)
    ensures f in DefinedFields(task) <==> Declares(task, f)
  {
    match f
    case Outputs =>
    case Cache =>
    case DependsOn =>
    case Inputs =>
    case OutputMode =>
    case Persistent =>
    case Env =>
    case PassThroughEnv =>
    case DotEnv =>
  }

  /** `BookkeepingTaskDefinition.UnmarshalJSON`, step by step. */
  method UnmarshalTask(task: RawTask, check: PathCheck) returns (r: Result<BookkeepingTaskDefinition, ParseError>)
    ensures r == TaskFromRaw(task, check)
  {
    var definedFields: set<Field> := {};

    var outputs := TaskOutputs([], []);
    definedFields := Mark(definedFields, task.outputs.Some?, Outputs);
    if task.outputs.Some? {
      outputs := SplitOutputs(task.outputs.value);
    }
    assert outputs == if task.outputs.Some? then ParsedOutputs(task.outputs.value) else TaskOutputs([], []);

    var cache := true;
    definedFields := Mark(definedFields, task.cache.Some?, Cache);
    if task.cache.Some? {
      cache := task.cache.value;
    }
    assert cache == task.cache.GetOr(true);

    definedFields := Mark(definedFields, task.dependsOn.Some?, DependsOn);
    var envVarDependencies, topologicalDependencies, taskDependencies, sawEnv := SplitDependsOn(task.dependsOn.GetOr([]));
    definedFields := Mark(definedFields, sawEnv, Env);
    topologicalDependencies := Sort(topologicalDependencies);
    taskDependencies := Sort(taskDependencies);

    definedFields := Mark(definedFields, task.env.Some?, Env);
    var env := UnmarshalEnv(task, envVarDependencies);
    FailureSource(task, check);
    if env.Failure? {
      return Failure(env.error);
    }

    definedFields := Mark(definedFields, task.passThroughEnv.Some?, PassThroughEnv);
    var passThroughEnv := UnmarshalPassThroughEnv(task);
    if passThroughEnv.Failure? {
      return Failure(passThroughEnv.error);
    }

    definedFields := Mark(definedFields, task.dotEnv.Some?, DotEnv);
    var dotEnv := UnmarshalDotEnv(task, check);
    if dotEnv.Failure? {
      return Failure(dotEnv.error);
    }

    var inputs: seq<string> := [];
    definedFields := Mark(definedFields, task.inputs.Some?, Inputs);
    if task.inputs.Some? {
      inputs := task.inputs.value;
    }
    assert inputs == task.inputs.GetOr([]);

    var outputMode: TaskOutputMode := 0;
    definedFields := Mark(definedFields, task.outputMode.Some?, OutputMode);
    if task.outputMode.Some? {
      outputMode := task.outputMode.value;
    }
    assert outputMode == task.outputMode.GetOr(0);

    var persistent := false;
    definedFields := Mark(definedFields, task.persistent.Some?, Persistent);
    if task.persistent.Some? {
      persistent := task.persistent.value;
    }
    assert persistent == task.persistent.GetOr(false);

    r := Success(BookkeepingTaskDefinition(definedFields, {}, TaskDefinition(
      outputs, cache, topologicalDependencies, taskDependencies, inputs,
      outputMode, persistent, env.value, passThroughEnv.value, dotEnv.value)));
  }

  // ---------------------------------------------------------------------------
  // What parsing promises

  /** Parsing fails exactly when `env` or `passThroughEnv` holds a `$` entry or a `dotEnv` path is invalid. */
  lemma ParseFailsIff(task: RawTask, check: PathCheck)
    ensures TaskFromRaw(task, check).Failure? <==>
              || (task.env.Some? && AnyEnvPrefixed(task.env.value))
              || (task.passThroughEnv.Some? && AnyEnvPrefixed(task.passThroughEnv.value))
              || (task.dotEnv.Some? && exists i | 0 <= i < |task.dotEnv.value| :: check(task.dotEnv.value[i]).None?)
  {
    FailureSource(task, check);
    KeyFailures(task, check);
  }

  /** When each fallible key fails on its own. */
  lemma KeyFailures(task: RawTask, check: PathCheck)
    ensures ParsedEnv(task).Failure? <==> task.env.Some? && AnyEnvPrefixed(task.env.value)
    ensures ParsedPassThroughEnv(task).Failure? <==> task.passThroughEnv.Some? && AnyEnvPrefixed(task.passThroughEnv.value)
    ensures ParsedDotEnv(task, check).Failure? <==>
              task.dotEnv.Some? && exists i | 0 <= i < |task.dotEnv.value| :: check(task.dotEnv.value[i]).None?
  {
    if task.env.Some? {
      assert ParsedEnv(task).Failure? <==> GatheredEnvVars(task.env.value, "env", {}).Failure?;
    }
    if task.passThroughEnv.Some? {
      assert ParsedPassThroughEnv(task).Failure? <==>
             GatheredEnvVars(task.passThroughEnv.value, "passThroughEnv", {}).Failure?;
    }
    if task.dotEnv.Some? {
      assert ParsedDotEnv(task, check).Failure? <==> CheckedPaths(task.dotEnv.value, check).Failure?;
    }
  }

  /** A parsed block holds the three fallible keys as they parsed on their own. */
  lemma ParsedParts(task: RawTask, check: PathCheck)
    requires TaskFromRaw(task, check).Success?
    ensures ParsedEnv(task).Success? && ParsedPassThroughEnv(task).Success? && ParsedDotEnv(task, check).Success?
    ensures TaskFromRaw(task, check).value.taskDefinition.env == ParsedEnv(task).value
    ensures TaskFromRaw(task, check).value.taskDefinition.passThroughEnv == ParsedPassThroughEnv(task).value
    ensures TaskFromRaw(task, check).value.taskDefinition.dotEnv == ParsedDotEnv(task, check).value
  {
    FailureSource(task, check);
  }

  /** Which of the three fallible keys a failure comes from, tried in the source's order. */
  lemma FailureSource(task: RawTask, check: PathCheck)
    ensures ParsedEnv(task).Failure? ==> TaskFromRaw(task, check) == Failure(ParsedEnv(task).error)
    ensures ParsedEnv(task).Success? && ParsedPassThroughEnv(task).Failure? ==>
              TaskFromRaw(task, check) == Failure(ParsedPassThroughEnv(task).error)
    ensures ParsedEnv(task).Success? && ParsedPassThroughEnv(task).Success? && ParsedDotEnv(task, check).Failure? ==>
              TaskFromRaw(task, check) == Failure(ParsedDotEnv(task, check).error)
    ensures TaskFromRaw(task, check).Failure? <==>
              ParsedEnv(task).Failure? || ParsedPassThroughEnv(task).Failure? || ParsedDotEnv(task, check).Failure?
  {
  }

  /**
   * The error reported is the first one in the source's order: `env` before
   * `passThroughEnv` before `dotEnv`, and within a key the first bad entry.
   */
  lemma ParseErrorOrder(task: RawTask, check: PathCheck)
    ensures task.env.Some? && AnyEnvPrefixed(task.env.value) ==>
              var env := task.env.value;
              exists i | 0 <= i < |env| :: && TaskFromRaw(task, check) == Failure(InvalidEnvPrefix(env[i], "env"))
                                           && EnvPrefixed(env[i]) && forall j | 0 <= j < i :: !EnvPrefixed(env[j])
    ensures && !(task.env.Some? && AnyEnvPrefixed(task.env.value))
            && task.passThroughEnv.Some? && AnyEnvPrefixed(task.passThroughEnv.value) ==>
              var vars := task.passThroughEnv.value;
              exists i | 0 <= i < |vars| :: && TaskFromRaw(task, check) == Failure(InvalidEnvPrefix(vars[i], "passThroughEnv"))
                                            && EnvPrefixed(vars[i]) && forall j | 0 <= j < i :: !EnvPrefixed(vars[j])
    ensures && !(task.env.Some? && AnyEnvPrefixed(task.env.value))
            && !(task.passThroughEnv.Some? && AnyEnvPrefixed(task.passThroughEnv.value))
            && TaskFromRaw(task, check).Failure? ==>
              && task.dotEnv.Some?
              && var paths := task.dotEnv.value;
                 exists i | 0 <= i < |paths| :: && TaskFromRaw(task, check) == Failure(InvalidPath(paths[i]))
                                                && check(paths[i]).None? && forall j | 0 <= j < i :: check(paths[j]).Some?
  {
    FailureSource(task, check);
    if task.env.Some? && AnyEnvPrefixed(task.env.value) {
      assert ParsedEnv(task) == Failure(GatheredEnvVars(task.env.value, "env", {}).error);
    } else if task.passThroughEnv.Some? && AnyEnvPrefixed(task.passThroughEnv.value) {
      assert ParsedEnv(task).Success?;
      assert ParsedPassThroughEnv(task) == Failure(GatheredEnvVars(task.passThroughEnv.value, "passThroughEnv", {}).error);
    } else if TaskFromRaw(task, check).Failure? {
      assert ParsedEnv(task).Success? && ParsedPassThroughEnv(task).Success?;
      assert ParsedDotEnv(task, check) == Failure(CheckedPaths(task.dotEnv.value, check).error);
    }
  }

  /** Inclusions are the globs without `!`, exclusions the `!` globs with it removed; both sorted, no glob lost or invented. */
  lemma ParsedOutputsClassified(globs: seq<string>)
    ensures Sorted(ParsedOutputs(globs).inclusions) && Sorted(ParsedOutputs(globs).exclusions)
    ensures forall x :: multiset(ParsedOutputs(globs).inclusions)[x] == if StartsWith(x, ExclusionPrefix) then 0 else multiset(globs)[x]
    ensures forall y :: multiset(ParsedOutputs(globs).exclusions)[y] == multiset(globs)[[ExclusionPrefix] + y]
  {
    forall x ensures multiset(ParsedOutputs(globs).inclusions)[x] == if StartsWith(x, ExclusionPrefix) then 0 else multiset(globs)[x] {
      UnprefixedCount(globs, {ExclusionPrefix}, x);
    }
    forall y ensures multiset(ParsedOutputs(globs).exclusions)[y] == multiset(globs)[[ExclusionPrefix] + y] {
      StrippedCount(globs, ExclusionPrefix, y);
    }
  }

  /**
   * `^x` in `dependsOn` makes `x` a topological dependency, a plain entry a
   * task dependency, and `$x` puts `x` in `env`; both dependency lists are
   * sorted and keep duplicates.
   */
  lemma ParsedDependsOnClassified(task: RawTask, check: PathCheck)
    requires TaskFromRaw(task, check).Success?
    ensures var td := TaskFromRaw(task, check).value.taskDefinition;
            var deps := task.dependsOn.GetOr([]);
            && Sorted(td.topologicalDependencies) && Sorted(td.taskDependencies)
            && (forall y :: multiset(td.topologicalDependencies)[y] == multiset(deps)[[TopologicalPipelineDelimiter] + y])
            && (forall x :: multiset(td.taskDependencies)[x] ==
                  if StartsWithAny(x, {EnvPipelineDelimiter, TopologicalPipelineDelimiter}) then 0 else multiset(deps)[x])
  {
    var deps := task.dependsOn.GetOr([]);
    forall y ensures multiset(Sort(Stripped(deps, TopologicalPipelineDelimiter)))[y] == multiset(deps)[[TopologicalPipelineDelimiter] + y] {
      StrippedCount(deps, TopologicalPipelineDelimiter, y);
    }
    forall x ensures multiset(Sort(Unprefixed(deps, {EnvPipelineDelimiter, TopologicalPipelineDelimiter})))[x] ==
                       if StartsWithAny(x, {EnvPipelineDelimiter, TopologicalPipelineDelimiter}) then 0 else multiset(deps)[x] {
      UnprefixedCount(deps, {EnvPipelineDelimiter, TopologicalPipelineDelimiter}, x);
    }
  }

  /** `env` lists each variable once, sorted: those of the `env` key and those named `$x` in `dependsOn`. */
  lemma ParsedEnvContents(task: RawTask, check: PathCheck)
    requires TaskFromRaw(task, check).Success?
    ensures var td := TaskFromRaw(task, check).value.taskDefinition;
            var deps := task.dependsOn.GetOr([]);
            && Sorted(td.env) && NoDup(td.env)
            && forall x :: x in td.env <==> ([EnvPipelineDelimiter] + x in deps || x in task.env.GetOr([]))
  {
    var deps := task.dependsOn.GetOr([]);
    var sources := Stripped(deps, EnvPipelineDelimiter) + task.env.GetOr([]);
    ParsedParts(task, check);
    assert ParsedEnv(task).value == SortedSet(sources);
    forall x ensures x in SortedSet(sources) <==> ([EnvPipelineDelimiter] + x in deps || x in task.env.GetOr([])) {
      StrippedCount(deps, EnvPipelineDelimiter, x);
      assert x in SortedSet(sources) <==> x in Elems(sources);
      assert x in Stripped(deps, EnvPipelineDelimiter) <==> multiset(Stripped(deps, EnvPipelineDelimiter))[x] > 0;
    }
  }

  /**
   * The other keys: a defined field is one whose key was present; absent
   * `cache` means caching on and absent `persistent` means not persistent;
   * `inputs` is kept as written; `passThroughEnv` stays absent when absent and
   * is otherwise deduplicated and sorted; `dotEnv` keeps its declared order.
   */
  lemma ParsedKeys(task: RawTask, check: PathCheck)
    requires TaskFromRaw(task, check).Success?
    ensures var btd := TaskFromRaw(task, check).value;
            var td := btd.taskDefinition;
            && btd.experimentalFields == {}
            && (forall f :: f in btd.definedFields <==> Declares(task, f))
            && (task.cache.None? ==> td.cache)
            && (task.cache.Some? ==> td.cache == task.cache.value)
            && (task.persistent.None? ==> !td.persistent)
            && (task.persistent.Some? ==> td.persistent == task.persistent.value)
            && (task.outputMode.Some? ==> td.outputMode == task.outputMode.value)
            && (task.inputs.Some? ==> td.inputs == task.inputs.value)
            && (task.inputs.None? ==> td.inputs == [])
            && (td.passThroughEnv.Some? <==> task.passThroughEnv.Some?)
            && (td.passThroughEnv.Some? ==> && Sorted(td.passThroughEnv.value) && NoDup(td.passThroughEnv.value)
                                            && Elems(td.passThroughEnv.value) == Elems(task.passThroughEnv.value))
            && (td.dotEnv.Some? <==> task.dotEnv.Some?)
            && (td.dotEnv.Some? ==> && |td.dotEnv.value| == |task.dotEnv.value|
                                    && forall i | 0 <= i < |td.dotEnv.value| :: check(task.dotEnv.value[i]) == Some(td.dotEnv.value[i]))
  {
    forall f ensures f in TaskFromRaw(task, check).value.definedFields <==> Declares(task, f) {
      DefinedFieldsDeclared(task, f);
    }
  }

  /** A task block with no keys. */
  const EmptyTask := RawTask(None, None, None, None, None, None, None, None, None)

  /** An empty block parses to the defaults with nothing defined. */
  lemma EmptyTaskDefaults(check: PathCheck)
    ensures TaskFromRaw(EmptyTask, check) == Success(BookkeepingTaskDefinition({}, {}, ZeroTaskDefinition.(cache := true)))
  {
    SortedSetUnique([], []);
    assert Stripped([], EnvPipelineDelimiter) + [] == [];
    assert ParsedEnv(EmptyTask) == Success([]);
    assert ParsedPassThroughEnv(EmptyTask) == Success(None);
    assert ParsedDotEnv(EmptyTask, check) == Success(None);
    assert DefinedFields(EmptyTask) == {};
  }

  /** How the example `dependsOn` list splits by prefix. */
  lemma DependsOnExampleSplit(deps: seq<string>)
    requires deps == ["^build", "$FOO", "other", "pkg#task"]
    ensures Stripped(deps, TopologicalPipelineDelimiter) == ["build"]
    ensures Unprefixed(deps, {EnvPipelineDelimiter, TopologicalPipelineDelimiter}) == ["other", "pkg#task"]
    ensures Stripped(deps, EnvPipelineDelimiter) == ["FOO"]
    ensures AnyEnvPrefixed(deps)
  {
    var seps := {EnvPipelineDelimiter, TopologicalPipelineDelimiter};
    assert "^build"[1..] == "build" && "$FOO"[1..] == "FOO";
    assert deps[..1] == ["^build"];
    assert [deps[0]][..0] == [];
    assert Stripped(deps[..1], TopologicalPipelineDelimiter) == ["build"];
    assert Stripped(deps[..1], EnvPipelineDelimiter) == [];
    assert Unprefixed(deps[..1], seps) == [];
    assert deps[..2] == ["^build", "$FOO"] && deps[..2][..1] == deps[..1];
    assert Stripped(deps[..2], TopologicalPipelineDelimiter) == ["build"];
    assert Stripped(deps[..2], EnvPipelineDelimiter) == ["FOO"];
    assert Unprefixed(deps[..2], seps) == [];
    assert deps[..3] == ["^build", "$FOO", "other"] && deps[..3][..2] == deps[..2];
    assert Stripped(deps[..3], TopologicalPipelineDelimiter) == ["build"];
    assert Stripped(deps[..3], EnvPipelineDelimiter) == ["FOO"];
    assert Unprefixed(deps[..3], seps) == ["other"];
    assert deps[..4][..3] == deps[..3] && deps[..4] == deps;
    assert EnvPrefixed(deps[1]);
  }

  /** The two dependency lists of the `dependsOn` example are already in order (used by `DependsOnExampleDependencies`). */
  lemma SortExamples()
    ensures Sort(["build"]) == ["build"]
    ensures Sort(["other", "pkg#task"]) == ["other", "pkg#task"]
  {
    SortedUnique(Sort(["build"]), ["build"]);
    assert Le("other", "pkg#task");
    SortedUnique(Sort(["other", "pkg#task"]), ["other", "pkg#task"]);
  }

  /** The example `dependsOn` block. */
  const DependsOnExampleTask := EmptyTask.(dependsOn := Some(["^build", "$FOO", "other", "pkg#task"]))

  /** The example `dependsOn` block parses: it has no `env`, `passThroughEnv` or `dotEnv` key. */
  lemma DependsOnExampleParses(check: PathCheck)
    ensures TaskFromRaw(DependsOnExampleTask, check).Success?
  {
    var task := DependsOnExampleTask;
    assert ParsedEnv(task).Success?;
    assert ParsedPassThroughEnv(task) == Success(None);
    assert ParsedDotEnv(task, check) == Success(None);
  }

  /** `dependsOn: ["^build", "$FOO", "other", "pkg#task"]`: one topological dependency and two task dependencies, sorted. */
  lemma DependsOnExampleDependencies(check: PathCheck)
    ensures TaskFromRaw(DependsOnExampleTask, check).Success?
    ensures TaskFromRaw(DependsOnExampleTask, check).value.taskDefinition.topologicalDependencies == ["build"]
    ensures TaskFromRaw(DependsOnExampleTask, check).value.taskDefinition.taskDependencies == ["other", "pkg#task"]
  {
    DependsOnExampleParses(check);
    DependsOnExampleSplit(DependsOnExampleTask.dependsOn.value);
    SortExamples();
  }

  /** The same block puts `FOO` in env. */
  lemma DependsOnExampleEnv(check: PathCheck)
    ensures TaskFromRaw(DependsOnExampleTask, check).Success?
    ensures "FOO" in TaskFromRaw(DependsOnExampleTask, check).value.taskDefinition.env
  {
    var task := DependsOnExampleTask;
    var deps := task.dependsOn.value;
    DependsOnExampleParses(check);
    ParsedParts(task, check);
    DependsOnExampleEnvList(task);
  }

  /** The example's `env` list on its own. */
  lemma DependsOnExampleEnvList(task: RawTask)
    requires task == DependsOnExampleTask
    ensures ParsedEnv(task).Success? && "FOO" in ParsedEnv(task).value
  {
    var deps := task.dependsOn.value;
    DependsOnExampleSplit(deps);
    assert Stripped(deps, EnvPipelineDelimiter) + [] == ["FOO"];
    assert ParsedEnv(task) == Success(SortedSet(["FOO"]));
    assert "FOO" in Elems(SortedSet(["FOO"]));
  }

  /** The same block defines exactly `DependsOn` and, through `$FOO`, `Env`. */
  lemma DependsOnExampleFields(check: PathCheck)
    ensures TaskFromRaw(DependsOnExampleTask, check).Success?
    ensures TaskFromRaw(DependsOnExampleTask, check).value.definedFields == {DependsOn, Env}
  {
    var task := DependsOnExampleTask;
    assert EnvPrefixed(task.dependsOn.value[1]);
    assert DefinedFields(task) == {DependsOn, Env};
    DependsOnExampleParses(check);
    ParsedDefinedFields(task, check);
  }

  /** A parsed block records the fields of `DefinedFields` and no experimental ones. */
  lemma ParsedDefinedFields(task: RawTask, check: PathCheck)
    requires TaskFromRaw(task, check).Success?
    ensures TaskFromRaw(task, check).value.definedFields == DefinedFields(task)
    ensures TaskFromRaw(task, check).value.experimentalFields == {}
  {
    FailureSource(task, check);
  }

  // An `outputs` list with one plain glob and one `!` glob: one inclusion, one exclusion with its `!` removed.
  lemma OutputsExample()
    ensures ParsedOutputs(["dist/**", "!dist/cache/**"]) == TaskOutputs(["dist/**"], ["dist/cache/**"])
  {
    var globs := ["dist/**", "!dist/cache/**"];
    assert globs[..1] == ["dist/**"] && [globs[0]][..0] == [];
    assert "!dist/cache/**"[1..] == "dist/cache/**";
    assert !StartsWithAny("dist/**", {ExclusionPrefix});
    assert Unprefixed(globs[..1], {ExclusionPrefix}) == ["dist/**"];
    assert globs[..2][..1] == globs[..1] && globs[..2] == globs;
    assert Unprefixed(globs, {ExclusionPrefix}) == ["dist/**"];
    assert Stripped(globs, ExclusionPrefix) == ["dist/cache/**"];
  }

  /** `env: ["$FOO"]` is rejected, naming the value and the key. */
  lemma EnvPrefixExample(check: PathCheck)
    ensures TaskFromRaw(EmptyTask.(env := Some(["$FOO"])), check) == Failure(InvalidEnvPrefix("$FOO", "env"))
  {
    assert EnvPrefixed(["$FOO"][0]);
  }
}

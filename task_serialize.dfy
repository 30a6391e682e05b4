/**
 * The canonical serialized form of a task definition (`makeRawTask` and the
 * two `MarshalJSON` methods that call it, cli/internal/fs/turbo_json.go), and
 * what parsing that form gives back.
 */
module TaskSerialize {
  import opened Wrappers
  import opened Strings
  import opened TaskDefinitions
  import opened TaskParse
  import opened Merge

  /**
   * `rawTaskWithDefaults`: the block that is written out. The four lists are
   * always emitted (empty rather than null) and so are `cache`, `outputMode`
   * and `persistent`; `passThroughEnv` and `dotEnv` are null when absent.
   */
  datatype RawTaskWithDefaults = RawTaskWithDefaults(
    outputs: seq<string>,
    cache: bool,
    dependsOn: seq<string>,
    inputs: seq<string>,
    outputMode: TaskOutputMode,
    persistent: bool,
    env: seq<string>,
    passThroughEnv: Option<seq<string>>,
    dotEnv: Option<seq<string>>)

  /**
   * What `makeRawTask` builds from a definition: outputs and dependency lists
   * re-flattened (`!` before exclusions, `^` before topological dependencies)
   * and sorted as a whole; `env`, `inputs` and a present `passThroughEnv`
   * sorted; `dotEnv` as it is.
   */
  function RawTaskOf(td: TaskDefinition): RawTaskWithDefaults {
    RawTaskWithDefaults(
      outputs := Sort(td.outputs.inclusions + Prefixed(td.outputs.exclusions, ExclusionPrefix)),
      cache := td.cache,
      dependsOn := Sort(td.taskDependencies + Prefixed(td.topologicalDependencies, TopologicalPipelineDelimiter)),
      inputs := Sort(td.inputs),
      outputMode := td.outputMode,
      persistent := td.persistent,
      env := Sort(td.env),
      passThroughEnv := if td.passThroughEnv.Some? then Some(Sort(td.passThroughEnv.value)) else None,
      dotEnv := td.dotEnv)
  }

  /** `makeRawTask`, appending into the output lists and then sorting them. */
  method MakeRawTask(
    outputs: TaskOutputs,
    shouldCache: bool,
    topologicalDependencies: seq<string>,
    taskDependencies: seq<string>,
    inputs: seq<string>,
    outputMode: TaskOutputMode,
    persistent: bool,
    env: seq<string>,
    passThroughEnv: Option<seq<string>>,
    dotEnv: Option<seq<string>>)
    returns (task: RawTaskWithDefaults)
    ensures task == RawTaskOf(TaskDefinition(outputs, shouldCache, topologicalDependencies, taskDependencies, inputs,
                                             outputMode, persistent, env, passThroughEnv, dotEnv))
  {
    ghost var td := TaskDefinition(outputs, shouldCache, topologicalDependencies, taskDependencies, inputs,
                                   outputMode, persistent, env, passThroughEnv, dotEnv);
    var taskOutputs: seq<string> := [];
    var taskInputs: seq<string> := [];
    var taskEnv: seq<string> := [];
    var taskDependsOn: seq<string> := [];

    taskInputs := AppendNonEmpty(taskInputs, inputs);
    assert taskInputs == inputs;
    taskEnv := AppendNonEmpty(taskEnv, env);
    assert taskEnv == env;
    taskOutputs := AppendNonEmpty(taskOutputs, outputs.inclusions);
    assert taskOutputs == outputs.inclusions;
    taskOutputs := AppendPrefixed(taskOutputs, outputs.exclusions, ExclusionPrefix);
    taskDependsOn := AppendNonEmpty(taskDependsOn, taskDependencies);
    assert taskDependsOn == taskDependencies;
    taskDependsOn := AppendPrefixed(taskDependsOn, topologicalDependencies, TopologicalPipelineDelimiter);

    var taskPassThroughEnv: Option<seq<string>> := None;
    if passThroughEnv.Some? {
      taskPassThroughEnv := Some(Sort(passThroughEnv.value));
    }

    task := RawTaskWithDefaults(
      Sort(taskOutputs), shouldCache, Sort(taskDependsOn), Sort(taskInputs), outputMode, persistent,
      Sort(taskEnv), taskPassThroughEnv, dotEnv);
    assert task.outputs == RawTaskOf(td).outputs;
    assert task.dependsOn == RawTaskOf(td).dependsOn;
    assert task.inputs == RawTaskOf(td).inputs && task.env == RawTaskOf(td).env;
    assert task.passThroughEnv == RawTaskOf(td).passThroughEnv;
  }

  /** One guarded `append` of `makeRawTask`: `s` is appended only when it is non-empty, which comes to the same list. */
  method AppendNonEmpty(acc: seq<string>, s: seq<string>) returns (r: seq<string>)
    ensures r == acc + s
  {
    r := acc;
    if |s| > 0 {
      r := r + s;
    }
    assert r == acc + s;
  }

  /** The loops of `makeRawTask` over exclusions and topological dependencies: append each entry behind `c`. */
  method AppendPrefixed(acc: seq<string>, s: seq<string>, c: char) returns (r: seq<string>)
    ensures r == acc + Prefixed(s, c)
  {
    r := acc;
    for i := 0 to |s|
      invariant r == acc + Prefixed(s[..i], c)
    {
      assert s[..i + 1][..i] == s[..i];
      r := r + [[c] + s[i]];
    }
    assert s[..|s|] == s;
  }

  /** Reading the written block back as a `rawTask`: every always-emitted key is present; null stays absent. */
  function Reread(w: RawTaskWithDefaults): RawTask {
    RawTask(Some(w.outputs), Some(w.cache), Some(w.dependsOn), Some(w.inputs), Some(w.outputMode),
            Some(w.persistent), Some(w.env), w.passThroughEnv, w.dotEnv)
  }

  // ---------------------------------------------------------------------------
  // The shape of the serialized block

  /**
   * Every list is sorted; `outputs` holds the inclusions and `!`+exclusion,
   * `dependsOn` the task dependencies and `^`+topological dependency, each
   * with its multiplicity; `passThroughEnv` is present exactly when it was;
   * `dotEnv` is unchanged; `cache` is always written.
   */
  lemma SerializedShape(td: TaskDefinition)
    ensures var w := RawTaskOf(td);
            && Sorted(w.outputs) && Sorted(w.dependsOn) && Sorted(w.inputs) && Sorted(w.env)
            && multiset(w.inputs) == multiset(td.inputs) && multiset(w.env) == multiset(td.env)
            && (w.passThroughEnv.Some? <==> td.passThroughEnv.Some?)
            && (w.passThroughEnv.Some? ==> Sorted(w.passThroughEnv.value) && multiset(w.passThroughEnv.value) == multiset(td.passThroughEnv.value))
            && w.dotEnv == td.dotEnv
            && w.cache == td.cache && w.persistent == td.persistent && w.outputMode == td.outputMode
    ensures forall x :: multiset(RawTaskOf(td).outputs)[x] ==
              multiset(td.outputs.inclusions)[x] + (if StartsWith(x, ExclusionPrefix) then multiset(td.outputs.exclusions)[x[1..]] else 0)
    ensures forall x :: multiset(RawTaskOf(td).dependsOn)[x] ==
              multiset(td.taskDependencies)[x] + (if StartsWith(x, TopologicalPipelineDelimiter) then multiset(td.topologicalDependencies)[x[1..]] else 0)
  {
    forall x ensures multiset(RawTaskOf(td).outputs)[x] ==
              multiset(td.outputs.inclusions)[x] + (if StartsWith(x, ExclusionPrefix) then multiset(td.outputs.exclusions)[x[1..]] else 0) {
      PrefixedCount(td.outputs.exclusions, ExclusionPrefix, x);
    }
    forall x ensures multiset(RawTaskOf(td).dependsOn)[x] ==
              multiset(td.taskDependencies)[x] + (if StartsWith(x, TopologicalPipelineDelimiter) then multiset(td.topologicalDependencies)[x[1..]] else 0) {
      PrefixedCount(td.topologicalDependencies, TopologicalPipelineDelimiter, x);
    }
  }

  /** Prefixing lists with the same entries gives lists with the same entries. */
  lemma PrefixedSameEntries(s: seq<string>, t: seq<string>, c: char)
    requires multiset(s) == multiset(t)
    ensures multiset(Prefixed(s, c)) == multiset(Prefixed(t, c))
  {
    forall x ensures multiset(Prefixed(s, c))[x] == multiset(Prefixed(t, c))[x] {
      PrefixedCount(s, c, x);
      PrefixedCount(t, c, x);
    }
  }

  /** Definitions whose lists hold the same entries, in any order, serialize identically. */
  lemma SerializationOrderIndependent(a: TaskDefinition, b: TaskDefinition)
    requires multiset(a.outputs.inclusions) == multiset(b.outputs.inclusions)
    requires multiset(a.outputs.exclusions) == multiset(b.outputs.exclusions)
    requires multiset(a.taskDependencies) == multiset(b.taskDependencies)
    requires multiset(a.topologicalDependencies) == multiset(b.topologicalDependencies)
    requires multiset(a.inputs) == multiset(b.inputs) && multiset(a.env) == multiset(b.env)
    requires a.passThroughEnv.Some? <==> b.passThroughEnv.Some?
    requires a.passThroughEnv.Some? ==> multiset(a.passThroughEnv.value) == multiset(b.passThroughEnv.value)
    requires a.cache == b.cache && a.outputMode == b.outputMode && a.persistent == b.persistent && a.dotEnv == b.dotEnv
    ensures RawTaskOf(a) == RawTaskOf(b)
  {
    var aOutputs := a.outputs.inclusions + Prefixed(a.outputs.exclusions, ExclusionPrefix);
    var bOutputs := b.outputs.inclusions + Prefixed(b.outputs.exclusions, ExclusionPrefix);
    PrefixedSameEntries(a.outputs.exclusions, b.outputs.exclusions, ExclusionPrefix);
    assert multiset(aOutputs) == multiset(bOutputs);
    SortedUnique(Sort(aOutputs), Sort(bOutputs));
    var aDeps := a.taskDependencies + Prefixed(a.topologicalDependencies, TopologicalPipelineDelimiter);
    var bDeps := b.taskDependencies + Prefixed(b.topologicalDependencies, TopologicalPipelineDelimiter);
    PrefixedSameEntries(a.topologicalDependencies, b.topologicalDependencies, TopologicalPipelineDelimiter);
    assert multiset(aDeps) == multiset(bDeps);
    SortedUnique(Sort(aDeps), Sort(bDeps));
    SortedUnique(Sort(a.inputs), Sort(b.inputs));
    SortedUnique(Sort(a.env), Sort(b.env));
    if a.passThroughEnv.Some? {
      SortedUnique(Sort(a.passThroughEnv.value), Sort(b.passThroughEnv.value));
    }
  }

  // ---------------------------------------------------------------------------
  // Parsing the serialized block

  /** No entry carries a `!` prefix, which would turn an inclusion into an exclusion. */
  predicate NoExclusionPrefix(globs: seq<string>) {
    forall i | 0 <= i < |globs| :: !StartsWith(globs[i], ExclusionPrefix)
  }

  /** No entry carries a `$` or `^` prefix, which would turn a task dependency into something else. */
  predicate PlainDependencies(deps: seq<string>) {
    forall i | 0 <= i < |deps| :: !StartsWithAny(deps[i], {EnvPipelineDelimiter, TopologicalPipelineDelimiter})
  }

  /** Each path is already anchored: checking it gives it back. */
  predicate AnchoredPaths(paths: seq<string>, check: PathCheck) {
    forall i | 0 <= i < |paths| :: check(paths[i]) == Some(paths[i])
  }

  /** An environment list as parsing produces it: sorted, each name once, none `$`-prefixed. */
  predicate NormalEnv(env: seq<string>) {
    Sorted(env) && NoDup(env) && !AnyEnvPrefixed(env)
  }

  /**
   * A definition in the form parsing produces (up to the order of `inputs`):
   * the shape that survives serialization and re-parsing unchanged.
   */
  predicate Normalized(td: TaskDefinition, check: PathCheck) {
    && Sorted(td.outputs.inclusions) && NoExclusionPrefix(td.outputs.inclusions)
    && Sorted(td.outputs.exclusions)
    && Sorted(td.topologicalDependencies)
    && Sorted(td.taskDependencies) && PlainDependencies(td.taskDependencies)
    && NormalEnv(td.env)
    && (td.passThroughEnv.Some? ==> NormalEnv(td.passThroughEnv.value))
    && (td.dotEnv.Some? ==> AnchoredPaths(td.dotEnv.value, check))
  }

  /** The fields a re-parsed block defines: all that are always written, plus the two optional ones when present. */
  function SerializedFields(td: TaskDefinition): set<Field> {
    {Outputs, Cache, DependsOn, Inputs, OutputMode, Persistent, Env}
    + (if td.passThroughEnv.Some? then {PassThroughEnv} else {})
    + (if td.dotEnv.Some? then {DotEnv} else {})
  }

  /** Every entry of `Prefixed(s, c)` starts with `c`. */
  lemma PrefixedStartsWith(s: seq<string>, c: char, x: string)
    requires x in Prefixed(s, c)
    ensures StartsWith(x, c)
  {
    assert x in multiset(Prefixed(s, c));
    PrefixedCount(s, c, x);
  }

  /** `c + y` occurs in a list joined from unprefixed entries and `Prefixed(s, c)` as often as `y` does in `s`. */
  lemma JoinedPrefixedCount(kept: seq<string>, s: seq<string>, c: char, y: string)
    requires forall i | 0 <= i < |kept| :: !StartsWith(kept[i], c)
    ensures multiset(Sort(kept + Prefixed(s, c)))[[c] + y] == multiset(s)[y]
  {
    PrefixedCount(s, c, [c] + y);
    assert ([c] + y)[1..] == y;
    assert StartsWith([c] + y, c);
    assert [c] + y !in kept;
  }

  /** An entry without any of the prefixes in `cs` occurs in the joined list only through `kept`. */
  lemma JoinedKeptCount(kept: seq<string>, s: seq<string>, c: char, cs: set<char>, x: string)
    requires c in cs
    requires forall i | 0 <= i < |kept| :: !StartsWithAny(kept[i], cs)
    ensures multiset(Unprefixed(Sort(kept + Prefixed(s, c)), cs))[x] == multiset(kept)[x]
  {
    UnprefixedCount(Sort(kept + Prefixed(s, c)), cs, x);
    PrefixedCount(s, c, x);
    if StartsWithAny(x, cs) {
      assert x !in kept;
    }
  }

  /** Re-parsing the written `outputs` gives back the sorted inclusions. */
  lemma InclusionsRoundTrip(inclusions: seq<string>, exclusions: seq<string>)
    requires Sorted(inclusions) && NoExclusionPrefix(inclusions)
    ensures Sort(Unprefixed(Sort(inclusions + Prefixed(exclusions, ExclusionPrefix)), {ExclusionPrefix})) == inclusions
  {
    var kept := Unprefixed(Sort(inclusions + Prefixed(exclusions, ExclusionPrefix)), {ExclusionPrefix});
    forall x ensures multiset(kept)[x] == multiset(inclusions)[x] {
      JoinedKeptCount(inclusions, exclusions, ExclusionPrefix, {ExclusionPrefix}, x);
    }
    assert multiset(Sort(kept)) == multiset(inclusions);
    SortedUnique(Sort(kept), inclusions);
  }

  /** Re-parsing the written `outputs` gives back the sorted exclusions. */
  lemma ExclusionsRoundTrip(inclusions: seq<string>, exclusions: seq<string>)
    requires Sorted(exclusions) && NoExclusionPrefix(inclusions)
    ensures Sort(Stripped(Sort(inclusions + Prefixed(exclusions, ExclusionPrefix)), ExclusionPrefix)) == exclusions
  {
    var written := Sort(inclusions + Prefixed(exclusions, ExclusionPrefix));
    forall y ensures multiset(Stripped(written, ExclusionPrefix))[y] == multiset(exclusions)[y] {
      StrippedCount(written, ExclusionPrefix, y);
      JoinedPrefixedCount(inclusions, exclusions, ExclusionPrefix, y);
    }
    assert multiset(Sort(Stripped(written, ExclusionPrefix))) == multiset(exclusions);
    SortedUnique(Sort(Stripped(written, ExclusionPrefix)), exclusions);
  }

  /** Re-parsing the written `outputs` gives back the sorted inclusions and exclusions. */
  lemma OutputsRoundTrip(inclusions: seq<string>, exclusions: seq<string>)
    requires Sorted(inclusions) && Sorted(exclusions) && NoExclusionPrefix(inclusions)
    ensures ParsedOutputs(Sort(inclusions + Prefixed(exclusions, ExclusionPrefix))) == TaskOutputs(inclusions, exclusions)
  {
    InclusionsRoundTrip(inclusions, exclusions);
    ExclusionsRoundTrip(inclusions, exclusions);
  }

  /** Re-parsing the written `dependsOn` gives back the sorted task dependencies. */
  lemma TasksRoundTrip(tasks: seq<string>, topological: seq<string>)
    requires Sorted(tasks) && PlainDependencies(tasks)
    ensures Sort(Unprefixed(Sort(tasks + Prefixed(topological, TopologicalPipelineDelimiter)),
                            {EnvPipelineDelimiter, TopologicalPipelineDelimiter})) == tasks
  {
    var seps := {EnvPipelineDelimiter, TopologicalPipelineDelimiter};
    var kept := Unprefixed(Sort(tasks + Prefixed(topological, TopologicalPipelineDelimiter)), seps);
    forall x ensures multiset(kept)[x] == multiset(tasks)[x] {
      JoinedKeptCount(tasks, topological, TopologicalPipelineDelimiter, seps, x);
    }
    assert multiset(Sort(kept)) == multiset(tasks);
    SortedUnique(Sort(kept), tasks);
  }

  /** Re-parsing the written `dependsOn` gives back the sorted topological dependencies. */
  lemma TopologicalRoundTrip(tasks: seq<string>, topological: seq<string>)
    requires Sorted(topological) && PlainDependencies(tasks)
    ensures Sort(Stripped(Sort(tasks + Prefixed(topological, TopologicalPipelineDelimiter)), TopologicalPipelineDelimiter)) == topological
  {
    var written := Sort(tasks + Prefixed(topological, TopologicalPipelineDelimiter));
    forall i | 0 <= i < |tasks| ensures !StartsWith(tasks[i], TopologicalPipelineDelimiter) {
    }
    forall y ensures multiset(Stripped(written, TopologicalPipelineDelimiter))[y] == multiset(topological)[y] {
      StrippedCount(written, TopologicalPipelineDelimiter, y);
      JoinedPrefixedCount(tasks, topological, TopologicalPipelineDelimiter, y);
    }
    assert multiset(Sort(Stripped(written, TopologicalPipelineDelimiter))) == multiset(topological);
    SortedUnique(Sort(Stripped(written, TopologicalPipelineDelimiter)), topological);
  }

  /** The written `dependsOn` has no `$` entry, so it contributes nothing to `env`. */
  lemma NoEnvInWrittenDependsOn(tasks: seq<string>, topological: seq<string>)
    requires PlainDependencies(tasks)
    ensures var written := Sort(tasks + Prefixed(topological, TopologicalPipelineDelimiter));
            && !AnyEnvPrefixed(written)
            && Stripped(written, EnvPipelineDelimiter) == []
  {
    var written := Sort(tasks + Prefixed(topological, TopologicalPipelineDelimiter));
    forall x | x in written ensures !EnvPrefixed(x) {
      assert x in multiset(written);
      if x !in tasks {
        PrefixedStartsWith(topological, TopologicalPipelineDelimiter, x);
      }
    }
    forall y ensures multiset(Stripped(written, EnvPipelineDelimiter))[y] == 0 {
      StrippedCount(written, EnvPipelineDelimiter, y);
      assert EnvPrefixed([EnvPipelineDelimiter] + y);
    }
    EmptyMultiset(Stripped(written, EnvPipelineDelimiter));
  }

  /** A normal environment list survives being sorted and then parsed as a list of variables. */
  lemma EnvRoundTrip(env: seq<string>)
    requires NormalEnv(env)
    ensures !AnyEnvPrefixed(Sort(env))
    ensures SortedSet(Sort(env)) == env
  {
    SortedUnique(Sort(env), env);
    SortedSetUnique(env, env);
  }

  /** Anchored paths pass the check and come back unchanged. */
  lemma DotEnvRoundTrip(paths: seq<string>, check: PathCheck)
    requires AnchoredPaths(paths, check)
    ensures CheckedPaths(paths, check) == Success(paths)
  {
    assert CheckedPaths(paths, check).value == paths;
  }

  /** A block with every always-written key and no `$` dependency defines those keys and the optional ones present. */
  lemma FullBlockFields(task: RawTask)
    requires task.outputs.Some? && task.cache.Some? && task.dependsOn.Some? && task.inputs.Some?
    requires task.outputMode.Some? && task.persistent.Some? && task.env.Some?
    ensures DefinedFields(task) ==
              {Outputs, Cache, DependsOn, Inputs, OutputMode, Persistent, Env}
              + (if task.passThroughEnv.Some? then {PassThroughEnv} else {})
              + (if task.dotEnv.Some? then {DotEnv} else {})
  {
    forall f ensures f in DefinedFields(task) <==> Declares(task, f) {
      DefinedFieldsDeclared(task, f);
    }
  }

  /** The keys of a re-read block that parsing records as defined. */
  lemma RereadFields(td: TaskDefinition)
    ensures DefinedFields(Reread(RawTaskOf(td))) == SerializedFields(td)
  {
    FullBlockFields(Reread(RawTaskOf(td)));
  }

  /** The `env` key of a re-read block parses back to the normal list it was written from. */
  lemma RereadEnv(td: TaskDefinition)
    requires PlainDependencies(td.taskDependencies) && NormalEnv(td.env)
    ensures ParsedEnv(Reread(RawTaskOf(td))) == Success(td.env)
  {
    NoEnvInWrittenDependsOn(td.taskDependencies, td.topologicalDependencies);
    EnvKeyOfSortedList(Reread(RawTaskOf(td)), td.env);
  }

  /** A block whose `env` key is a sorted normal list and whose `dependsOn` names no variable parses `env` back to that list. */
  lemma EnvKeyOfSortedList(task: RawTask, env: seq<string>)
    requires task.dependsOn.Some? && Stripped(task.dependsOn.value, EnvPipelineDelimiter) == []
    requires task.env == Some(Sort(env)) && NormalEnv(env)
    ensures ParsedEnv(task) == Success(env)
  {
    EnvRoundTrip(env);
    assert Stripped(task.dependsOn.value, EnvPipelineDelimiter) + task.env.value == Sort(env);
  }

  /** The `passThroughEnv` and `dotEnv` keys of a re-read block parse back to what they were written from. */
  lemma RereadOptionalKeys(td: TaskDefinition, check: PathCheck)
    requires td.passThroughEnv.Some? ==> NormalEnv(td.passThroughEnv.value)
    requires td.dotEnv.Some? ==> AnchoredPaths(td.dotEnv.value, check)
    ensures ParsedPassThroughEnv(Reread(RawTaskOf(td))) == Success(td.passThroughEnv)
    ensures ParsedDotEnv(Reread(RawTaskOf(td)), check) == Success(td.dotEnv)
  {
    if td.passThroughEnv.Some? {
      EnvRoundTrip(td.passThroughEnv.value);
    }
    if td.dotEnv.Some? {
      DotEnvRoundTrip(td.dotEnv.value, check);
    }
  }

  /**
   * The round trip: parsing the serialized block of a definition in parsed
   * form gives the same definition with every written field defined, except
   * that `inputs` comes back sorted (serialization sorts it, parsing keeps
   * the order it reads).
   */
  lemma RoundTrip(td: TaskDefinition, check: PathCheck)
    requires Normalized(td, check)
    ensures TaskFromRaw(Reread(RawTaskOf(td)), check) ==
              Success(BookkeepingTaskDefinition(SerializedFields(td), {}, td.(inputs := Sort(td.inputs))))
  {
    var w := RawTaskOf(td);
    RereadFields(td);
    RereadEnv(td);
    RereadOptionalKeys(td, check);
    OutputsRoundTrip(td.outputs.inclusions, td.outputs.exclusions);
    TasksRoundTrip(td.taskDependencies, td.topologicalDependencies);
    TopologicalRoundTrip(td.taskDependencies, td.topologicalDependencies);
  }

  /** Merging one definition that declares every field it does not leave absent gives that definition back. */
  lemma MergeOfFullyDefined(td: TaskDefinition)
    ensures Merged([BookkeepingTaskDefinition(SerializedFields(td), {}, td)]) == td
  {
    var btd := BookkeepingTaskDefinition(SerializedFields(td), {}, td);
    assert [btd][..0] == [];
    forall f ensures FieldOf(Merged([btd]), f) == FieldOf(td, f) {
      OverlayField(Initial, btd, f);
    }
    FieldsDetermine(Merged([btd]), td);
  }

  /** Merged on its own, the re-parsed block reproduces the definition, with `inputs` sorted. */
  lemma MergedRoundTrip(td: TaskDefinition, check: PathCheck)
    requires Normalized(td, check)
    ensures TaskFromRaw(Reread(RawTaskOf(td)), check).Success?
    ensures Merged([TaskFromRaw(Reread(RawTaskOf(td)), check).value]) == td.(inputs := Sort(td.inputs))
  {
    var sorted := td.(inputs := Sort(td.inputs));
    var btd := BookkeepingTaskDefinition(SerializedFields(sorted), {}, sorted);
    RoundTrip(td, check);
    assert SerializedFields(td) == SerializedFields(sorted);
    assert TaskFromRaw(Reread(RawTaskOf(td)), check).value == btd;
    MergeOfFullyDefined(sorted);
    assert Merged([btd]) == sorted;
  }

  // ---------------------------------------------------------------------------
  // Which definitions are in parsed form

  /** The path check is idempotent: an anchored path checks to itself. */
  ghost predicate IdempotentCheck(check: PathCheck) {
    forall p: string, q: string :: check(p) == Some(q) ==> check(q) == Some(q)
  }

  /** No `dependsOn` entry starts with `$$`, which would name a `$`-prefixed variable. */
  predicate NoDoubleEnvPrefix(deps: seq<string>) {
    forall i | 0 <= i < |deps| :: !(|deps[i]| >= 2 && deps[i][0] == EnvPipelineDelimiter && deps[i][1] == EnvPipelineDelimiter)
  }

  /** Nothing `Unprefixed` keeps starts with one of the removed prefixes. */
  lemma UnprefixedClean(s: seq<string>, cs: set<char>, x: string)
    requires x in Sort(Unprefixed(s, cs))
    ensures !StartsWithAny(x, cs)
  {
    assert x in multiset(Sort(Unprefixed(s, cs)));
    UnprefixedCount(s, cs, x);
  }

  /** The `env` list parsed from a block without `$$` dependencies has no `$` entry. */
  lemma ParsedEnvClean(task: RawTask, check: PathCheck)
    requires TaskFromRaw(task, check).Success?
    requires NoDoubleEnvPrefix(task.dependsOn.GetOr([]))
    ensures NormalEnv(TaskFromRaw(task, check).value.taskDefinition.env)
  {
    ParsedParts(task, check);
    ParsedEnvNormal(task);
  }

  /** The `env` list on its own: no `$` entry comes from a `dependsOn` without `$$` or from an `env` key that parsed. */
  lemma ParsedEnvNormal(task: RawTask)
    requires ParsedEnv(task).Success?
    requires NoDoubleEnvPrefix(task.dependsOn.GetOr([]))
    ensures NormalEnv(ParsedEnv(task).value)
  {
    var deps := task.dependsOn.GetOr([]);
    var declared := task.env.GetOr([]);
    var sources := Stripped(deps, EnvPipelineDelimiter) + declared;
    var env := ParsedEnv(task).value;
    assert env == SortedSet(sources);
    if task.env.Some? {
      assert GatheredEnvVars(declared, "env", {}).Success?;
    }
    forall i | 0 <= i < |env| ensures !EnvPrefixed(env[i]) {
      var x := env[i];
      assert x in Elems(sources);
      var y := [EnvPipelineDelimiter] + x;
      assert y[1..] == x;
      if x in Stripped(deps, EnvPipelineDelimiter) {
        StrippedCount(deps, EnvPipelineDelimiter, x);
        assert y in multiset(deps);
        var k :| 0 <= k < |deps| && deps[k] == y;
      } else {
        var k :| 0 <= k < |declared| && declared[k] == x;
      }
    }
  }

  /** Parsed inclusions have no `!` entry. */
  lemma ParsedInclusionsClean(task: RawTask, check: PathCheck)
    requires TaskFromRaw(task, check).Success?
    ensures NoExclusionPrefix(TaskFromRaw(task, check).value.taskDefinition.outputs.inclusions)
  {
    var inclusions := TaskFromRaw(task, check).value.taskDefinition.outputs.inclusions;
    if task.outputs.Some? {
      forall i | 0 <= i < |inclusions| ensures !StartsWith(inclusions[i], ExclusionPrefix) {
        UnprefixedClean(task.outputs.value, {ExclusionPrefix}, inclusions[i]);
      }
    }
  }

  /** Parsed task dependencies have no `$` or `^` entry. */
  lemma ParsedTasksClean(task: RawTask, check: PathCheck)
    requires TaskFromRaw(task, check).Success?
    ensures PlainDependencies(TaskFromRaw(task, check).value.taskDefinition.taskDependencies)
  {
    var tasks := TaskFromRaw(task, check).value.taskDefinition.taskDependencies;
    forall i | 0 <= i < |tasks| ensures !StartsWithAny(tasks[i], {EnvPipelineDelimiter, TopologicalPipelineDelimiter}) {
      UnprefixedClean(task.dependsOn.GetOr([]), {EnvPipelineDelimiter, TopologicalPipelineDelimiter}, tasks[i]);
    }
  }

  /** Parsed `passThroughEnv` is normal, and with an idempotent check parsed `dotEnv` paths are anchored. */
  lemma ParsedOptionalKeysClean(task: RawTask, check: PathCheck)
    requires TaskFromRaw(task, check).Success?
    requires IdempotentCheck(check)
    ensures var td := TaskFromRaw(task, check).value.taskDefinition;
            && (td.passThroughEnv.Some? ==> NormalEnv(td.passThroughEnv.value))
            && (td.dotEnv.Some? ==> AnchoredPaths(td.dotEnv.value, check))
  {
    ParsedKeys(task, check);
    ParseFailsIff(task, check);
    var td := TaskFromRaw(task, check).value.taskDefinition;
    if td.passThroughEnv.Some? {
      forall i | 0 <= i < |td.passThroughEnv.value| ensures !EnvPrefixed(td.passThroughEnv.value[i]) {
        assert td.passThroughEnv.value[i] in Elems(task.passThroughEnv.value);
      }
    }
  }

  /**
   * Every definition parsing produces is in parsed form, given that the path
   * check is idempotent and no `dependsOn` entry starts with `$$`.
   */
  lemma ParsedIsNormalized(task: RawTask, check: PathCheck)
    requires TaskFromRaw(task, check).Success?
    requires IdempotentCheck(check)
    requires NoDoubleEnvPrefix(task.dependsOn.GetOr([]))
    ensures Normalized(TaskFromRaw(task, check).value.taskDefinition, check)
  {
    ParsedInclusionsClean(task, check);
    ParsedTasksClean(task, check);
    ParsedEnvClean(task, check);
    ParsedOptionalKeysClean(task, check);
    ParsedOutputsSorted(task, check);
  }

  /** Parsed outputs and dependency lists are sorted. */
  lemma ParsedOutputsSorted(task: RawTask, check: PathCheck)
    requires TaskFromRaw(task, check).Success?
    ensures var td := TaskFromRaw(task, check).value.taskDefinition;
            Sorted(td.outputs.inclusions) && Sorted(td.outputs.exclusions)
            && Sorted(td.topologicalDependencies) && Sorted(td.taskDependencies)
  {
  }

  /** A merge of definitions in parsed form is in parsed form: each field comes from one of them or from the start value. */
  lemma {:induction false} MergedIsNormalized(defs: seq<BookkeepingTaskDefinition>, check: PathCheck)
    requires forall i | 0 <= i < |defs| :: Normalized(defs[i].taskDefinition, check)
    ensures Normalized(Merged(defs), check)
  {
    if defs == [] {
      assert NormalEnv([]);
    } else {
      MergedIsNormalized(defs[..|defs| - 1], check);
    }
  }

  // ---------------------------------------------------------------------------
  // Where the round trip breaks

  /** A block whose `dependsOn` holds `$$X`. */
  const DoubleEnvPrefixTask := EmptyTask.(dependsOn := Some(["$$X"]))

  /** `dependsOn: ["$$X"]` parses, putting `$X` into `env`. */
  lemma DoubleEnvPrefixParses(check: PathCheck)
    ensures TaskFromRaw(DoubleEnvPrefixTask, check).Success?
    ensures TaskFromRaw(DoubleEnvPrefixTask, check).value.taskDefinition.env == ["$X"]
  {
    var deps := ["$$X"];
    assert deps[..0] == [];
    assert "$$X"[1..] == "$X";
    assert Stripped(deps, EnvPipelineDelimiter) == ["$X"];
    SortedSetUnique(["$X"], ["$X"] + []);
    assert ParsedPassThroughEnv(DoubleEnvPrefixTask) == Success(None);
    assert ParsedDotEnv(DoubleEnvPrefixTask, check) == Success(None);
  }

  /** A definition whose `env` holds `$X` is written with `$X` under `env`, which parsing rejects. */
  lemma WrittenEnvPrefixRejected(td: TaskDefinition, check: PathCheck)
    requires td.env == ["$X"]
    ensures TaskFromRaw(Reread(RawTaskOf(td)), check) == Failure(InvalidEnvPrefix("$X", "env"))
  {
    SortedUnique(Sort(["$X"]), ["$X"]);
    var reread := Reread(RawTaskOf(td));
    assert reread.env == Some(["$X"]);
    assert EnvPrefixed(reread.env.value[0]);
  }

  /**
   * `dependsOn: ["$$X"]` parses, putting `$X` into `env`; the serialized block
   * then carries `$X` under `env`, which parsing rejects.
   */
  lemma DoubleEnvPrefixBreaksRoundTrip(check: PathCheck)
    ensures TaskFromRaw(DoubleEnvPrefixTask, check).Success?
    ensures TaskFromRaw(Reread(RawTaskOf(TaskFromRaw(DoubleEnvPrefixTask, check).value.taskDefinition)), check)
              == Failure(InvalidEnvPrefix("$X", "env"))
  {
    DoubleEnvPrefixParses(check);
    WrittenEnvPrefixRejected(TaskFromRaw(DoubleEnvPrefixTask, check).value.taskDefinition, check);
  }
}

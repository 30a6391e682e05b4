/**
 * Task definitions and their bookkeeping (cli/internal/fs/turbo_json.go):
 * `TaskDefinition`, `TaskOutputs`, `BookkeepingTaskDefinition` with its set of
 * defined fields, `hasField`, `hasExperimentalFields` and `GetTaskDefinition`.
 */
module TaskDefinitions {
  import opened Wrappers

  /**
   * The names recorded in `definedFields`. The source stores them as strings
   * ("Outputs", "Cache", ...); only these nine are ever added.
   */
  datatype Field = Outputs | Cache | DependsOn | Inputs | OutputMode | Persistent | Env | PassThroughEnv | DotEnv

  /** `util.TaskOutputMode` is an integer enumeration; its zero value is 0. */
  type TaskOutputMode = nat

  /** Output globs: inclusions and (with their `!` removed) exclusions. */
  datatype TaskOutputs = TaskOutputs(inclusions: seq<string>, exclusions: seq<string>)

  /**
   * A task definition. `passThroughEnv` and `dotEnv` are `None` where the
   * source leaves the slice nil, which the serializer distinguishes from an
   * empty list; for the other lists nil and empty behave alike.
   */
  datatype TaskDefinition = TaskDefinition(
    outputs: TaskOutputs,
    cache: bool,
    topologicalDependencies: seq<string>,
    taskDependencies: seq<string>,
    inputs: seq<string>,
    outputMode: TaskOutputMode,
    persistent: bool,
    env: seq<string>,
    passThroughEnv: Option<seq<string>>,
    dotEnv: Option<seq<string>>)

  /** The Go zero value of a task definition (note: `cache` is false). */
  const ZeroTaskDefinition := TaskDefinition(TaskOutputs([], []), false, [], [], [], 0, false, [], None, None)

  /**
   * A task definition with the fields that were present in turbo.json.
   * The source's experimental-field struct has no fields, so it is not represented.
   */
  datatype BookkeepingTaskDefinition = BookkeepingTaskDefinition(
    definedFields: set<Field>,
    experimentalFields: set<Field>,
    taskDefinition: TaskDefinition)

  /** `hasField`: was the field present in the configuration, as stable or experimental? */
  predicate HasField(btd: BookkeepingTaskDefinition, f: Field): (r: bool)
    ensures f in btd.definedFields ==> r
    ensures btd.experimentalFields == {} ==> (r <==> f in btd.definedFields)
  {
    f in btd.definedFields || f in btd.experimentalFields
  }

  /** `hasExperimentalFields`: some field was present as experimental, and so counts as present. */
  predicate HasExperimentalFields(btd: BookkeepingTaskDefinition): (r: bool)
    ensures r <==> exists f :: f in btd.experimentalFields
    ensures r ==> exists f :: f in btd.experimentalFields && HasField(btd, f)
  {
    |btd.experimentalFields| > 0
  }

  /**
   * `GetTaskDefinition`: the stable fields and the (empty) experimental ones
   * merged into one definition, which is therefore the stored definition.
   */
  function GetTaskDefinition(btd: BookkeepingTaskDefinition): (r: TaskDefinition)
    ensures r == btd.taskDefinition
  {
    var td := btd.taskDefinition;
    TaskDefinition(td.outputs, td.cache, td.topologicalDependencies, td.taskDependencies, td.inputs,
                   td.outputMode, td.persistent, td.env, td.passThroughEnv, td.dotEnv)
  }

  /** The value a definition holds for one field; `DependsOn` covers both dependency lists. */
  datatype FieldValue =
    | OutputsValue(outputs: TaskOutputs)
    | FlagValue(flag: bool)
    | DependenciesValue(topological: seq<string>, tasks: seq<string>)
    | ListValue(list: seq<string>)
    | ModeValue(mode: TaskOutputMode)
    | OptionalListValue(optionalList: Option<seq<string>>)

  function FieldOf(td: TaskDefinition, f: Field): FieldValue {
    match f
    case Outputs => OutputsValue(td.outputs)
    case Cache => FlagValue(td.cache)
    case DependsOn => DependenciesValue(td.topologicalDependencies, td.taskDependencies)
    case Inputs => ListValue(td.inputs)
    case OutputMode => ModeValue(td.outputMode)
    case Persistent => FlagValue(td.persistent)
    case Env => ListValue(td.env)
    case PassThroughEnv => OptionalListValue(td.passThroughEnv)
    case DotEnv => OptionalListValue(td.dotEnv)
  }

  /** The nine fields cover a definition: two definitions that agree on each are equal. */
  lemma FieldsDetermine(a: TaskDefinition, b: TaskDefinition)
    requires forall f :: FieldOf(a, f) == FieldOf(b, f)
    ensures a == b
  {
    assert FieldOf(a, Outputs) == FieldOf(b, Outputs);
    assert FieldOf(a, Cache) == FieldOf(b, Cache);
    assert FieldOf(a, DependsOn) == FieldOf(b, DependsOn);
    assert FieldOf(a, Inputs) == FieldOf(b, Inputs);
    assert FieldOf(a, OutputMode) == FieldOf(b, OutputMode);
    assert FieldOf(a, Persistent) == FieldOf(b, Persistent);
    assert FieldOf(a, Env) == FieldOf(b, Env);
    assert FieldOf(a, PassThroughEnv) == FieldOf(b, PassThroughEnv);
    assert FieldOf(a, DotEnv) == FieldOf(b, DotEnv);
  }
}

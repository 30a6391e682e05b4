/**
 * `MergeTaskDefinitions` (cli/internal/fs/turbo_json.go): folding an ordered
 * chain of bookkept definitions, least specific first, into one definition,
 * where each definition overwrites only the fields it declared.
 */
module Merge {
  import opened Wrappers
  import opened TaskDefinitions

  /** The starting point: the Go zero value with `cache` set to true. */
  const Initial := ZeroTaskDefinition.(cache := true)

  /** One step of the merge: the fields `btd` declared replace those of `acc`. */
  function Overlay(acc: TaskDefinition, btd: BookkeepingTaskDefinition): TaskDefinition {
    var td := GetTaskDefinition(btd);
    TaskDefinition(
      outputs := if HasField(btd, Outputs) then td.outputs else acc.outputs,
      cache := if HasField(btd, Cache) then td.cache else acc.cache,
      topologicalDependencies := if HasField(btd, DependsOn) then td.topologicalDependencies else acc.topologicalDependencies,
      taskDependencies := if HasField(btd, DependsOn) then td.taskDependencies else acc.taskDependencies,
      inputs := if HasField(btd, Inputs) then td.inputs else acc.inputs,
      outputMode := if HasField(btd, OutputMode) then td.outputMode else acc.outputMode,
      persistent := if HasField(btd, Persistent) then td.persistent else acc.persistent,
      env := if HasField(btd, Env) then td.env else acc.env,
      passThroughEnv := if HasField(btd, PassThroughEnv) then td.passThroughEnv else acc.passThroughEnv,
      dotEnv := if HasField(btd, DotEnv) then td.dotEnv else acc.dotEnv)
  }

  /** Each field of an overlay comes from `btd` if it declared the field, and from `acc` otherwise. */
  lemma OverlayField(acc: TaskDefinition, btd: BookkeepingTaskDefinition, f: Field)
    ensures FieldOf(Overlay(acc, btd), f) == if HasField(btd, f) then FieldOf(btd.taskDefinition, f) else FieldOf(acc, f)
  {
    match f
    case Outputs =>
    case Cache =>
    case DependsOn =>
    case Inputs =>
    case OutputMode =>
    case Persistent =>
    case Env =>
    case PassThroughEnv =>
    case DotEnv =>
  }

  /** The merge of a chain, as a fold from the left. */
  function Merged(defs: seq<BookkeepingTaskDefinition>): TaskDefinition {
    if defs == [] then Initial
    else Overlay(Merged(defs[..|defs| - 1]), defs[|defs| - 1])
  }

  /** `MergeTaskDefinitions`: the loop over the chain; it never reports an error. */
  method MergeTaskDefinitions(taskDefinitions: seq<BookkeepingTaskDefinition>) returns (r: Result<TaskDefinition, string>)
    ensures r == Success(Merged(taskDefinitions))
  {
    var merged := ZeroTaskDefinition;
    merged := merged.(cache := true);
    var i := 0;
    while i < |taskDefinitions|
      invariant 0 <= i <= |taskDefinitions|
      invariant merged == Merged(taskDefinitions[..i])
    {
      merged := MergeInto(merged, taskDefinitions[i]);
      assert taskDefinitions[..i + 1][..i] == taskDefinitions[..i];
      i := i + 1;
    }
    assert taskDefinitions[..i] == taskDefinitions;
    return Success(merged);
  }

  /**
   * The body of the merge loop: overwrite each field of the accumulator that
   * `bookkeepingTaskDef` declared (the fields are held in locals here).
   */
  method MergeInto(acc: TaskDefinition, bookkeepingTaskDef: BookkeepingTaskDefinition) returns (merged: TaskDefinition)
    ensures merged == Overlay(acc, bookkeepingTaskDef)
  {
    var taskDef := GetTaskDefinition(bookkeepingTaskDef);
    var outputs, cache, topologicalDependencies, taskDependencies := acc.outputs, acc.cache, acc.topologicalDependencies, acc.taskDependencies;
    var inputs, outputMode, persistent, env := acc.inputs, acc.outputMode, acc.persistent, acc.env;
    var passThroughEnv, dotEnv := acc.passThroughEnv, acc.dotEnv;
    if HasField(bookkeepingTaskDef, Outputs) {
      outputs := taskDef.outputs;
    }
    if HasField(bookkeepingTaskDef, Cache) {
      cache := taskDef.cache;
    }
    if HasField(bookkeepingTaskDef, DependsOn) {
      topologicalDependencies := taskDef.topologicalDependencies;
    }
    if HasField(bookkeepingTaskDef, DependsOn) {
      taskDependencies := taskDef.taskDependencies;
    }
    if HasField(bookkeepingTaskDef, Inputs) {
      inputs := taskDef.inputs;
    }
    if HasField(bookkeepingTaskDef, OutputMode) {
      outputMode := taskDef.outputMode;
    }
    if HasField(bookkeepingTaskDef, Persistent) {
      persistent := taskDef.persistent;
    }
    if HasField(bookkeepingTaskDef, Env) {
      env := taskDef.env;
    }
    if HasField(bookkeepingTaskDef, PassThroughEnv) {
      passThroughEnv := taskDef.passThroughEnv;
    }
    if HasField(bookkeepingTaskDef, DotEnv) {
      dotEnv := taskDef.dotEnv;
    }
    merged := TaskDefinition(outputs, cache, topologicalDependencies, taskDependencies, inputs,
                             outputMode, persistent, env, passThroughEnv, dotEnv);
  }

  /** The index of the last definition in the chain that declares `f`, if any. */
  function LastWriter(defs: seq<BookkeepingTaskDefinition>, f: Field): (r: Option<nat>)
    ensures r.Some? ==> r.value < |defs| && HasField(defs[r.value], f)
    ensures r.Some? ==> forall j | r.value < j < |defs| :: !HasField(defs[j], f)
    ensures r.None? <==> forall j | 0 <= j < |defs| :: !HasField(defs[j], f)
  {
    if defs == [] then None
    else if HasField(defs[|defs| - 1], f) then Some(|defs| - 1)
    else LastWriter(defs[..|defs| - 1], f)
  }

  /**
   * Field-scoped last writer wins: every field of the merge is the value of
   * the last definition that declared it, or the initial value if none did.
   */
  lemma {:induction false} MergedFieldIsLastWriter(defs: seq<BookkeepingTaskDefinition>, f: Field)
    ensures FieldOf(Merged(defs), f) == match LastWriter(defs, f)
                                        case None => FieldOf(Initial, f)
                                        case Some(i) => FieldOf(defs[i].taskDefinition, f)
  {
    if defs != [] {
      var init := defs[..|defs| - 1];
      MergedFieldIsLastWriter(init, f);
      OverlayField(Merged(init), defs[|defs| - 1], f);
      if !HasField(defs[|defs| - 1], f) {
        assert LastWriter(defs, f) == LastWriter(init, f);
        match LastWriter(init, f)
        case None =>
        case Some(i) => assert defs[i] == init[i];
      }
    }
  }

  /** The merge of an empty chain is the zero definition with `cache` true. */
  lemma MergeEmpty()
    ensures Merged([]) == ZeroTaskDefinition.(cache := true)
    ensures Merged([]).cache && !Merged([]).persistent && Merged([]).passThroughEnv.None?
  {
  }

  /** A definition that does not declare `f` leaves the accumulated value of `f` alone. */
  lemma UndeclaredFieldUntouched(defs: seq<BookkeepingTaskDefinition>, d: BookkeepingTaskDefinition, f: Field)
    requires !HasField(d, f)
    ensures FieldOf(Merged(defs + [d]), f) == FieldOf(Merged(defs), f)
  {
    assert (defs + [d])[..|defs|] == defs;
    OverlayField(Merged(defs), d, f);
  }

  /** A definition that declares `f` overrides it, even with a zero or empty value. */
  lemma DeclaredFieldWins(defs: seq<BookkeepingTaskDefinition>, d: BookkeepingTaskDefinition, f: Field)
    requires HasField(d, f)
    ensures FieldOf(Merged(defs + [d]), f) == FieldOf(d.taskDefinition, f)
  {
    assert (defs + [d])[..|defs|] == defs;
    OverlayField(Merged(defs), d, f);
  }

  /** Both dependency lists come from the same definition: they are replaced as a pair. */
  lemma DependenciesReplacedTogether(defs: seq<BookkeepingTaskDefinition>)
    requires LastWriter(defs, DependsOn).Some?
    ensures var td := defs[LastWriter(defs, DependsOn).value].taskDefinition;
            Merged(defs).topologicalDependencies == td.topologicalDependencies
            && Merged(defs).taskDependencies == td.taskDependencies
  {
    MergedFieldIsLastWriter(defs, DependsOn);
  }

  /** A chain whose definitions declare no fields merges to the initial definition. */
  lemma MergeOfUndeclared(defs: seq<BookkeepingTaskDefinition>)
    requires forall i | 0 <= i < |defs| :: defs[i].definedFields == {} && defs[i].experimentalFields == {}
    ensures Merged(defs) == Initial
  {
    forall f ensures FieldOf(Merged(defs), f) == FieldOf(Initial, f) {
      MergedFieldIsLastWriter(defs, f);
    }
    FieldsDetermine(Merged(defs), Initial);
  }

  /**
   * `[A(outputs: ["dist"]), B(cache: false)]` merges to outputs `["dist"]`
   * and cache false; `[A(cache: false), B()]` keeps cache false.
   */
  lemma MergeExamples(a: TaskDefinition, b: TaskDefinition)
    requires a.outputs == TaskOutputs(["dist"], []) && !b.cache
    ensures var m := Merged([BookkeepingTaskDefinition({Outputs}, {}, a), BookkeepingTaskDefinition({Cache}, {}, b)]);
            m.outputs == TaskOutputs(["dist"], []) && !m.cache
    ensures !Merged([BookkeepingTaskDefinition({Cache}, {}, b), BookkeepingTaskDefinition({}, {}, a)]).cache
  {
    var da := BookkeepingTaskDefinition({Outputs}, {}, a);
    var db := BookkeepingTaskDefinition({Cache}, {}, b);
    assert [da, db][..1] == [da];
    assert [db, BookkeepingTaskDefinition({}, {}, a)][..1] == [db];
  }
}

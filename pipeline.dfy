/**
 * The pipeline of one turbo.json (cli/internal/fs/turbo_json.go): a map from
 * task identifier (`build` or `pkg#build`) to a bookkept task definition, with
 * lookup that falls back from the package task to the bare task name.
 */
module Pipelines {
  import opened Wrappers
  import opened TaskIds
  import opened TaskDefinitions

  type Pipeline = map<string, BookkeepingTaskDefinition>

  /** `Could not find task "<taskId>" in pipeline`. */
  datatype LookupError = TaskNotFound(taskId: string)

  /**
   * `Pipeline.GetTask`: the entry for `taskId` if there is one, otherwise the
   * entry for `taskName`; an error naming `taskId` only when neither exists.
   */
  function GetTask(p: Pipeline, taskId: string, taskName: string): (r: Result<BookkeepingTaskDefinition, LookupError>)
    ensures r.Success? <==> taskId in p || taskName in p
    ensures taskId in p ==> r.value == p[taskId]
    ensures taskId !in p && taskName in p ==> r.value == p[taskName]
    ensures r.Failure? ==> r.error == TaskNotFound(taskId)
  {
    if taskId in p then Success(p[taskId])
    else if taskName in p then Success(p[taskName])
    else Failure(TaskNotFound(taskId))
  }

  /**
   * `Pipeline.GetTaskDefinition`: the definition for `taskId`, else for its
   * task half; the flag says whether either was found, and when neither was
   * the definition is the Go zero value (with `cache` false).
   */
  function GetTaskDefinition(p: Pipeline, taskId: string, ids: Naming): (r: (TaskDefinition, bool))
    ensures r.1 <==> taskId in p || ids.taskOfId(taskId) in p
    ensures taskId in p ==> r.0 == p[taskId].taskDefinition
    ensures taskId !in p && ids.taskOfId(taskId) in p ==> r.0 == p[ids.taskOfId(taskId)].taskDefinition
    ensures !r.1 ==> r.0 == ZeroTaskDefinition
  {
    if taskId in p then (TaskDefinitions.GetTaskDefinition(p[taskId]), true)
    else
      var task := ids.taskOfId(taskId);
      var entry := if task in p then p[task] else BookkeepingTaskDefinition({}, {}, ZeroTaskDefinition);
      (TaskDefinitions.GetTaskDefinition(entry), task in p)
  }

  /** A key names `task` itself or is a package task whose task half is `task`. */
  predicate KeyNamesTask(key: string, task: string, ids: Naming) {
    key == task || (ids.isPackageTask(key) && ids.taskOfId(key) == task)
  }

  /** Some key of the pipeline names `task`. */
  ghost predicate Declares(p: Pipeline, task: string, ids: Naming) {
    exists key :: key in p && KeyNamesTask(key, task, ids)
  }

  /** A pipeline with more keys declares at least the same tasks. */
  lemma DeclaresMonotonic(p: Pipeline, q: Pipeline, task: string, ids: Naming)
    requires p.Keys <= q.Keys && Declares(p, task, ids)
    ensures Declares(q, task, ids)
  {
    var key :| key in p && KeyNamesTask(key, task, ids);
    assert key in q;
  }

  /** `Pipeline.HasTask`: a search over the keys that stops at the first one naming `task`. */
  method HasTask(p: Pipeline, task: string, ids: Naming) returns (found: bool)
    ensures found == Declares(p, task, ids)
  {
    var keys := p.Keys;
    while keys != {}
      invariant keys <= p.Keys
      invariant forall key | key in p.Keys - keys :: !KeyNamesTask(key, task, ids)
      decreases keys
    {
      var key :| key in keys;
      if key == task {
        return true;
      }
      if ids.isPackageTask(key) {
        if ids.taskOfId(key) == task {
          return true;
        }
      }
      keys := keys - {key};
    }
    return false;
  }

  /**
   * Whatever `GetTask` resolves for a package task through its task half is
   * declared under that task name.
   */
  lemma ResolvedTaskIsDeclared(p: Pipeline, taskId: string, ids: Naming)
    requires ids.isPackageTask(taskId)
    requires GetTask(p, taskId, ids.taskOfId(taskId)).Success?
    ensures Declares(p, ids.taskOfId(taskId), ids)
  {
    if taskId in p {
      assert KeyNamesTask(taskId, ids.taskOfId(taskId), ids);
    } else {
      assert KeyNamesTask(ids.taskOfId(taskId), ids.taskOfId(taskId), ids);
    }
  }

  /** The two lookups agree: `GetTaskDefinition` is `GetTask` on the task half. */
  lemma GetTaskDefinitionAgreesWithGetTask(p: Pipeline, taskId: string, ids: Naming)
    ensures var r := GetTask(p, taskId, ids.taskOfId(taskId));
            GetTaskDefinition(p, taskId, ids)
            == if r.Success? then (r.value.taskDefinition, true) else (ZeroTaskDefinition, false)
  {
  }

  /**
   * A bare entry serves every package that does not override it, and an
   * override takes precedence over it.
   */
  lemma FallbackAndOverride(p: Pipeline, taskId: string, taskName: string)
    requires taskName in p
    ensures taskId !in p ==> GetTask(p, taskId, taskName) == GetTask(p, taskName, taskName)
    ensures taskId in p ==> GetTask(p, taskId, taskName) == Success(p[taskId])
  {
  }

  /**
   * `Pipeline.Pristine`: every task's definition, taken whole when it has
   * experimental fields and as its stable part otherwise (the same value, since
   * there are no experimental fields).
   */
  method Pristine(p: Pipeline) returns (pristine: map<string, TaskDefinition>)
    ensures pristine.Keys == p.Keys
    ensures forall taskName | taskName in p :: pristine[taskName] == p[taskName].taskDefinition
  {
    pristine := map[];
    var keys := p.Keys;
    while keys != {}
      invariant keys <= p.Keys
      invariant pristine.Keys == p.Keys - keys
      invariant forall taskName | taskName in pristine :: pristine[taskName] == p[taskName].taskDefinition
      decreases keys
    {
      var taskName :| taskName in keys;
      var taskDef := p[taskName];
      if HasExperimentalFields(taskDef) {
        pristine := pristine[taskName := TaskDefinitions.GetTaskDefinition(taskDef)];
      } else {
        pristine := pristine[taskName := taskDef.taskDefinition];
      }
      keys := keys - {taskName};
    }
  }
}

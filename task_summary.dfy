/**
 * Per-task run summaries (cli/internal/runsummary/task_summary.go): the cache
 * status of a task derived from the cache's item status, and the rewriting of
 * a summary for a single-package repository, where package names are dropped.
 */
module RunSummary {
  import opened Wrappers
  import opened TaskIds
  import opened TaskDefinitions

  // The cache package's event and source names. That package is not part of
  // this model; only the fact that the names differ matters below.
  const CacheEventHit := "HIT"
  const CacheEventMiss := "MISS"
  const CacheSourceFS := "LOCAL"
  const CacheSourceRemote := "REMOTE"

  /** `cache.ItemStatus`: whether the cache hit, where from, and the time it saved. */
  datatype ItemStatus = ItemStatus(hit: bool, source: string, timeSaved: int)

  /** `TaskCacheSummary`; `local` and `remote` are deprecated flags kept for dry-run output. */
  datatype TaskCacheSummary = TaskCacheSummary(local: bool, remote: bool, status: string, source: string, timeSaved: int)

  /**
   * `NewTaskCacheSummary`: the status is a hit exactly on a cache hit and a
   * miss otherwise; the source is reported only on a hit; the deprecated flags
   * say a hit came from the local or the remote cache.
   */
  function NewTaskCacheSummary(itemStatus: ItemStatus): (cs: TaskCacheSummary)
    ensures cs.status == CacheEventHit <==> itemStatus.hit
    ensures cs.status == CacheEventMiss <==> !itemStatus.hit
    ensures itemStatus.hit ==> cs.source == itemStatus.source
    ensures !itemStatus.hit ==> cs.source == ""
    ensures cs.timeSaved == itemStatus.timeSaved
    ensures cs.local <==> itemStatus.hit && itemStatus.source == CacheSourceFS
    ensures cs.remote <==> itemStatus.hit && itemStatus.source == CacheSourceRemote
  {
    var status := if itemStatus.hit then CacheEventHit else CacheEventMiss;
    var source := if itemStatus.hit then itemStatus.source else "";
    var cs := TaskCacheSummary(false, false, status, source, itemStatus.timeSaved);
    cs.(local := itemStatus.hit && itemStatus.source == CacheSourceFS,
        remote := itemStatus.hit && itemStatus.source == CacheSourceRemote)
  }

  /**
   * The deprecated flags agree with the status and source: never both set,
   * both clear on a miss, and each names the reported source.
   */
  lemma DeprecatedFlagsConsistent(itemStatus: ItemStatus)
    ensures var cs := NewTaskCacheSummary(itemStatus);
            && !(cs.local && cs.remote)
            && (cs.status == CacheEventMiss ==> !cs.local && !cs.remote && cs.source == "")
            && (cs.local ==> cs.status == CacheEventHit && cs.source == CacheSourceFS)
            && (cs.remote ==> cs.status == CacheEventHit && cs.source == CacheSourceRemote)
  {
  }

  /** A hit from a source other than the two caches sets neither flag. */
  lemma OtherSourceSetsNoFlag(itemStatus: ItemStatus)
    requires itemStatus.hit && itemStatus.source != CacheSourceFS && itemStatus.source != CacheSourceRemote
    ensures var cs := NewTaskCacheSummary(itemStatus);
            !cs.local && !cs.remote && cs.status == CacheEventHit && cs.source == itemStatus.source
  {
  }

  /** `TaskEnvConfiguration`. */
  datatype TaskEnvConfiguration = TaskEnvConfiguration(env: seq<string>, passThroughEnv: seq<string>)

  /** `TaskEnvVarSummary`. */
  datatype TaskEnvVarSummary = TaskEnvVarSummary(
    specified: TaskEnvConfiguration,
    configured: seq<string>,
    inferred: seq<string>,
    passThrough: seq<string>)

  /** Every name with its package part removed, position by position. */
  function StripNames(names: seq<string>, ids: Naming): (r: seq<string>)
    ensures |r| == |names|
    ensures forall i | 0 <= i < |names| :: r[i] == ids.stripPackageName(names[i])
  {
    seq(|names|, i requires 0 <= i < |names| => ids.stripPackageName(names[i]))
  }

  /** Stripping twice strips once when `util.StripPackageName` is idempotent. */
  lemma StripNamesIdempotent(names: seq<string>, ids: Naming)
    requires forall x :: ids.stripPackageName(ids.stripPackageName(x)) == ids.stripPackageName(x)
    ensures StripNames(StripNames(names, ids), ids) == StripNames(names, ids)
  {
  }

  /** The loop that fills a new list of the same length with stripped names. */
  method StripAll(names: seq<string>, ids: Naming) returns (r: seq<string>)
    ensures r == StripNames(names, ids)
  {
    var stripped := new string[|names|];
    for i := 0 to |names|
      invariant forall j | 0 <= j < i :: stripped[j] == ids.stripPackageName(names[j])
    {
      stripped[i] := ids.stripPackageName(names[i]);
    }
    r := stripped[..];
  }

  /**
   * `TaskSummary`: what is recorded about one task of a run. The execution
   * summary is not part of this model.
   */
  class TaskSummary {
    var taskId: string
    var task: string
    var package: string
    var hash: string
    var expandedInputs: map<string, string>
    var externalDepsHash: string
    var cacheSummary: TaskCacheSummary
    var command: string
    var commandArguments: seq<string>
    var outputs: seq<string>
    var excludedOutputs: seq<string>
    var logFile: string
    var dir: string
    var dependencies: seq<string>
    var dependents: seq<string>
    var resolvedTaskDefinition: Option<TaskDefinition>
    var expandedOutputs: seq<string>
    var framework: string
    var envMode: string
    var envVars: TaskEnvVarSummary
    var dotEnv: Option<seq<string>>

    /**
     * `cleanForSinglePackage`: the task id and task become the stripped task
     * id, dependencies and dependents are stripped element by element, and the
     * directory and package are cleared; no other field changes.
     */
    method CleanForSinglePackage(ids: Naming)
      modifies this`taskId, this`task, this`dependencies, this`dependents, this`dir, this`package
      ensures taskId == ids.stripPackageName(old(taskId)) && task == taskId
      ensures |dependencies| == |old(dependencies)|
      ensures forall i | 0 <= i < |dependencies| :: dependencies[i] == ids.stripPackageName(old(dependencies)[i])
      ensures |dependents| == |old(dependents)|
      ensures forall i | 0 <= i < |dependents| :: dependents[i] == ids.stripPackageName(old(dependents)[i])
      ensures dir == "" && package == ""
    {
      var strippedDependencies := StripAll(dependencies, ids);
      var strippedDependents := StripAll(dependents, ids);
      var stripped := ids.stripPackageName(taskId);

      taskId := stripped;
      task := stripped;
      dependencies := strippedDependencies;
      dependents := strippedDependents;
      dir := "";
      package := "";
    }
  }
}

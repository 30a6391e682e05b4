/**
 * `LoadTurboConfig` (cli/internal/fs/turbo_json.go): choosing between the
 * turbo.json that was read and a configuration synthesized for a
 * single-package repository, whose pipeline gets a root task for every
 * package.json script that no task already declares.
 */
module LoadConfig {
  import opened Wrappers
  import opened TaskIds
  import opened TaskDefinitions
  import opened Pipelines
  import opened TurboJson

  /** The outcome of reading turbo.json: the parsed file, no file, or another error. */
  datatype ReadResult = Found(config: TurboJSON) | NotExist | ReadFailed(message: string)

  datatype LoadError =
    /** No turbo.json and nothing to synthesize: "Could not find turbo.json. Follow directions at ...". */
    | ConfigNotFound
    /** Any other read or parse error, passed on as it is. */
    | ReadError(message: string)
    /** A `<package>#<task>` key in a single-package repository. */
    | PackageTaskInSingleWorkspace(taskId: string)

  /** The root package.json: its scripts and the legacy `turbo` key. */
  class PackageJSON {
    var scripts: map<string, string>
    var legacyTurboConfig: Option<TurboJSON>

    constructor (scripts: map<string, string>, legacyTurboConfig: Option<TurboJSON>)
      ensures this.scripts == scripts && this.legacyTurboConfig == legacyTurboConfig
    {
      this.scripts := scripts;
      this.legacyTurboConfig := legacyTurboConfig;
    }
  }

  /**
   * The entry added for a script without a task: only `cache` is defined, and
   * it is false, as though it had been written in a configuration file.
   */
  const ScriptTask := BookkeepingTaskDefinition({Cache}, {}, ZeroTaskDefinition)

  /** The configuration synthesized when there is no turbo.json: no global environment and no tasks. */
  const EmptyTurboJSON := TurboJSON([], [], None, None, map[], RemoteCacheOptions("", false), [], "")

  /**
   * The pipeline of turbo.json re-keyed by root task id. A package-task key is
   * an error naming that key; when two keys share a root id, one of them wins.
   */
  method RootPipeline(p: Pipeline, ids: Naming) returns (r: Result<Pipeline, LoadError>)
    ensures r.Failure? <==> exists taskId | taskId in p :: ids.isPackageTask(taskId)
    ensures r.Failure? ==> && r.error.PackageTaskInSingleWorkspace?
                           && r.error.taskId in p && ids.isPackageTask(r.error.taskId)
    ensures r.Success? ==> r.value.Keys == set taskId | taskId in p :: ids.rootTaskId(taskId)
    ensures r.Success? ==> forall id | id in r.value :: exists taskId | taskId in p :: ids.rootTaskId(taskId) == id && r.value[id] == p[taskId]
    ensures r.Success? ==> forall taskId | taskId in p && (forall other | other in p && ids.rootTaskId(other) == ids.rootTaskId(taskId) :: other == taskId) ::
                             r.value[ids.rootTaskId(taskId)] == p[taskId]
  {
    var pipeline: Pipeline := map[];
    var keys := p.Keys;
    while keys != {}
      invariant keys <= p.Keys
      invariant forall taskId | taskId in p.Keys - keys :: !ids.isPackageTask(taskId)
      invariant pipeline.Keys == set taskId | taskId in p.Keys - keys :: ids.rootTaskId(taskId)
      invariant forall id | id in pipeline :: exists taskId | taskId in p.Keys - keys :: ids.rootTaskId(taskId) == id && pipeline[id] == p[taskId]
      decreases keys
    {
      var taskId :| taskId in keys;
      if ids.isPackageTask(taskId) {
        return Failure(PackageTaskInSingleWorkspace(taskId));
      }
      pipeline := pipeline[ids.rootTaskId(taskId) := p[taskId]];
      keys := keys - {taskId};
    }
    return Success(pipeline);
  }

  /**
   * The loop over the scripts: a script that the pipeline does not yet
   * declare gets `ScriptTask` under its root task id. Every script is then
   * declared, one that was undeclared by a `ScriptTask` entry, and (when every
   * root id names its script) the existing entries are untouched.
   */
  method AddScriptTasks(p: Pipeline, scripts: set<string>, ids: Naming) returns (q: Pipeline)
    ensures p.Keys <= q.Keys
    ensures forall k | k in q :: || (k in p && q[k] == p[k])
                                 || (q[k] == ScriptTask && exists s | s in scripts :: ids.rootTaskId(s) == k && !Declares(p, s, ids))
    ensures forall s | s in scripts && RootIdNamesTask(ids, s) :: Declares(q, s, ids)
    ensures (forall s | s in scripts :: RootIdNamesTask(ids, s)) ==> forall k | k in p :: q[k] == p[k]
    ensures forall s | s in scripts && RootIdNamesTask(ids, s) && !Declares(p, s, ids) ::
              exists k | k in q :: KeyNamesTask(k, s, ids) && q[k] == ScriptTask
  {
    q := p;
    var names := scripts;
    while names != {}
      invariant names <= scripts
      invariant p.Keys <= q.Keys
      invariant forall k | k in q :: || (k in p && q[k] == p[k])
                                     || (q[k] == ScriptTask && exists s | s in scripts :: ids.rootTaskId(s) == k && !Declares(p, s, ids))
      invariant forall s | s in scripts - names && RootIdNamesTask(ids, s) :: Declares(q, s, ids)
      invariant (forall s | s in scripts :: RootIdNamesTask(ids, s)) ==> forall k | k in p :: q[k] == p[k]
      decreases names
    {
      var scriptName :| scriptName in names;
      var has := HasTask(q, scriptName, ids);
      if !has {
        var taskName := ids.rootTaskId(scriptName);
        if Declares(p, scriptName, ids) {
          DeclaresMonotonic(p, q, scriptName, ids);
        }
        ghost var before := q;
        q := q[taskName := ScriptTask];
        forall s | s in scripts - (names - {scriptName}) && RootIdNamesTask(ids, s) ensures Declares(q, s, ids) {
          if s == scriptName {
            assert KeyNamesTask(taskName, s, ids);
          } else {
            DeclaresMonotonic(before, q, s, ids);
          }
        }
      }
      names := names - {scriptName};
    }
    forall s | s in scripts && RootIdNamesTask(ids, s) && !Declares(p, s, ids)
      ensures exists k | k in q :: KeyNamesTask(k, s, ids) && q[k] == ScriptTask
    {
      var k :| k in q && KeyNamesTask(k, s, ids);
      assert k !in p;
    }
  }

  /** Some key of the file's pipeline has a root id that names `task`. */
  ghost predicate FileDeclares(file: Pipeline, task: string, ids: Naming) {
    exists taskId | taskId in file :: KeyNamesTask(ids.rootTaskId(taskId), task, ids)
  }

  /**
   * No script's root id names a different script (true of `//#<task>` when no
   * script is itself called `//#<task>`).
   */
  predicate RootIdsSeparate(ids: Naming, scripts: set<string>) {
    forall s, t | s in scripts && t in scripts && KeyNamesTask(ids.rootTaskId(t), s, ids) :: t == s
  }

  /** A task the file declares is declared by the pipeline re-keyed by root id. */
  lemma RekeyedDeclares(file: Pipeline, p: Pipeline, task: string, ids: Naming)
    requires p.Keys == set taskId | taskId in file :: ids.rootTaskId(taskId)
    requires FileDeclares(file, task, ids)
    ensures Declares(p, task, ids)
  {
    var taskId :| taskId in file && KeyNamesTask(ids.rootTaskId(taskId), task, ids);
    assert ids.rootTaskId(taskId) in p;
  }

  /**
   * Without turbo.json the scripts' entries are the whole pipeline: it holds
   * the root id of each script exactly, when those ids name their scripts.
   */
  lemma SynthesizedFromScripts(q: Pipeline, scripts: set<string>, ids: Naming)
    requires forall k | k in q :: q[k] == ScriptTask && exists s | s in scripts :: ids.rootTaskId(s) == k
    requires forall s | s in scripts && RootIdNamesTask(ids, s) :: Declares(q, s, ids)
    ensures (forall s | s in scripts :: RootIdNamesTask(ids, s)) && RootIdsSeparate(ids, scripts) ==>
              q.Keys == set s | s in scripts :: ids.rootTaskId(s)
  {
    if (forall s | s in scripts :: RootIdNamesTask(ids, s)) && RootIdsSeparate(ids, scripts) {
      forall s | s in scripts ensures ids.rootTaskId(s) in q {
        var k :| k in q && KeyNamesTask(k, s, ids);
        var t :| t in scripts && ids.rootTaskId(t) == k;
      }
    }
  }

  /**
   * `LoadTurboConfig`, with the reading of turbo.json given as its result.
   * The legacy `turbo` key of package.json is always dropped. Without
   * synthesis the file's configuration is returned as read, or the read error;
   * with synthesis a missing file starts from an empty configuration, the
   * file's pipeline must hold no package tasks and is re-keyed by root task
   * id, and the scripts are added.
   */
  method LoadTurboConfig(read: ReadResult, rootPackageJSON: PackageJSON, includeSynthesizedFromRootPackageJSON: bool, ids: Naming)
    returns (r: Result<TurboJSON, LoadError>)
    modifies rootPackageJSON`legacyTurboConfig
    ensures rootPackageJSON.legacyTurboConfig.None?
    ensures !includeSynthesizedFromRootPackageJSON ==> r == match read
                                                             case Found(config) => Success(config)
                                                             case NotExist => Failure(ConfigNotFound)
                                                             case ReadFailed(message) => Failure(ReadError(message))
    ensures includeSynthesizedFromRootPackageJSON && read.ReadFailed? ==> r == Failure(ReadError(read.message))
    ensures includeSynthesizedFromRootPackageJSON && read.Found? ==>
              (r.Failure? <==> exists taskId | taskId in read.config.pipeline :: ids.isPackageTask(taskId))
    ensures r.Failure? && r.error.PackageTaskInSingleWorkspace? ==>
              read.Found? && r.error.taskId in read.config.pipeline && ids.isPackageTask(r.error.taskId)
    ensures includeSynthesizedFromRootPackageJSON && read.NotExist? ==>
              r.Success? && r.value == EmptyTurboJSON.(pipeline := r.value.pipeline)
              && forall k | k in r.value.pipeline :: r.value.pipeline[k] == ScriptTask
    ensures includeSynthesizedFromRootPackageJSON && read.Found? && r.Success? ==>
              r.value == read.config.(pipeline := r.value.pipeline)
    ensures includeSynthesizedFromRootPackageJSON && r.Success? ==>
              forall s | s in rootPackageJSON.scripts && RootIdNamesTask(ids, s) :: Declares(r.value.pipeline, s, ids)
    ensures includeSynthesizedFromRootPackageJSON && r.Success? ==>
              forall k | k in r.value.pipeline ::
                || (read.Found? && exists taskId | taskId in read.config.pipeline ::
                                     ids.rootTaskId(taskId) == k && r.value.pipeline[k] == read.config.pipeline[taskId])
                || (r.value.pipeline[k] == ScriptTask && exists s | s in rootPackageJSON.scripts ::
                                     ids.rootTaskId(s) == k && !(read.Found? && FileDeclares(read.config.pipeline, s, ids)))
    ensures includeSynthesizedFromRootPackageJSON && read.Found? && r.Success? &&
            (forall s | s in rootPackageJSON.scripts :: RootIdNamesTask(ids, s)) ==>
              forall taskId | taskId in read.config.pipeline &&
                              (forall other | other in read.config.pipeline && ids.rootTaskId(other) == ids.rootTaskId(taskId) :: other == taskId) ::
                ids.rootTaskId(taskId) in r.value.pipeline && r.value.pipeline[ids.rootTaskId(taskId)] == read.config.pipeline[taskId]
    ensures includeSynthesizedFromRootPackageJSON && read.NotExist? &&
            (forall s | s in rootPackageJSON.scripts :: RootIdNamesTask(ids, s)) && RootIdsSeparate(ids, rootPackageJSON.scripts.Keys) ==>
              r.value.pipeline.Keys == set s | s in rootPackageJSON.scripts :: ids.rootTaskId(s)
  {
    if rootPackageJSON.legacyTurboConfig.Some? {
      rootPackageJSON.legacyTurboConfig := None;
    }

    var turboJSON: TurboJSON;
    if !includeSynthesizedFromRootPackageJSON && !read.Found? {
      if read.NotExist? {
        return Failure(ConfigNotFound);
      }
      return Failure(ReadError(read.message));
    } else if !includeSynthesizedFromRootPackageJSON {
      return Success(read.config);
    } else if read.NotExist? {
      turboJSON := EmptyTurboJSON;
    } else if read.ReadFailed? {
      return Failure(ReadError(read.message));
    } else {
      var pipeline := RootPipeline(read.config.pipeline, ids);
      if pipeline.Failure? {
        return Failure(pipeline.error);
      }
      forall s | FileDeclares(read.config.pipeline, s, ids) ensures Declares(pipeline.value, s, ids) {
        RekeyedDeclares(read.config.pipeline, pipeline.value, s, ids);
      }
      turboJSON := read.config.(pipeline := pipeline.value);
    }

    var pipeline := AddScriptTasks(turboJSON.pipeline, rootPackageJSON.scripts.Keys, ids);
    if read.NotExist? {
      SynthesizedFromScripts(pipeline, rootPackageJSON.scripts.Keys, ids);
    }
    return Success(turboJSON.(pipeline := pipeline));
  }
}

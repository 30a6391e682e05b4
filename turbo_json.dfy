/**
 * The whole turbo.json document (cli/internal/fs/turbo_json.go):
 * `TurboJSON.UnmarshalJSON` with its global keys, `TurboJSON.MarshalJSON`
 * to the pristine form, and `TurboJSON.Validate`.
 */
module TurboJson {
  import opened Wrappers
  import opened Strings
  import opened TaskDefinitions
  import opened Pipelines
  import opened TaskParse

  /** `RemoteCacheOptions`, copied through unchanged. */
  datatype RemoteCacheOptions = RemoteCacheOptions(teamId: string, signature: bool)

  /** `SpaceConfig`: the `experimentalSpaces` object. */
  datatype SpaceConfig = SpaceConfig(id: string)

  /**
   * `rawTurboJSON` as decoded. The pipeline is the list of its entries in
   * document order, each block still raw; a missing and an empty global list
   * behave alike except for `globalPassThroughEnv` and `globalDotEnv`.
   */
  datatype RawTurboJSON = RawTurboJSON(
    globalDependencies: seq<string>,
    globalEnv: seq<string>,
    globalPassThroughEnv: Option<seq<string>>,
    globalDotEnv: Option<seq<string>>,
    pipeline: seq<(string, RawTask)>,
    remoteCacheOptions: RemoteCacheOptions,
    extendsList: seq<string>,
    space: Option<SpaceConfig>)

  /** `TurboJSON`: the parsed configuration. */
  datatype TurboJSON = TurboJSON(
    globalDeps: seq<string>,
    globalEnv: seq<string>,
    globalPassThroughEnv: Option<seq<string>>,
    globalDotEnv: Option<seq<string>>,
    pipeline: Pipeline,
    remoteCacheOptions: RemoteCacheOptions,
    extendsList: seq<string>,
    spaceId: string)

  // ---------------------------------------------------------------------------
  // Decoding the pipeline object

  /** How one pipeline block is parsed. */
  type BlockParser = RawTask -> Result<BookkeepingTaskDefinition, ParseError>

  /** The block parser of `BookkeepingTaskDefinition.UnmarshalJSON`. */
  function TaskBlock(check: PathCheck): BlockParser {
    task => TaskFromRaw(task, check)
  }

  /**
   * Decoding the pipeline entries in document order: the first block that
   * fails to parse aborts decoding; a repeated key keeps the later block.
   */
  function DecodedPipeline(entries: seq<(string, RawTask)>, parse: BlockParser): Result<Pipeline, ParseError> {
    if entries == [] then Success(map[])
    else
      var init := DecodedPipeline(entries[..|entries| - 1], parse);
      var entry := entries[|entries| - 1];
      if init.Failure? then init
      else
        var block := parse(entry.1);
        if block.Failure? then Failure(block.error)
        else Success(init.value[entry.0 := block.value])
  }

  /** One pipeline block, parsed by `BookkeepingTaskDefinition.UnmarshalJSON`. */
  method UnmarshalBlock(task: RawTask, check: PathCheck) returns (r: Result<BookkeepingTaskDefinition, ParseError>)
    ensures r == TaskBlock(check)(task)
  {
    r := UnmarshalTask(task, check);
  }

  /** Decoding one more entry. */
  lemma DecodedPipelineStep(entries: seq<(string, RawTask)>, i: nat, parse: BlockParser)
    requires i < |entries| && DecodedPipeline(entries[..i], parse).Success?
    ensures var block := parse(entries[i].1);
            DecodedPipeline(entries[..i + 1], parse)
            == if block.Failure? then Failure(block.error)
               else Success(DecodedPipeline(entries[..i], parse).value[entries[i].0 := block.value])
  {
    assert entries[..i + 1][..i] == entries[..i];
  }

  /** The pipeline decoding loop, one block at a time. */
  method DecodePipeline(entries: seq<(string, RawTask)>, check: PathCheck) returns (r: Result<Pipeline, ParseError>)
    ensures r == DecodedPipeline(entries, TaskBlock(check))
  {
    ghost var parse := TaskBlock(check);
    var pipeline: Pipeline := map[];
    for i := 0 to |entries|
      invariant DecodedPipeline(entries[..i], parse) == Success(pipeline)
    {
      var entry := entries[i];
      var btd := UnmarshalBlock(entry.1, check);
      DecodedPipelineStep(entries, i, parse);
      if btd.Failure? {
        DecodedPipelinePrefixFailure(entries, i + 1, parse);
        return Failure(btd.error);
      }
      pipeline := pipeline[entry.0 := btd.value];
    }
    assert entries[..|entries|] == entries;
    return Success(pipeline);
  }

  /** Once a prefix fails, the whole decoding fails with the same error. */
  lemma {:induction false} DecodedPipelinePrefixFailure(entries: seq<(string, RawTask)>, i: nat, parse: BlockParser)
    requires i <= |entries| && DecodedPipeline(entries[..i], parse).Failure?
    ensures DecodedPipeline(entries, parse) == DecodedPipeline(entries[..i], parse)
    decreases |entries| - i
  {
    if i == |entries| {
      assert entries[..i] == entries;
    } else {
      assert entries[..i + 1][..i] == entries[..i];
      DecodedPipelinePrefixFailure(entries, i + 1, parse);
    }
  }

  /** Decoding fails exactly when some block fails, and then with the error of the first such block. */
  lemma {:induction false} DecodedPipelineFailure(entries: seq<(string, RawTask)>, parse: BlockParser)
    ensures DecodedPipeline(entries, parse).Failure? <==> exists i | 0 <= i < |entries| :: parse(entries[i].1).Failure?
    ensures DecodedPipeline(entries, parse).Failure? ==>
              exists i | 0 <= i < |entries| :: && parse(entries[i].1).Failure?
                                              && DecodedPipeline(entries, parse).error == parse(entries[i].1).error
                                              && forall j | 0 <= j < i :: parse(entries[j].1).Success?
  {
    if entries != [] {
      var n := |entries| - 1;
      var init := entries[..n];
      DecodedPipelineFailure(init, parse);
      assert forall j | 0 <= j < n :: init[j] == entries[j];
      if DecodedPipeline(init, parse).Failure? {
        var i :| 0 <= i < n && parse(init[i].1).Failure? && DecodedPipeline(init, parse).error == parse(init[i].1).error
                 && forall j | 0 <= j < i :: parse(init[j].1).Success?;
        assert parse(entries[i].1).Failure?;
      } else if parse(entries[n].1).Failure? {
        assert forall j | 0 <= j < n :: parse(entries[j].1).Success?;
      }
    }
  }

  /** The keys of the entries. */
  function EntryKeys(entries: seq<(string, RawTask)>): set<string> {
    set i | 0 <= i < |entries| :: entries[i].0
  }

  lemma EntryKeysSnoc(entries: seq<(string, RawTask)>)
    requires entries != []
    ensures EntryKeys(entries) == EntryKeys(entries[..|entries| - 1]) + {entries[|entries| - 1].0}
  {
    var n := |entries| - 1;
    var init := entries[..n];
    forall k | k in EntryKeys(entries) ensures k in EntryKeys(init) + {entries[n].0} {
      var i :| 0 <= i < |entries| && entries[i].0 == k;
      if i < n {
        assert init[i].0 == k;
      }
    }
    forall k | k in EntryKeys(init) ensures k in EntryKeys(entries) {
      var i :| 0 <= i < n && init[i].0 == k;
      assert entries[i].0 == k;
    }
  }

  /** No later entry repeats the key of entry `i`. */
  predicate LastOccurrence(entries: seq<(string, RawTask)>, i: nat)
    requires i < |entries|
  {
    forall j | i < j < |entries| :: entries[j].0 != entries[i].0
  }

  /**
   * A decoded pipeline has exactly the entries' keys, and each key holds the
   * parsed block of its last occurrence.
   */
  lemma DecodedPipelineEntries(entries: seq<(string, RawTask)>, parse: BlockParser)
    requires DecodedPipeline(entries, parse).Success?
    ensures DecodedPipeline(entries, parse).value.Keys == EntryKeys(entries)
    ensures forall i | 0 <= i < |entries| && LastOccurrence(entries, i) ::
              && parse(entries[i].1).Success?
              && DecodedPipeline(entries, parse).value[entries[i].0] == parse(entries[i].1).value
  {
    DecodedPipelineKeys(entries, parse);
    forall i | 0 <= i < |entries| && LastOccurrence(entries, i)
      ensures parse(entries[i].1).Success? && DecodedPipeline(entries, parse).value[entries[i].0] == parse(entries[i].1).value
    {
      DecodedPipelineLastWins(entries, parse, i);
    }
  }

  lemma {:induction false} DecodedPipelineKeys(entries: seq<(string, RawTask)>, parse: BlockParser)
    requires DecodedPipeline(entries, parse).Success?
    ensures DecodedPipeline(entries, parse).value.Keys == EntryKeys(entries)
  {
    if entries != [] {
      var n := |entries| - 1;
      var init := entries[..n];
      var last := entries[n];
      assert DecodedPipeline(init, parse).Success? && parse(last.1).Success?;
      assert DecodedPipeline(entries, parse).value == DecodedPipeline(init, parse).value[last.0 := parse(last.1).value];
      DecodedPipelineKeys(init, parse);
      EntryKeysSnoc(entries);
    }
  }

  lemma {:induction false} DecodedPipelineLastWins(entries: seq<(string, RawTask)>, parse: BlockParser, i: nat)
    requires DecodedPipeline(entries, parse).Success?
    requires i < |entries| && LastOccurrence(entries, i)
    ensures parse(entries[i].1).Success?
    ensures entries[i].0 in DecodedPipeline(entries, parse).value
    ensures DecodedPipeline(entries, parse).value[entries[i].0] == parse(entries[i].1).value
  {
    var n := |entries| - 1;
    var init := entries[..n];
    var last := entries[n];
    assert DecodedPipeline(init, parse).Success? && parse(last.1).Success?;
    var m := DecodedPipeline(entries, parse).value;
    assert m == DecodedPipeline(init, parse).value[last.0 := parse(last.1).value];
    if i < n {
      assert init[i] == entries[i];
      assert LastOccurrence(init, i) by {
        forall j | i < j < n ensures init[j].0 != init[i].0 {
          assert init[j] == entries[j];
        }
      }
      DecodedPipelineLastWins(init, parse, i);
      assert last.0 != entries[i].0;
    }
  }

  // ---------------------------------------------------------------------------
  // The global keys

  /**
   * `globalEnv`: the `globalEnv` key and the `$x` entries of
   * `globalDependencies` (as `x`), deduplicated and sorted; or the error for a
   * `$` entry under `globalEnv`.
   */
  function ParsedGlobalEnv(raw: RawTurboJSON): Result<seq<string>, ParseError> {
    var gathered := GatheredEnvVars(raw.globalEnv, "globalEnv", {});
    if gathered.Failure? then Failure(gathered.error)
    else Success(SortedSet(raw.globalEnv + Stripped(raw.globalDependencies, EnvPipelineDelimiter)))
  }

  /** `globalPassThroughEnv`: absent when absent, else deduplicated and sorted; or its `$` error. */
  function ParsedGlobalPassThroughEnv(raw: RawTurboJSON): Result<Option<seq<string>>, ParseError> {
    var gathered := GatheredEnvVars(raw.globalPassThroughEnv.GetOr([]), "globalPassThroughEnv", {});
    if gathered.Failure? then Failure(gathered.error)
    else if raw.globalPassThroughEnv.None? then Success(None)
    else Success(Some(SortedSet(raw.globalPassThroughEnv.value)))
  }

  /** `globalDotEnv`: absent when absent, else the checked paths in declared order; or the first invalid path. */
  function ParsedGlobalDotEnv(raw: RawTurboJSON, check: PathCheck): Result<Option<seq<string>>, ParseError> {
    if raw.globalDotEnv.None? then Success(None)
    else
      var checked := CheckedPaths(raw.globalDotEnv.value, check);
      if checked.Failure? then Failure(checked.error)
      else Success(Some(checked.value))
  }

  /** The space id: that of `experimentalSpaces` when present, else empty. */
  function SpaceIdOf(space: Option<SpaceConfig>): string {
    if space.Some? then space.value.id else ""
  }

  /**
   * `TurboJSON.UnmarshalJSON` as a function of the decoded document. The
   * pipeline blocks are parsed while decoding, so their errors come first;
   * then `globalEnv`, `globalPassThroughEnv` and `globalDotEnv` in that order.
   */
  function TurboJSONFromRaw(raw: RawTurboJSON, check: PathCheck): Result<TurboJSON, ParseError> {
    var pipeline := DecodedPipeline(raw.pipeline, TaskBlock(check));
    var globalEnv := ParsedGlobalEnv(raw);
    var globalPassThroughEnv := ParsedGlobalPassThroughEnv(raw);
    var globalDotEnv := ParsedGlobalDotEnv(raw, check);
    if pipeline.Failure? then Failure(pipeline.error)
    else if globalEnv.Failure? then Failure(globalEnv.error)
    else if globalPassThroughEnv.Failure? then Failure(globalPassThroughEnv.error)
    else if globalDotEnv.Failure? then Failure(globalDotEnv.error)
    else
      Success(TurboJSON(
        globalDeps := SortedSet(Unprefixed(raw.globalDependencies, {EnvPipelineDelimiter})),
        globalEnv := globalEnv.value,
        globalPassThroughEnv := globalPassThroughEnv.value,
        globalDotEnv := globalDotEnv.value,
        pipeline := pipeline.value,
        remoteCacheOptions := raw.remoteCacheOptions,
        extendsList := raw.extendsList,
        spaceId := SpaceIdOf(raw.space)))
  }

  /** The `globalDependencies` loop: `$x` adds `x` to the environment set, anything else to the file set. */
  method SplitGlobalDependencies(deps: seq<string>, globalEnv: set<string>) returns (env: set<string>, files: set<string>)
    ensures env == globalEnv + Elems(Stripped(deps, EnvPipelineDelimiter))
    ensures files == Elems(Unprefixed(deps, {EnvPipelineDelimiter}))
  {
    env, files := globalEnv, {};
    for i := 0 to |deps|
      invariant env == globalEnv + Elems(Stripped(deps[..i], EnvPipelineDelimiter))
      invariant files == Elems(Unprefixed(deps[..i], {EnvPipelineDelimiter}))
    {
      SplitStep(deps, i);
      var value := deps[i];
      if StartsWith(value, EnvPipelineDelimiter) {
        env := env + {value[1..]};
      } else {
        files := files + {value};
      }
    }
    assert deps[..|deps|] == deps;
  }

  /** One more entry of `globalDependencies`: it joins the environment names or the files. */
  lemma SplitStep(deps: seq<string>, i: nat)
    requires i < |deps|
    ensures Elems(Stripped(deps[..i + 1], EnvPipelineDelimiter)) == Elems(Stripped(deps[..i], EnvPipelineDelimiter))
              + (if StartsWith(deps[i], EnvPipelineDelimiter) then {deps[i][1..]} else {})
    ensures Elems(Unprefixed(deps[..i + 1], {EnvPipelineDelimiter})) == Elems(Unprefixed(deps[..i], {EnvPipelineDelimiter}))
              + (if StartsWith(deps[i], EnvPipelineDelimiter) then {} else {deps[i]})
  {
    var prefix := deps[..i + 1];
    assert prefix[..i] == deps[..i];
    assert Last(prefix) == deps[i];
  }

  /** One set of names as the sorted list the source stores. */
  method SortedListOf(s: set<string>, ghost sources: seq<string>) returns (r: seq<string>)
    requires Elems(sources) == s
    ensures r == SortedSet(sources)
  {
    r := SortedList(s);
    SortedSetUnique(r, sources);
  }

  /** `TurboJSON.UnmarshalJSON`, step by step. */
  method UnmarshalTurboJSON(raw: RawTurboJSON, check: PathCheck) returns (r: Result<TurboJSON, ParseError>)
    ensures r == TurboJSONFromRaw(raw, check)
  {
    var pipeline := DecodePipeline(raw.pipeline, check);
    if pipeline.Failure? {
      return Failure(pipeline.error);
    }

    var globalEnv := GatherEnvVars(raw.globalEnv, "globalEnv", {});
    if globalEnv.Failure? {
      return Failure(globalEnv.error);
    }
    var globalPassThroughEnv := GatherEnvVars(raw.globalPassThroughEnv.GetOr([]), "globalPassThroughEnv", {});
    if globalPassThroughEnv.Failure? {
      return Failure(globalPassThroughEnv.error);
    }

    var envVars, globalFileDependencies := SplitGlobalDependencies(raw.globalDependencies, globalEnv.value);
    var globalEnvList := SortedListOf(envVars, raw.globalEnv + Stripped(raw.globalDependencies, EnvPipelineDelimiter));

    var globalPassThroughEnvList: Option<seq<string>> := None;
    if raw.globalPassThroughEnv.Some? {
      var list := SortedListOf(globalPassThroughEnv.value, raw.globalPassThroughEnv.value);
      globalPassThroughEnvList := Some(list);
    }

    var globalDeps := SortedListOf(globalFileDependencies, Unprefixed(raw.globalDependencies, {EnvPipelineDelimiter}));

    var globalDotEnv: Option<seq<string>> := None;
    if raw.globalDotEnv.Some? {
      var checked := CheckDotEnv(raw.globalDotEnv.value, check);
      if checked.Failure? {
        return Failure(checked.error);
      }
      globalDotEnv := Some(checked.value);
    }

    var spaceId := "";
    if raw.space.Some? {
      spaceId := raw.space.value.id;
    }

    r := Success(TurboJSON(globalDeps, globalEnvList, globalPassThroughEnvList, globalDotEnv, pipeline.value,
                           raw.remoteCacheOptions, raw.extendsList, spaceId));
  }

  // ---------------------------------------------------------------------------
  // What unmarshalling promises

  /**
   * Unmarshalling fails exactly when a pipeline block fails, a `globalEnv` or
   * `globalPassThroughEnv` entry starts with `$`, or a `globalDotEnv` path is
   * rejected.
   */
  lemma TurboJSONFailsIff(raw: RawTurboJSON, check: PathCheck)
    ensures TurboJSONFromRaw(raw, check).Failure? <==>
              || (exists i | 0 <= i < |raw.pipeline| :: TaskFromRaw(raw.pipeline[i].1, check).Failure?)
              || AnyEnvPrefixed(raw.globalEnv)
              || (raw.globalPassThroughEnv.Some? && AnyEnvPrefixed(raw.globalPassThroughEnv.value))
              || (raw.globalDotEnv.Some? && exists i | 0 <= i < |raw.globalDotEnv.value| :: check(raw.globalDotEnv.value[i]).None?)
  {
    DecodedPipelineFailure(raw.pipeline, TaskBlock(check));
    TurboJSONFailureSource(raw, check);
    GlobalKeyFailures(raw, check);
  }

  /** Which stage a failure comes from, tried in the source's order. */
  lemma TurboJSONFailureSource(raw: RawTurboJSON, check: PathCheck)
    ensures var pipeline := DecodedPipeline(raw.pipeline, TaskBlock(check));
            && (pipeline.Failure? ==> TurboJSONFromRaw(raw, check) == Failure(pipeline.error))
            && (pipeline.Success? && ParsedGlobalEnv(raw).Failure? ==>
                  TurboJSONFromRaw(raw, check) == Failure(ParsedGlobalEnv(raw).error))
            && (pipeline.Success? && ParsedGlobalEnv(raw).Success? && ParsedGlobalPassThroughEnv(raw).Failure? ==>
                  TurboJSONFromRaw(raw, check) == Failure(ParsedGlobalPassThroughEnv(raw).error))
            && (&& pipeline.Success? && ParsedGlobalEnv(raw).Success? && ParsedGlobalPassThroughEnv(raw).Success?
                && ParsedGlobalDotEnv(raw, check).Failure? ==>
                  TurboJSONFromRaw(raw, check) == Failure(ParsedGlobalDotEnv(raw, check).error))
            && (TurboJSONFromRaw(raw, check).Failure? <==>
                  pipeline.Failure? || ParsedGlobalEnv(raw).Failure? || ParsedGlobalPassThroughEnv(raw).Failure?
                  || ParsedGlobalDotEnv(raw, check).Failure?)
  {
  }

  /** When each fallible global key fails on its own. */
  lemma GlobalKeyFailures(raw: RawTurboJSON, check: PathCheck)
    ensures ParsedGlobalEnv(raw).Failure? <==> AnyEnvPrefixed(raw.globalEnv)
    ensures ParsedGlobalPassThroughEnv(raw).Failure? <==>
              raw.globalPassThroughEnv.Some? && AnyEnvPrefixed(raw.globalPassThroughEnv.value)
    ensures ParsedGlobalDotEnv(raw, check).Failure? <==>
              raw.globalDotEnv.Some? && exists i | 0 <= i < |raw.globalDotEnv.value| :: check(raw.globalDotEnv.value[i]).None?
  {
    assert ParsedGlobalEnv(raw).Failure? <==> GatheredEnvVars(raw.globalEnv, "globalEnv", {}).Failure?;
    assert ParsedGlobalPassThroughEnv(raw).Failure? <==>
           GatheredEnvVars(raw.globalPassThroughEnv.GetOr([]), "globalPassThroughEnv", {}).Failure?;
    if raw.globalDotEnv.Some? {
      assert ParsedGlobalDotEnv(raw, check).Failure? <==> CheckedPaths(raw.globalDotEnv.value, check).Failure?;
    }
  }

  /** A failing `globalDotEnv` names its first path that is not a valid relative path. */
  lemma GlobalDotEnvFailure(raw: RawTurboJSON, check: PathCheck)
    requires ParsedGlobalDotEnv(raw, check).Failure?
    ensures raw.globalDotEnv.Some?
    ensures var paths := raw.globalDotEnv.value;
            exists i | 0 <= i < |paths| :: && ParsedGlobalDotEnv(raw, check).error == InvalidPath(paths[i])
                                           && check(paths[i]).None? && forall j | 0 <= j < i :: check(paths[j]).Some?
  {
    assert ParsedGlobalDotEnv(raw, check) == Failure(CheckedPaths(raw.globalDotEnv.value, check).error);
  }

  /**
   * The pipeline's errors come first, then the first `$` entry of
   * `globalEnv`, then the first of `globalPassThroughEnv`, then the first
   * path of `globalDotEnv` that is not a valid relative path.
   */
  lemma TurboJSONErrorOrder(raw: RawTurboJSON, check: PathCheck)
    ensures DecodedPipeline(raw.pipeline, TaskBlock(check)).Failure? ==>
              TurboJSONFromRaw(raw, check) == Failure(DecodedPipeline(raw.pipeline, TaskBlock(check)).error)
    ensures DecodedPipeline(raw.pipeline, TaskBlock(check)).Success? && AnyEnvPrefixed(raw.globalEnv) ==>
              var env := raw.globalEnv;
              exists i | 0 <= i < |env| :: && TurboJSONFromRaw(raw, check) == Failure(InvalidEnvPrefix(env[i], "globalEnv"))
                                           && EnvPrefixed(env[i]) && forall j | 0 <= j < i :: !EnvPrefixed(env[j])
    ensures && DecodedPipeline(raw.pipeline, TaskBlock(check)).Success? && !AnyEnvPrefixed(raw.globalEnv)
            && raw.globalPassThroughEnv.Some? && AnyEnvPrefixed(raw.globalPassThroughEnv.value) ==>
              var vars := raw.globalPassThroughEnv.value;
              exists i | 0 <= i < |vars| :: && TurboJSONFromRaw(raw, check) == Failure(InvalidEnvPrefix(vars[i], "globalPassThroughEnv"))
                                            && EnvPrefixed(vars[i]) && forall j | 0 <= j < i :: !EnvPrefixed(vars[j])
    ensures && !AnyEnvPrefixed(raw.globalEnv)
            && !(raw.globalPassThroughEnv.Some? && AnyEnvPrefixed(raw.globalPassThroughEnv.value))
            && DecodedPipeline(raw.pipeline, TaskBlock(check)).Success? && TurboJSONFromRaw(raw, check).Failure? ==>
              && raw.globalDotEnv.Some?
              && var paths := raw.globalDotEnv.value;
                 exists i | 0 <= i < |paths| :: && TurboJSONFromRaw(raw, check) == Failure(InvalidPath(paths[i]))
                                                && check(paths[i]).None? && forall j | 0 <= j < i :: check(paths[j]).Some?
  {
    TurboJSONFailureSource(raw, check);
    if DecodedPipeline(raw.pipeline, TaskBlock(check)).Success? {
      if AnyEnvPrefixed(raw.globalEnv) {
        assert ParsedGlobalEnv(raw) == Failure(GatheredEnvVars(raw.globalEnv, "globalEnv", {}).error);
      } else if raw.globalPassThroughEnv.Some? && AnyEnvPrefixed(raw.globalPassThroughEnv.value) {
        assert ParsedGlobalEnv(raw).Success?;
        assert ParsedGlobalPassThroughEnv(raw)
               == Failure(GatheredEnvVars(raw.globalPassThroughEnv.value, "globalPassThroughEnv", {}).error);
      } else if TurboJSONFromRaw(raw, check).Failure? {
        assert ParsedGlobalEnv(raw).Success? && ParsedGlobalPassThroughEnv(raw).Success?;
        GlobalDotEnvFailure(raw, check);
      }
    }
  }

  /**
   * `globalDependencies` is split: `$x` names the environment variable `x`,
   * which joins `globalEnv`; every other entry is a file dependency. Both
   * lists are sorted and each entry appears once.
   */
  lemma GlobalDependenciesSplit(raw: RawTurboJSON, check: PathCheck)
    requires TurboJSONFromRaw(raw, check).Success?
    ensures var tj := TurboJSONFromRaw(raw, check).value;
            && Sorted(tj.globalEnv) && NoDup(tj.globalEnv)
            && Sorted(tj.globalDeps) && NoDup(tj.globalDeps)
            && (forall x :: x in tj.globalEnv <==> x in raw.globalEnv || [EnvPipelineDelimiter] + x in raw.globalDependencies)
            && (forall x :: x in tj.globalDeps <==> x in raw.globalDependencies && !EnvPrefixed(x))
  {
    GlobalLists(raw, check);
    GlobalEnvMembers(raw.globalEnv, raw.globalDependencies);
    GlobalFileMembers(raw.globalDependencies);
  }

  /** The environment names: those of `globalEnv` and those named `$x` in `globalDependencies`. */
  lemma GlobalEnvMembers(globalEnv: seq<string>, deps: seq<string>)
    ensures forall x :: x in SortedSet(globalEnv + Stripped(deps, EnvPipelineDelimiter)) <==>
                          x in globalEnv || [EnvPipelineDelimiter] + x in deps
  {
    var env := SortedSet(globalEnv + Stripped(deps, EnvPipelineDelimiter));
    forall x ensures x in env <==> x in globalEnv || [EnvPipelineDelimiter] + x in deps {
      StrippedCount(deps, EnvPipelineDelimiter, x);
      assert x in env <==> x in Elems(globalEnv + Stripped(deps, EnvPipelineDelimiter));
      assert x in Stripped(deps, EnvPipelineDelimiter) <==> multiset(Stripped(deps, EnvPipelineDelimiter))[x] > 0;
    }
  }

  /** The files: the entries of `globalDependencies` without `$`. */
  lemma GlobalFileMembers(deps: seq<string>)
    ensures forall x :: x in SortedSet(Unprefixed(deps, {EnvPipelineDelimiter})) <==> x in deps && !EnvPrefixed(x)
  {
    var files := SortedSet(Unprefixed(deps, {EnvPipelineDelimiter}));
    forall x ensures x in files <==> x in deps && !EnvPrefixed(x) {
      UnprefixedCount(deps, {EnvPipelineDelimiter}, x);
      assert x in files <==> x in Elems(Unprefixed(deps, {EnvPipelineDelimiter}));
      assert x in Unprefixed(deps, {EnvPipelineDelimiter}) <==> multiset(Unprefixed(deps, {EnvPipelineDelimiter}))[x] > 0;
    }
  }

  /** The two global lists of a parsed document, by the definitions they are built from. */
  lemma GlobalLists(raw: RawTurboJSON, check: PathCheck)
    requires TurboJSONFromRaw(raw, check).Success?
    ensures TurboJSONFromRaw(raw, check).value.globalEnv
            == SortedSet(raw.globalEnv + Stripped(raw.globalDependencies, EnvPipelineDelimiter))
    ensures TurboJSONFromRaw(raw, check).value.globalDeps
            == SortedSet(Unprefixed(raw.globalDependencies, {EnvPipelineDelimiter}))
  {
    assert ParsedGlobalEnv(raw).Success?;
  }

  /**
   * The other keys: `globalPassThroughEnv` stays absent when absent and is
   * otherwise deduplicated and sorted; `globalDotEnv` keeps its declared
   * order; the pipeline is the decoded one, with the keys of its entries
   * (`DecodedPipelineEntries` says which block each holds); the remote cache options and
   * `extends` are copied; the space id is that of `experimentalSpaces`.
   */
  lemma TurboJSONKeys(raw: RawTurboJSON, check: PathCheck)
    requires TurboJSONFromRaw(raw, check).Success?
    ensures var tj := TurboJSONFromRaw(raw, check).value;
            && (tj.globalPassThroughEnv.Some? <==> raw.globalPassThroughEnv.Some?)
            && (tj.globalPassThroughEnv.Some? ==> && Sorted(tj.globalPassThroughEnv.value) && NoDup(tj.globalPassThroughEnv.value)
                                                  && Elems(tj.globalPassThroughEnv.value) == Elems(raw.globalPassThroughEnv.value))
            && (tj.globalDotEnv.Some? <==> raw.globalDotEnv.Some?)
            && (tj.globalDotEnv.Some? ==> && |tj.globalDotEnv.value| == |raw.globalDotEnv.value|
                                          && forall i | 0 <= i < |tj.globalDotEnv.value| :: check(raw.globalDotEnv.value[i]) == Some(tj.globalDotEnv.value[i]))
            && tj.pipeline == DecodedPipeline(raw.pipeline, TaskBlock(check)).value
            && tj.pipeline.Keys == EntryKeys(raw.pipeline)
            && tj.remoteCacheOptions == raw.remoteCacheOptions
            && tj.extendsList == raw.extendsList
            && (raw.space.Some? ==> tj.spaceId == raw.space.value.id)
            && (raw.space.None? ==> tj.spaceId == "")
  {
    TurboJSONParts(raw, check);
    DecodedPipelineKeys(raw.pipeline, TaskBlock(check));
    GlobalPassThroughEnvShape(raw);
    GlobalDotEnvShape(raw, check);
  }

  /** A parsed document holds its pipeline and optional global keys as they parsed on their own. */
  lemma TurboJSONParts(raw: RawTurboJSON, check: PathCheck)
    requires TurboJSONFromRaw(raw, check).Success?
    ensures DecodedPipeline(raw.pipeline, TaskBlock(check)).Success?
    ensures ParsedGlobalPassThroughEnv(raw).Success? && ParsedGlobalDotEnv(raw, check).Success?
    ensures var tj := TurboJSONFromRaw(raw, check).value;
            && tj.pipeline == DecodedPipeline(raw.pipeline, TaskBlock(check)).value
            && tj.globalPassThroughEnv == ParsedGlobalPassThroughEnv(raw).value
            && tj.globalDotEnv == ParsedGlobalDotEnv(raw, check).value
            && tj.remoteCacheOptions == raw.remoteCacheOptions
            && tj.extendsList == raw.extendsList
            && tj.spaceId == SpaceIdOf(raw.space)
  {
  }

  /** A parsed `globalPassThroughEnv` is present exactly when declared, and then the declared names, sorted, each once. */
  lemma GlobalPassThroughEnvShape(raw: RawTurboJSON)
    requires ParsedGlobalPassThroughEnv(raw).Success?
    ensures var v := ParsedGlobalPassThroughEnv(raw).value;
            && (v.Some? <==> raw.globalPassThroughEnv.Some?)
            && (v.Some? ==> Sorted(v.value) && NoDup(v.value) && Elems(v.value) == Elems(raw.globalPassThroughEnv.value))
  {
  }

  /** A parsed `globalDotEnv` is present exactly when declared, and then the checked paths in declared order. */
  lemma GlobalDotEnvShape(raw: RawTurboJSON, check: PathCheck)
    requires ParsedGlobalDotEnv(raw, check).Success?
    ensures var v := ParsedGlobalDotEnv(raw, check).value;
            && (v.Some? <==> raw.globalDotEnv.Some?)
            && (v.Some? ==> && |v.value| == |raw.globalDotEnv.value|
                            && forall i | 0 <= i < |v.value| :: check(raw.globalDotEnv.value[i]) == Some(v.value[i]))
  {
  }

  /** A document with only `globalDependencies`. */
  const GlobalDependenciesExampleRaw :=
    RawTurboJSON(["$FOO", "config.txt"], [], None, None, [], RemoteCacheOptions("", false), [], None)

  /** `"globalDependencies": ["$FOO", "config.txt"]` gives `globalEnv` `["FOO"]` and `globalDeps` `["config.txt"]`. */
  lemma GlobalDependenciesExample(check: PathCheck)
    ensures TurboJSONFromRaw(GlobalDependenciesExampleRaw, check)
            == Success(TurboJSON(["config.txt"], ["FOO"], None, None, map[], RemoteCacheOptions("", false), [], ""))
  {
    var raw := GlobalDependenciesExampleRaw;
    GlobalDependenciesExampleLists(raw.globalDependencies);
    GlobalDependenciesExampleKeys(raw, check);
    TurboJSONFromParts(raw, check, map[], ["FOO"], None, None);
  }

  /** The example's pipeline and fallible global keys, each on its own. */
  lemma GlobalDependenciesExampleKeys(raw: RawTurboJSON, check: PathCheck)
    requires raw == GlobalDependenciesExampleRaw
    requires SortedSet([] + Stripped(raw.globalDependencies, EnvPipelineDelimiter)) == ["FOO"]
    ensures DecodedPipeline(raw.pipeline, TaskBlock(check)) == Success(map[])
    ensures ParsedGlobalEnv(raw) == Success(["FOO"])
    ensures ParsedGlobalPassThroughEnv(raw) == Success(None)
    ensures ParsedGlobalDotEnv(raw, check) == Success(None)
  {
    assert GatheredEnvVars(raw.globalEnv, "globalEnv", {}).Success?;
    assert GatheredEnvVars([], "globalPassThroughEnv", {}).Success?;
  }

  /** A document whose pipeline and fallible global keys all parse is assembled from those parts. */
  lemma TurboJSONFromParts(raw: RawTurboJSON, check: PathCheck, pipeline: Pipeline, globalEnv: seq<string>,
                           globalPassThroughEnv: Option<seq<string>>, globalDotEnv: Option<seq<string>>)
    requires DecodedPipeline(raw.pipeline, TaskBlock(check)) == Success(pipeline)
    requires ParsedGlobalEnv(raw) == Success(globalEnv)
    requires ParsedGlobalPassThroughEnv(raw) == Success(globalPassThroughEnv)
    requires ParsedGlobalDotEnv(raw, check) == Success(globalDotEnv)
    ensures TurboJSONFromRaw(raw, check) == Success(TurboJSON(
              SortedSet(Unprefixed(raw.globalDependencies, {EnvPipelineDelimiter})), globalEnv, globalPassThroughEnv,
              globalDotEnv, pipeline, raw.remoteCacheOptions, raw.extendsList, SpaceIdOf(raw.space)))
  {
  }

  /** How the example's `globalDependencies` split: `FOO` for the environment, `config.txt` a file. */
  lemma GlobalDependenciesExampleLists(deps: seq<string>)
    requires deps == ["$FOO", "config.txt"]
    ensures SortedSet([] + Stripped(deps, EnvPipelineDelimiter)) == ["FOO"]
    ensures SortedSet(Unprefixed(deps, {EnvPipelineDelimiter})) == ["config.txt"]
  {
    ExampleStripped(deps);
    ExampleUnprefixed(deps);
    assert [] + ["FOO"] == ["FOO"];
    SortedSetUnique(["FOO"], ["FOO"]);
    SortedSetUnique(["config.txt"], ["config.txt"]);
  }

  lemma ExampleStripped(deps: seq<string>)
    requires deps == ["$FOO", "config.txt"]
    ensures Stripped(deps, EnvPipelineDelimiter) == ["FOO"]
  {
    var first := deps[..1];
    assert first == ["$FOO"] && first[..0] == [];
    assert Last(first) == "$FOO" && Last(deps) == "config.txt";
    assert "$FOO"[1..] == "FOO";
    assert !StartsWith("config.txt", EnvPipelineDelimiter) by {
      assert "config.txt"[0] == 'c';
    }
    assert Stripped(first, EnvPipelineDelimiter) == [] + ["FOO"];
    assert Stripped(deps, EnvPipelineDelimiter) == ["FOO"] + [];
  }

  lemma ExampleUnprefixed(deps: seq<string>)
    requires deps == ["$FOO", "config.txt"]
    ensures Unprefixed(deps, {EnvPipelineDelimiter}) == ["config.txt"]
  {
    var first := deps[..1];
    assert first == ["$FOO"] && first[..0] == [];
    assert Last(first) == "$FOO" && Last(deps) == "config.txt";
    assert !StartsWithAny("config.txt", {EnvPipelineDelimiter}) by {
      assert "config.txt"[0] == 'c';
    }
    assert Unprefixed(first, {EnvPipelineDelimiter}) == [] + [];
    assert Unprefixed(deps, {EnvPipelineDelimiter}) == [] + ["config.txt"];
  }

  // ---------------------------------------------------------------------------
  // Marshalling

  /**
   * `pristineTurboJSON`: what is written back. Task definitions lose their
   * bookkeeping and the space becomes an object again.
   */
  datatype PristineTurboJSON = PristineTurboJSON(
    globalDependencies: seq<string>,
    globalEnv: seq<string>,
    globalPassThroughEnv: Option<seq<string>>,
    globalDotEnv: Option<seq<string>>,
    pipeline: map<string, TaskDefinition>,
    remoteCacheOptions: RemoteCacheOptions,
    extendsList: seq<string>,
    space: Option<SpaceConfig>)

  /**
   * `TurboJSON.MarshalJSON`: the globals and remote cache options unchanged,
   * each pipeline entry as its task definition, `extends` not written, and
   * `experimentalSpaces` only for a non-empty space id, so that reading it
   * back gives the same id.
   */
  method MarshalTurboJSON(tj: TurboJSON) returns (raw: PristineTurboJSON)
    ensures raw.globalDependencies == tj.globalDeps && raw.globalEnv == tj.globalEnv
    ensures raw.globalPassThroughEnv == tj.globalPassThroughEnv && raw.globalDotEnv == tj.globalDotEnv
    ensures raw.pipeline.Keys == tj.pipeline.Keys
    ensures forall k | k in tj.pipeline :: raw.pipeline[k] == tj.pipeline[k].taskDefinition
    ensures raw.remoteCacheOptions == tj.remoteCacheOptions
    ensures raw.extendsList == []
    ensures SpaceIdOf(raw.space) == tj.spaceId
    ensures raw.space.Some? <==> tj.spaceId != ""
  {
    var pipeline := Pristine(tj.pipeline);
    var space: Option<SpaceConfig> := None;
    if tj.spaceId != "" {
      space := Some(SpaceConfig(tj.spaceId));
    }
    raw := PristineTurboJSON(tj.globalDeps, tj.globalEnv, tj.globalPassThroughEnv, tj.globalDotEnv, pipeline,
                             tj.remoteCacheOptions, [], space);
  }

  // ---------------------------------------------------------------------------
  // Validation

  /** A validation reports a list of error messages about a configuration. */
  type Validation = TurboJSON -> seq<string>

  /** The errors of all validations, in the order the validations are given. */
  function AllErrors(tj: TurboJSON, validations: seq<Validation>): seq<string> {
    if validations == [] then []
    else AllErrors(tj, validations[..|validations| - 1]) + validations[|validations| - 1](tj)
  }

  /** `TurboJSON.Validate`: run every validation and collect its errors. */
  method Validate(tj: TurboJSON, validations: seq<Validation>) returns (allErrors: seq<string>)
    ensures allErrors == AllErrors(tj, validations)
  {
    allErrors := [];
    for i := 0 to |validations|
      invariant allErrors == AllErrors(tj, validations[..i])
    {
      assert validations[..i + 1][..i] == validations[..i];
      var errors := validations[i](tj);
      allErrors := allErrors + errors;
    }
    assert validations[..|validations|] == validations;
  }

  /** A configuration is valid exactly when every validation passes. */
  lemma {:induction false} NoErrorsIffAllPass(tj: TurboJSON, validations: seq<Validation>)
    ensures AllErrors(tj, validations) == [] <==> forall i | 0 <= i < |validations| :: validations[i](tj) == []
  {
    if validations != [] {
      var n := |validations| - 1;
      NoErrorsIffAllPass(tj, validations[..n]);
      assert forall i | 0 <= i < n :: validations[..n][i] == validations[i];
    }
  }

  /** Validating with two lists of validations reports the errors of the first, then those of the second. */
  lemma {:induction false} AllErrorsConcat(tj: TurboJSON, a: seq<Validation>, b: seq<Validation>)
    ensures AllErrors(tj, a + b) == AllErrors(tj, a) + AllErrors(tj, b)
  {
    if b != [] {
      var n := |b| - 1;
      assert (a + b)[..|a + b| - 1] == a + b[..n];
      AllErrorsConcat(tj, a, b[..n]);
    } else {
      assert a + b == a;
    }
  }
}

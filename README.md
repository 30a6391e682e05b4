# Turbo pipeline configuration, modelled in Dafny

A model of how Turborepo's Go command line reads, combines and writes its
`turbo.json` task pipeline (`cli/internal/fs/turbo_json.go`), and of the
per-task cache summary of a run (`cli/internal/runsummary/task_summary.go`),
with proofs of what those operations promise.

A `turbo.json` holds global keys and a `pipeline` object. That object maps a
task identifier (`build`, or `web#build` for one package) to a task block.
Parsing a block gives a *bookkept* task definition. It is the definition plus
the set of keys that were actually present. The model covers:

- Prefix classification. In `outputs`, `!` marks an exclusion. In
  `dependsOn`, `^` marks a topological dependency and `$` an environment
  variable.
- The hard error for a `$`-prefixed entry in `env`, `passThroughEnv`,
  `globalEnv` and `globalPassThroughEnv`.
- Defaults, and presence or absence of keys.
- Merging a chain of definitions, where each field is taken from the last
  definition that declared it.
- The canonical serialized form, and the fact that parsing it gives the
  definition back.
- Lookups in a pipeline.
- Loading or synthesizing the configuration of a single-package repository.
- The cache status of a task, and how a task summary drops package names.

Modules, one per file:

| file | module | what it holds |
|---|---|---|
| wrappers.dfy | `Wrappers` | `Option` and `Result` |
| strings.dfy | `Strings` | `sort.Strings` order, sorting and set-to-sorted-list, prefix filters |
| task_ids.dfy | `TaskIds` | the `util` task-identifier helpers, as parameters |
| task_definition.dfy | `TaskDefinitions` | `TaskDefinition`, `BookkeepingTaskDefinition`, `hasField` |
| pipeline.dfy | `Pipelines` | `Pipeline.GetTask`, `HasTask`, `GetTaskDefinition`, `Pristine` |
| merge.dfy | `Merge` | `MergeTaskDefinitions` |
| task_parse.dfy | `TaskParse` | `BookkeepingTaskDefinition.UnmarshalJSON`, `gatherEnvVars` |
| task_serialize.dfy | `TaskSerialize` | `makeRawTask` and the round trip |
| turbo_json.dfy | `TurboJson` | `TurboJSON.UnmarshalJSON`, `MarshalJSON`, `Validate` |
| load_config.dfy | `LoadConfig` | `LoadTurboConfig` |
| task_summary.dfy | `RunSummary` | `NewTaskCacheSummary`, `TaskSummary.cleanForSinglePackage` |

Each loop of the source is a method. Its `ensures` ties the result to a
specification function. The source's promises are then proved as lemmas
about those functions.

Outside helpers are arguments of every operation that uses them. The
identifier helpers `util.IsPackageTask`, `util.GetPackageTaskFromId`,
`util.RootTaskID` and `util.StripPackageName` are the record
`TaskIds.Naming`. `turbopath.CheckedToAnchoredUnixPath` is the function
`TaskParse.PathCheck`. No proof depends on what these compute, except where
a statement names an assumption about them.

Reading turbo.json is not modelled. `LoadConfig.LoadTurboConfig` takes the
outcome of that read as an input.

Two consequences of the code, which the model keeps:

- Serializing a definition sorts `inputs` (`turbo_json.go:801`), while
  parsing keeps them as written (`:599`). So the round trip gives `inputs`
  back sorted.
- Task and topological dependency lists are sorted but keep duplicates
  (`:524-548`).

## Model

| member | source | states |
|---|---|---|
| Strings.Sort | cli/internal/fs/turbo_json.go:547-548 | `sort.Strings`: the result is sorted in byte order and is a permutation of its input |
| Strings.SortedSet | cli/internal/fs/turbo_json.go:558-559 | a set turned into a list and sorted: sorted, each element once, exactly the elements of the input |
| Strings.UnsafeListOfStrings | cli/internal/fs/turbo_json.go:558 | the set as a list: no duplicates, exactly the set's elements |
| TaskDefinitions.HasField | cli/internal/fs/turbo_json.go:387-390 | a defined field is present; with no experimental fields, presence is exactly membership in the defined fields |
| TaskDefinitions.HasExperimentalFields | cli/internal/fs/turbo_json.go:393-395 | true exactly when some field is experimental, and such a field counts as present |
| TaskDefinitions.GetTaskDefinition | cli/internal/fs/turbo_json.go:399-412 | with no experimental fields, the merged definition is the stored definition |
| Pipelines.GetTask | cli/internal/fs/turbo_json.go:195-212 | the entry for the task id if present, else the entry for the task name; an error naming the task id exactly when neither key exists |
| Pipelines.GetTaskDefinition | cli/internal/fs/turbo_json.go:344-351 | the definition for the id, else for its task half; the flag is true exactly when one was found; otherwise the zero definition (cache false) |
| Pipelines.HasTask | cli/internal/fs/turbo_json.go:355-368 | true exactly when some key equals the task, or is a package task whose task half equals it |
| Pipelines.DeclaresMonotonic | cli/internal/fs/turbo_json.go:355-368 | adding keys to a pipeline never makes a declared task undeclared |
| Pipelines.ResolvedTaskIsDeclared | cli/internal/fs/turbo_json.go:195-212 | a package task that `GetTask` resolves, directly or by fallback, has its task half declared |
| Pipelines.GetTaskDefinitionAgreesWithGetTask | cli/internal/fs/turbo_json.go:344-351 | `GetTaskDefinition` is `GetTask` on the id and its task half, with the zero definition on failure |
| Pipelines.FallbackAndOverride | cli/internal/fs/turbo_json.go:195-212 | a bare task entry serves every package id without its own entry; a package entry takes precedence |
| Pipelines.Pristine | cli/internal/fs/turbo_json.go:371-383 | the same keys, each mapped to its task definition without bookkeeping |
| Merge.MergeTaskDefinitions | cli/internal/fs/turbo_json.go:417-471 | never fails; the result is the left fold of the chain from the zero definition with cache true |
| Merge.MergeInto | cli/internal/fs/turbo_json.go:426-468 | one loop step: the fields the definition declared replace the accumulator's, the rest are kept |
| Merge.OverlayField | cli/internal/fs/turbo_json.go:426-468 | each field after one step comes from the definition if it declared the field (`hasField`), else from the accumulator |
| Merge.LastWriter | cli/internal/fs/turbo_json.go:426-468 | the index of the last definition declaring a field: it declares it, no later one does, and none exists only when no definition does |
| Merge.MergedFieldIsLastWriter | cli/internal/fs/turbo_json.go:417-471 | every merged field is the value of its last declaring definition, or the initial value when none declares it |
| Merge.MergeEmpty | cli/internal/fs/turbo_json.go:417-423 | merging nothing gives the zero definition with cache true, not persistent, pass-through env absent |
| Merge.UndeclaredFieldUntouched | cli/internal/fs/turbo_json.go:426-468 | a later definition lacking a field leaves the merged value of that field unchanged |
| Merge.DeclaredFieldWins | cli/internal/fs/turbo_json.go:426-468 | a later definition declaring a field overrides it, even with a zero value |
| Merge.DependenciesReplacedTogether | cli/internal/fs/turbo_json.go:437-443 | both dependency lists come from the last definition that declared `dependsOn` |
| Merge.MergeOfUndeclared | cli/internal/fs/turbo_json.go:417-471 | a chain declaring no fields merges to the initial definition |
| Merge.MergeExamples | cli/internal/fs/turbo_json.go:426-468 | concrete chains: outputs from the first and cache false from the second; a later empty block keeps cache false |
| TaskParse.GatheredEnvVars | cli/internal/fs/turbo_json.go:806-818 | fails exactly when a value starts with `$`, naming the first such value and the key; otherwise the set plus all values |
| TaskParse.GatherEnvVars | cli/internal/fs/turbo_json.go:806-818 | the loop computes `GatheredEnvVars`, stopping at the first `$` value |
| TaskParse.CheckedPaths | cli/internal/fs/turbo_json.go:571-587 | succeeds exactly when every path is valid, then gives the checked paths in declared order; else fails on the first invalid path |
| TaskParse.CheckDotEnv | cli/internal/fs/turbo_json.go:575-586 | the loop computes `CheckedPaths` |
| TaskParse.SplitOutputs | cli/internal/fs/turbo_json.go:484-512 | the outputs loop and sorts compute `ParsedOutputs` |
| TaskParse.SplitDependsOn | cli/internal/fs/turbo_json.go:530-548 | the `dependsOn` loop: the `$` entries stripped into a set, the `^` entries stripped, the plain entries, and whether a `$` entry was seen |
| TaskParse.SortedList | cli/internal/fs/turbo_json.go:558-559 | a set as a sorted list without duplicates |
| TaskParse.UnmarshalEnv | cli/internal/fs/turbo_json.go:550-559 | computes the `env` result: the error of the `env` key, or the sorted set of its values and the `$` dependencies |
| TaskParse.UnmarshalPassThroughEnv | cli/internal/fs/turbo_json.go:561-569 | computes the `passThroughEnv` result: absent when absent, its error, or its sorted set |
| TaskParse.UnmarshalDotEnv | cli/internal/fs/turbo_json.go:571-587 | computes the `dotEnv` result: absent when absent, or the checked paths |
| TaskParse.UnmarshalTask | cli/internal/fs/turbo_json.go:475-614 | the whole block parse computes `TaskFromRaw` |
| TaskParse.ParsedParts | cli/internal/fs/turbo_json.go:550-612 | a parsed block holds `env`, `passThroughEnv` and `dotEnv` exactly as each key parses on its own |
| TaskParse.ParsedDefinedFields | cli/internal/fs/turbo_json.go:484-609 | a parsed block records the fields its keys declare and no experimental fields |
| TaskParse.DefinedFieldsDeclared | cli/internal/fs/turbo_json.go:484-609 | a field is recorded as defined exactly when its key is present; `Env` also when `dependsOn` has a `$` entry |
| TaskParse.ParseFailsIff | cli/internal/fs/turbo_json.go:550-587 | a block fails exactly when `env` or `passThroughEnv` has a `$` entry or a `dotEnv` path is invalid |
| TaskParse.FailureSource | cli/internal/fs/turbo_json.go:550-587 | a failure carries the error of `env` if that key fails, else of `passThroughEnv`, else of `dotEnv`; parsing fails exactly when one of the three does |
| TaskParse.KeyFailures | cli/internal/fs/turbo_json.go:550-587 | `env` and `passThroughEnv` each fail exactly when present with a `$` entry; `dotEnv` exactly when present with an invalid path |
| TaskParse.ParseErrorOrder | cli/internal/fs/turbo_json.go:550-587 | the error is that of `env`, then `passThroughEnv`, then `dotEnv`; within a key, the first bad entry |
| TaskParse.ParsedOutputsClassified | cli/internal/fs/turbo_json.go:484-512 | inclusions are the globs without `!`, exclusions the `!` globs with it removed; both sorted, with every glob kept as often as it occurs |
| TaskParse.ParsedDependsOnClassified | cli/internal/fs/turbo_json.go:521-548 | `^x` gives topological `x`, plain entries give task dependencies; both sorted, duplicates kept |
| TaskParse.ParsedEnvContents | cli/internal/fs/turbo_json.go:534-559 | `env` is sorted and duplicate-free; it holds exactly the `env` values and the `x` of each `$x` dependency |
| TaskParse.ParsedKeys | cli/internal/fs/turbo_json.go:514-612 | presence and defaults: cache true when absent, persistent false when absent, inputs verbatim; pass-through env absent exactly when absent, else a sorted set; dotEnv in declared order |
| TaskParse.EmptyTaskDefaults | cli/internal/fs/turbo_json.go:475-614 | an empty block parses to the zero definition with cache true and nothing defined |
| TaskParse.DependsOnExampleSplit | cli/internal/fs/turbo_json.go:534-545 | `["^build", "$FOO", "other", "pkg#task"]` splits into topological `build`, tasks `other`, `pkg#task`, env `FOO` |
| TaskParse.DependsOnExampleParses | cli/internal/fs/turbo_json.go:530-559 | that `dependsOn` block parses |
| TaskParse.DependsOnExampleDependencies | cli/internal/fs/turbo_json.go:541-548 | its topological and task dependency lists |
| TaskParse.DependsOnExampleEnv | cli/internal/fs/turbo_json.go:537-538 | its `$FOO` entry puts `FOO` in env |
| TaskParse.DependsOnExampleEnvList | cli/internal/fs/turbo_json.go:537-559 | the example block's env list parses and holds `FOO` |
| TaskParse.DependsOnExampleFields | cli/internal/fs/turbo_json.go:530-537 | its defined fields are `DependsOn` and `Env` |
| TaskParse.OutputsExample | cli/internal/fs/turbo_json.go:491-511 | `["dist/**", "!dist/cache/**"]` gives inclusion `dist/**` and exclusion `dist/cache/**` |
| TaskParse.EnvPrefixExample | cli/internal/fs/turbo_json.go:551-555 | `env: ["$FOO"]` is an error naming `$FOO` and the key `env` |
| TaskSerialize.MakeRawTask | cli/internal/fs/turbo_json.go:739-803 | the serialized block: outputs with `!` exclusions and dependsOn with `^` dependencies, each sorted as a whole; env and inputs sorted; pass-through env sorted when present; dotEnv as is |
| TaskSerialize.AppendNonEmpty | cli/internal/fs/turbo_json.go:766-784 | a list appended only when non-empty gives the plain concatenation |
| TaskSerialize.AppendPrefixed | cli/internal/fs/turbo_json.go:778-788 | the exclusion and topological loops append every entry, in order, behind its `!` or `^` |
| TaskSerialize.SerializedShape | cli/internal/fs/turbo_json.go:739-803 | every written list is sorted and a permutation of its sources; cache, persistence, output mode and dotEnv are copied |
| TaskSerialize.SerializationOrderIndependent | cli/internal/fs/turbo_json.go:795-801 | definitions whose lists hold the same entries serialize identically |
| TaskSerialize.InclusionsRoundTrip | cli/internal/fs/turbo_json.go:774-780 | re-parsing written outputs recovers sorted inclusions that have no `!` |
| TaskSerialize.ExclusionsRoundTrip | cli/internal/fs/turbo_json.go:778-780 | re-parsing written outputs recovers the sorted exclusions |
| TaskSerialize.OutputsRoundTrip | cli/internal/fs/turbo_json.go:774-799 | parsing the written outputs gives the same `TaskOutputs` |
| TaskSerialize.TasksRoundTrip | cli/internal/fs/turbo_json.go:782-788 | re-parsing written dependsOn recovers the sorted plain task dependencies |
| TaskSerialize.TopologicalRoundTrip | cli/internal/fs/turbo_json.go:786-788 | re-parsing written dependsOn recovers the sorted topological dependencies |
| TaskSerialize.NoEnvInWrittenDependsOn | cli/internal/fs/turbo_json.go:782-798 | the written dependsOn has no `$` entry |
| TaskSerialize.EnvRoundTrip | cli/internal/fs/turbo_json.go:770-800 | a sorted duplicate-free env without `$` survives writing and re-gathering |
| TaskSerialize.DotEnvRoundTrip | cli/internal/fs/turbo_json.go:764 | already anchored dotEnv paths are checked back unchanged |
| TaskSerialize.FullBlockFields | cli/internal/fs/turbo_json.go:484-609 | a block with all always-written keys defines those fields, plus the optional ones present |
| TaskSerialize.RereadFields | cli/internal/fs/turbo_json.go:752-793 | a written block, read back, defines the always-written fields and the optional ones present |
| TaskSerialize.RereadEnv | cli/internal/fs/turbo_json.go:770-800 | the env of a written block reads back as the original env |
| TaskSerialize.EnvKeyOfSortedList | cli/internal/fs/turbo_json.go:550-559 | an env key holding a sorted, duplicate-free, `$`-free list, with no `$` dependencies, parses to that list |
| TaskSerialize.RereadOptionalKeys | cli/internal/fs/turbo_json.go:764-793 | pass-through env and dotEnv read back as they were, absence included |
| TaskSerialize.RoundTrip | cli/internal/fs/turbo_json.go:739-803 | for a normalized definition, parsing its serialized block gives it back with the always-written fields defined and inputs sorted |
| TaskSerialize.MergeOfFullyDefined | cli/internal/fs/turbo_json.go:417-471 | merging one block that defines every written field gives its definition |
| TaskSerialize.MergedRoundTrip | cli/internal/fs/turbo_json.go:417-471 | parse after serialize, merged alone, reproduces the definition with inputs sorted |
| TaskSerialize.UnprefixedClean | cli/internal/fs/turbo_json.go:524-548 | no entry kept as a plain dependency starts with a removed prefix |
| TaskSerialize.ParsedEnvClean | cli/internal/fs/turbo_json.go:534-559 | parsed env is normalized when no dependency starts with `$$` |
| TaskSerialize.ParsedEnvNormal | cli/internal/fs/turbo_json.go:534-559 | an `env` key that parses, with no `$$` dependency, gives a sorted duplicate-free list without `$` entries |
| TaskSerialize.ParsedInclusionsClean | cli/internal/fs/turbo_json.go:491-503 | parsed inclusions never start with `!` |
| TaskSerialize.ParsedTasksClean | cli/internal/fs/turbo_json.go:534-545 | parsed task dependencies never start with `$` or `^` |
| TaskSerialize.ParsedOptionalKeysClean | cli/internal/fs/turbo_json.go:561-587 | parsed pass-through env is normalized and parsed dotEnv paths are anchored when the path check is idempotent |
| TaskSerialize.ParsedIsNormalized | cli/internal/fs/turbo_json.go:475-614 | every parsed definition is normalized, so the round trip applies to it, given an idempotent path check and no `$$` dependency |
| TaskSerialize.ParsedOutputsSorted | cli/internal/fs/turbo_json.go:510-548 | parsed outputs and dependency lists are sorted |
| TaskSerialize.MergedIsNormalized | cli/internal/fs/turbo_json.go:417-471 | merging normalized definitions gives a normalized definition |
| TaskSerialize.DoubleEnvPrefixParses | cli/internal/fs/turbo_json.go:534-559 | `dependsOn: ["$$X"]` parses, with env `["$X"]` |
| TaskSerialize.WrittenEnvPrefixRejected | cli/internal/fs/turbo_json.go:770-800 | a definition with env `["$X"]` is written with `$X` under `env`, and that block fails to parse with the error naming `$X` and `env` |
| TaskSerialize.DoubleEnvPrefixBreaksRoundTrip | cli/internal/fs/turbo_json.go:534-559 | `dependsOn: ["$$X"]` parses, but its serialized block then fails to parse |
| TurboJson.DecodePipeline | cli/internal/fs/turbo_json.go:652-655 | decoding the pipeline object block by block computes `DecodedPipeline` |
| TurboJson.DecodedPipelineFailure | cli/internal/fs/turbo_json.go:652-655 | decoding fails exactly when some block fails, with the error of the first failing block |
| TurboJson.DecodedPipelineEntries | cli/internal/fs/turbo_json.go:652-655 | the decoded pipeline has exactly the entries' keys; each holds the parse of its last block |
| TurboJson.DecodedPipelineKeys | cli/internal/fs/turbo_json.go:652-655 | the decoded pipeline's keys are exactly the keys of the entries |
| TurboJson.DecodedPipelineLastWins | cli/internal/fs/turbo_json.go:652-655 | the key of an entry that is not repeated later holds that entry's parsed block |
| TurboJson.SplitGlobalDependencies | cli/internal/fs/turbo_json.go:669-679 | `$x` entries add `x` to the environment set; every other entry goes to the file set |
| TurboJson.SplitStep | cli/internal/fs/turbo_json.go:669-679 | one more entry joins the environment names (without its `$`) or the files, never both |
| TurboJson.UnmarshalTurboJSON | cli/internal/fs/turbo_json.go:651-716 | the whole document parse computes `TurboJSONFromRaw` |
| TurboJson.TurboJSONFailsIff | cli/internal/fs/turbo_json.go:651-704 | fails exactly when a block fails, `globalEnv` or `globalPassThroughEnv` has a `$` entry, or a `globalDotEnv` path is invalid |
| TurboJson.TurboJSONFailureSource | cli/internal/fs/turbo_json.go:651-704 | a failure is the pipeline's if it fails, else `globalEnv`'s, else `globalPassThroughEnv`'s, else `globalDotEnv`'s; the document fails exactly when one of the four parts does |
| TurboJson.GlobalKeyFailures | cli/internal/fs/turbo_json.go:660-704 | `globalEnv` fails exactly on a `$` entry, `globalPassThroughEnv` exactly when present with one, `globalDotEnv` exactly when present with an invalid path |
| TurboJson.GlobalDotEnvFailure | cli/internal/fs/turbo_json.go:693-702 | a failing `globalDotEnv` is present and its error names its first invalid path, all earlier paths being valid |
| TurboJson.TurboJSONErrorOrder | cli/internal/fs/turbo_json.go:651-704 | pipeline errors first, then the first `$` entry of `globalEnv`, then that of `globalPassThroughEnv`, then the first invalid path of `globalDotEnv` |
| TurboJson.GlobalDependenciesSplit | cli/internal/fs/turbo_json.go:657-691 | `globalEnv` holds the `globalEnv` values and each `x` of `$x` in `globalDependencies`; `globalDeps` holds the other entries; both sorted and duplicate-free |
| TurboJson.GlobalLists | cli/internal/fs/turbo_json.go:669-691 | the parsed `globalEnv` is the sorted set of `globalEnv` and the stripped `$` dependencies; `globalDeps` the sorted set of the other dependencies |
| TurboJson.GlobalEnvMembers | cli/internal/fs/turbo_json.go:669-683 | a name is listed in `globalEnv` exactly when declared there or as `$name` in `globalDependencies` |
| TurboJson.GlobalFileMembers | cli/internal/fs/turbo_json.go:669-691 | a file is listed in `globalDeps` exactly when it is a `globalDependencies` entry without `$` |
| TurboJson.TurboJSONKeys | cli/internal/fs/turbo_json.go:685-713 | pass-through env absent exactly when absent, else a sorted set; dotEnv checked in order; pipeline, remote cache options and `extends` copied; space id from `experimentalSpaces` or empty |
| TurboJson.TurboJSONParts | cli/internal/fs/turbo_json.go:685-713 | a parsed document holds the decoded pipeline and the optional global keys as they parse on their own, and copies the remote cache options, `extends` and the space id |
| TurboJson.GlobalPassThroughEnvShape | cli/internal/fs/turbo_json.go:661-688 | `globalPassThroughEnv` stays absent when absent, and otherwise is the declared names sorted, each once |
| TurboJson.GlobalDotEnvShape | cli/internal/fs/turbo_json.go:694-704 | `globalDotEnv` stays absent when absent, and otherwise has one checked path per declared path, in order |
| TurboJson.GlobalDependenciesExample | cli/internal/fs/turbo_json.go:669-691 | `["$FOO", "config.txt"]` gives `globalEnv` `["FOO"]` and `globalDeps` `["config.txt"]` |
| TurboJson.GlobalDependenciesExampleLists | cli/internal/fs/turbo_json.go:669-691 | `["$FOO", "config.txt"]` lists `FOO` as an environment name and `config.txt` as a file |
| TurboJson.ExampleStripped | cli/internal/fs/turbo_json.go:670-673 | of `["$FOO", "config.txt"]` only `$FOO` is an environment name, `FOO` |
| TurboJson.ExampleUnprefixed | cli/internal/fs/turbo_json.go:674-679 | of `["$FOO", "config.txt"]` only `config.txt` is a file |
| TurboJson.GlobalDependenciesExampleKeys | cli/internal/fs/turbo_json.go:657-704 | the example document's empty pipeline and absent optional keys parse; its `globalEnv` is `["FOO"]` |
| TurboJson.TurboJSONFromParts | cli/internal/fs/turbo_json.go:651-716 | a document whose pipeline and fallible global keys parse is assembled from those parts, with the other keys copied |
| TurboJson.MarshalTurboJSON | cli/internal/fs/turbo_json.go:723-737 | globals copied, pipeline made pristine, `extends` not written, space written exactly when the id is non-empty and read back as the same id |
| TurboJson.Validate | cli/internal/fs/turbo_json.go:284-292 | the errors of all validations, concatenated in order |
| TurboJson.NoErrorsIffAllPass | cli/internal/fs/turbo_json.go:284-292 | no errors exactly when every validation reports none |
| TurboJson.AllErrorsConcat | cli/internal/fs/turbo_json.go:284-292 | validating with two lists gives the errors of the first followed by those of the second |
| LoadConfig.PackageJSON.constructor | cli/internal/fs/turbo_json.go:215-220 | a root package.json with its scripts and legacy `turbo` key |
| LoadConfig.RootPipeline | cli/internal/fs/turbo_json.go:247-261 | fails exactly when some key is a package task, naming one; otherwise the keys are the root ids of the old keys, each holding the entry of a key with that root id |
| LoadConfig.AddScriptTasks | cli/internal/fs/turbo_json.go:263-274 | keys only grow; a new or changed entry is the cache-false script task of a script the old pipeline did not declare; every script ends up declared; old entries kept when root ids name their scripts |
| LoadConfig.RekeyedDeclares | cli/internal/fs/turbo_json.go:252-261 | a task that a key of turbo.json names through its root id is declared by the re-keyed pipeline |
| LoadConfig.SynthesizedFromScripts | cli/internal/fs/turbo_json.go:238-274 | without turbo.json the keys are exactly the scripts' root ids, when those ids name their own scripts and no other |
| LoadConfig.LoadTurboConfig | cli/internal/fs/turbo_json.go:215-276 | legacy key dropped; without synthesis the file or its error; with synthesis a missing file starts empty, other read errors are returned, package tasks are rejected, other fields are kept, and every script is declared; every entry is either a file entry under that key's root id or the cache-false script task of a script the file does not declare; a file key whose root id is unique keeps its entry under that id; without turbo.json the keys are exactly the scripts' root ids |
| RunSummary.NewTaskCacheSummary | cli/internal/runsummary/task_summary.go:26-52 | status HIT exactly on a hit and MISS otherwise; source only on a hit; time saved copied; local and remote flags for hits from each cache |
| RunSummary.DeprecatedFlagsConsistent | cli/internal/runsummary/task_summary.go:42-49 | the flags are never both set, both clear on a miss, and each agrees with status and source |
| RunSummary.OtherSourceSetsNoFlag | cli/internal/runsummary/task_summary.go:48-49 | a hit from any other source sets neither flag |
| RunSummary.StripNames | cli/internal/runsummary/task_summary.go:109-116 | same length, and element `i` is the stripped element `i` |
| RunSummary.StripNamesIdempotent | cli/internal/runsummary/task_summary.go:109-116 | stripping twice equals stripping once when `StripPackageName` is idempotent |
| RunSummary.StripAll | cli/internal/runsummary/task_summary.go:109-116 | the loop that fills a new list index by index computes `StripNames` |
| RunSummary.TaskSummary.CleanForSinglePackage | cli/internal/runsummary/task_summary.go:108-125 | task id and task become the stripped old task id; dependencies and dependents are stripped element by element; directory and package are cleared; nothing else changes |

## Left out

- Byte-level JSON and JSONC decoding are not modelled, nor their errors for malformed text or wrong types. A decoded block or document is an input record of optional fields. For the pipeline it is a list of entries in document order.
- Reading turbo.json from disk is not modelled (`readTurboConfig`, `readTurboJSON`, `TaskSummary.GetLogs`). `LoadTurboConfig` takes the outcome of the read as a value.
- `log.Printf` warnings and `filepath.IsAbs` are not modelled: they only produce output.
- `turbopath`, `util` and the `cache` package are outside this model. Their helpers are parameters. The cache event and source names are assumed to be `HIT`, `MISS`, `LOCAL` and `REMOTE`; only their distinctness is used.
- `util.TaskOutputMode` is an unbounded natural number: its enumeration is not visible. So the model's `outputMode` never fails to parse, while the source's decoder for `util.TaskOutputMode` can reject an unknown value.
- Go map iteration order is not modelled. Where the source's choice depends on it, the model picks arbitrarily. This affects which package task `RootPipeline` reports and which of two keys with the same root id wins.
- On an error, Go's `UnmarshalJSON` has already written some fields of the receiver. The model returns only the error.
- `makeRawTask` sorts the caller's `inputs` and `passThroughEnv` slices in place, because the output aliases them. The model computes a new value and does not capture that aliasing.
- For the non-optional lists, a nil slice and an empty slice are the same value. Only `passThroughEnv`, `dotEnv`, `globalPassThroughEnv` and `globalDotEnv` keep the distinction.
- The empty `taskDefinitionExperiments` struct is not represented. `experimentalFields` is a set that parsing leaves empty.
- `TaskOutputs.Sort` (`turbo_json.go:301-304`) is not modelled: no modelled operation calls it.
- `TaskSummary.Execution` is not modelled, because its type is not visible. The path and environment types of `TaskSummary` are plain strings.
- Error messages are constructors: `ConfigNotFound`, `ReadError`, `PackageTaskInSingleWorkspace`, `InvalidEnvPrefix`, `InvalidPath`.
- LoadConfig.LoadTurboConfig: that file entries are kept is stated only when every script's root id names that script, and that the synthesized keys are exactly the scripts' root ids only when, in addition, no script's root id names another script. Both hold of `util.RootTaskID` for script names without `#`, which the model does not interpret.
- LoadConfig.AddScriptTasks: the promise that existing entries are not altered is stated only when every script's root id names that script. That is true of `util.RootTaskID` for names without `#`, but the model leaves the function uninterpreted.
- TaskSerialize.RoundTrip: stated for normalized definitions. `TaskSerialize.ParsedIsNormalized` shows that every parsed definition is normalized unless a dependency starts with `$$`. `TaskSerialize.DoubleEnvPrefixBreaksRoundTrip` shows that case does not round-trip.

# processVercelOutput — a Dafny model of the next-on-pages build-output merge

`processVercelOutput` in next-on-pages takes four inputs:

- a Vercel build config: a version, an ordered route list, and optional per-file overrides;
- the list of static asset paths;
- the prerendered-file data: headers plus alias paths, per asset;
- the function entrypoints.

It produces two things:

1. **Route buckets.** The route list carries `{handle: <phase>}` markers. The engine splits the list into seven phase buckets: `none`, `filesystem`, `miss`, `rewrite`, `resource`, `hit`, `error`. A rule goes into the bucket of the last marker before it, or into `none` when no marker precedes it. The markers themselves go into no bucket.
2. **The build output table.** Each path maps to one of four items: `static`, `function{entrypoint}`, `middleware{entrypoint}` or `override{path, headers}`. The table is built in four fixed stages:
   1. Seed the assets.
   2. Register the functions. `/middleware` becomes the middleware, under the key `middleware`.
   3. Apply the config overrides. Each turns `/<file>` into an override carrying a content-type header. It also adds the alias `/<path>`, and adds `/` as well when that path's last segment is `index`.
   4. Apply the prerendered data. Its headers *replace* the headers of an existing override. On a static asset it creates an override. Each declared alias then points at the same record.

Override aliases share one mutable record. The model reproduces this with an arena of override records indexed by id. The path table stores either a plain entry or the id of a record. So a header change made once is seen through every alias, and `View` resolves the ids to the items the router reads.

Modules:

- `wrappers.dfy`: `Option`.
- `routes.dfy` (`Routes`): the bucketing. It is a pure left fold, `Fold` / `Bucketize`. `Reference` is an independent definition that reads from the back of the list, and the two are proved equal.
- `build_output.dfy` (`BuildOutput`): the table as values.
  - Types: `Table`, `Entry` and `Item`.
  - Stages: `SeedAssets`, `SeedFunctions`, `ApplyOverrides`, `ApplyPrerendered`, and the whole pipeline `Output`.
  - Lemmas: what each stage does to what the router sees.
- `output_table.dfy` (`OutputTables`): the class `OutputTable`. Its fields, the record arena and the path map, are updated in place by one method per stage. Each method is proved to reach exactly the state the matching `BuildOutput` function describes.
- `processing.dfy` (`Processing`): `ProcessVercelOutput`, the entry point. It buckets the routes and runs the four stages on one `OutputTable`.
- `scenarios.dfy` (`Scenarios`): the three scenarios of the repository's tests, computed on the model.

Behaviour comes from the repository's tests of the engine. The implementation `packages/next-on-pages/src/buildApplication/processVercelOutput.ts` is not part of this model.

## Model

| member | source | states |
|---|---|---|
| `Routes.EmptyBuckets` | packages/next-on-pages/tests/src/buildApplication/processVercelOutput.test.ts:111-119 | all seven phase buckets are present and every one is empty |
| `Routes.Fold` | packages/next-on-pages/tests/src/buildApplication/processVercelOutput.test.ts:16-23 | walking any route list whose markers name known phases keeps the current phase a known phase and the bucket map keyed by exactly the seven phases |
| `Routes.Step` | packages/next-on-pages/tests/src/buildApplication/processVercelOutput.test.ts:16-23 | a marker switches the current phase to the one it names and leaves every bucket as it is; a rule is appended to the bucket of the current phase, and the phase and every other bucket are unchanged |
| `Routes.Bucketize` | packages/next-on-pages/tests/src/buildApplication/processVercelOutput.test.ts:43-53 | the bucketed routes always carry all seven phases as keys, however many rules or markers the list holds |
| `Routes.FoldConcat` | packages/next-on-pages/tests/src/buildApplication/processVercelOutput.test.ts:16-23 | bucketing a concatenated route list equals bucketing the second half from the state the first half leaves, so the split is a streaming fold |
| `Routes.FoldMatchesReference` | packages/next-on-pages/tests/src/buildApplication/processVercelOutput.test.ts:16-23 | the left fold agrees with the independent definition: each phase's bucket is the rules, in order, whose nearest preceding marker names that phase (none for `none`) |
| `Routes.NoMarkersAllInNone` | packages/next-on-pages/tests/src/buildApplication/processVercelOutput.test.ts:80 | a route list without markers (the empty list included) lands whole and in order in `none`, and every other bucket is empty |
| `Routes.BucketsHoldOnlyRules` | packages/next-on-pages/tests/src/buildApplication/processVercelOutput.test.ts:43-48 | no `{handle}` marker ever appears in any bucket |
| `Routes.FoldRulesOnly` | packages/next-on-pages/tests/src/buildApplication/processVercelOutput.test.ts:43-45 | a run of rules is appended in order to the bucket of the current phase, and the phase and the other buckets are untouched |
| `Routes.TrailingPhase` | packages/next-on-pages/tests/src/buildApplication/processVercelOutput.test.ts:19-23 | the rules that follow a marker are appended in order to that marker's bucket after what it already held, and every other bucket is as before the marker |
| `BuildOutput.View` | packages/next-on-pages/tests/src/buildApplication/processVercelOutput.test.ts:55-71 | the routed items are defined for exactly the keys of the table |
| `BuildOutput.SeedAssets` | packages/next-on-pages/tests/src/buildApplication/processVercelOutput.test.ts:55-56 | the table gains exactly the asset paths, every new one as a static entry; existing keys and the record arena are unchanged |
| `BuildOutput.SeedFunctions` | packages/next-on-pages/tests/src/buildApplication/processVercelOutput.test.ts:27-30 | the table gains exactly the function output keys (`/middleware` renamed `middleware`); keys no function names are unchanged, and so is the arena |
| `BuildOutput.FunctionKey` | packages/next-on-pages/tests/src/buildApplication/processVercelOutput.test.ts:65 | `/middleware` is keyed with its leading slash dropped (`middleware`), every other function path is kept verbatim, and no function ends up under the key `/middleware` |
| `BuildOutput.FunctionSlot` | packages/next-on-pages/tests/src/buildApplication/processVercelOutput.test.ts:57-70 | a function is registered as the middleware exactly when its path is `/middleware`, as a plain function otherwise, and carries its own entrypoint either way |
| `BuildOutput.LastWriteWins` | packages/next-on-pages/tests/src/buildApplication/processVercelOutput.test.ts:57-70 | the entry a function key ends up with is the one its last registration writes: a middleware slot for `/middleware`, a function slot with the entrypoint otherwise |
| `BuildOutput.FunctionsRegistered` | packages/next-on-pages/tests/src/buildApplication/processVercelOutput.test.ts:57-70 | in the final output, `/middleware` is the middleware under `middleware` and any other function is kept verbatim as a function with its entrypoint, unless a later override or prerender names its key |
| `BuildOutput.RegisteredView` | packages/next-on-pages/tests/src/buildApplication/processVercelOutput.test.ts:166-172 | a function slot resolves to `middleware{entrypoint}` for `/middleware` and to `function{entrypoint}` otherwise |
| `BuildOutput.UntouchedAssetStaysStatic` | packages/next-on-pages/tests/src/buildApplication/processVercelOutput.test.ts:160-165 | an asset that no function, override or prerendered entry names is exactly `static` in the final output |
| `BuildOutput.OverrideStep` | packages/next-on-pages/tests/src/buildApplication/processVercelOutput.test.ts:81-88 | applying one override keeps every override entry pointing at a record of the arena |
| `BuildOutput.IsIndexAlias` | packages/next-on-pages/tests/src/buildApplication/processVercelOutput.test.ts:197-204 | a served path earns the extra `/` alias exactly when it ends in the segment `/index`, and the root path itself never does; this is wider than the tests show (see the index line under "Left out") |
| `BuildOutput.OverrideSharesRecord` | packages/next-on-pages/tests/src/buildApplication/processVercelOutput.test.ts:136-143 | an override on an existing asset adds exactly its served alias (and `/` for an `index` path). The asset, the alias and `/` point at ONE new record. That record resolves to the asset's own path with only the declared content type, and every other key resolves as before |
| `BuildOutput.OverrideStepFrame` | packages/next-on-pages/tests/src/buildApplication/processVercelOutput.test.ts:160-172 | an override leaves every key it does not target resolving as before |
| `BuildOutput.ApplyOverrides` | packages/next-on-pages/tests/src/buildApplication/processVercelOutput.test.ts:135-205 | the overrides only append records to the arena and only add or change their target keys; every other key keeps its entry |
| `BuildOutput.ApplyOverridesConcat` | packages/next-on-pages/tests/src/buildApplication/processVercelOutput.test.ts:81-88 | applying the overrides in one run equals applying a prefix and then the rest from the table the prefix leaves, so a result about one override carries to the whole list |
| `BuildOutput.PointAll` | packages/next-on-pages/tests/src/buildApplication/processVercelOutput.test.ts:238 | every declared alias points at the given entry, no other key changes, and exactly the aliases are added |
| `BuildOutput.PrerenderStep` | packages/next-on-pages/tests/src/buildApplication/processVercelOutput.test.ts:231-260 | applying one prerendered entry keeps every override entry pointing at a record of the arena |
| `BuildOutput.PrerenderReplacesHeaders` | packages/next-on-pages/tests/src/buildApplication/processVercelOutput.test.ts:370-389 | prerendered headers on an override replace the record's headers wholesale: every key sharing the record resolves to its path with exactly the prerendered headers, and none of the old headers survive |
| `BuildOutput.PrerenderOverrideAliases` | packages/next-on-pages/tests/src/buildApplication/processVercelOutput.test.ts:233-240 | the declared aliases of a prerendered override are the only keys added, and each shares the override's record with the prerendered headers |
| `BuildOutput.PrerenderOverrideFrame` | packages/next-on-pages/tests/src/buildApplication/processVercelOutput.test.ts:354-369 | keys on other records, or on plain entries, that the prerendered entry does not name resolve as before (the untouched error pages keep their content type) |
| `BuildOutput.PrerenderConvertsStatic` | packages/next-on-pages/tests/src/buildApplication/processVercelOutput.test.ts:390-409 | on a static asset, prerendered data creates an override whose path is the asset key itself; each declared alias shares it, and with no aliases no key is added |
| `BuildOutput.PrerenderStaticFrame` | packages/next-on-pages/tests/src/buildApplication/processVercelOutput.test.ts:337-346 | converting a static asset leaves every key other than the asset and its aliases resolving as before |
| `BuildOutput.ApplyPrerendered` | packages/next-on-pages/tests/src/buildApplication/processVercelOutput.test.ts:299-410 | prerendered data only grows the arena and only adds or re-points its own paths and aliases; every other key keeps its entry |
| `BuildOutput.ApplyPrerenderedConcat` | packages/next-on-pages/tests/src/buildApplication/processVercelOutput.test.ts:231-260 | applying the prerendered entries in one run equals applying a prefix and then the rest from the table the prefix leaves |
| `BuildOutput.LaterStagesKeep` | packages/next-on-pages/tests/src/buildApplication/processVercelOutput.test.ts:160-172 | a seeded key that no override or prerendered entry names ends the pipeline with its seeded entry |
| `BuildOutput.Output` | packages/next-on-pages/tests/src/buildApplication/processVercelOutput.test.ts:55-71 | every asset and function key is in the output; every output key is an asset, a function key, an override target or a prerender target; and every override entry names an arena record |
| `OutputTables.OutputTable.constructor` | packages/next-on-pages/tests/src/buildApplication/processVercelOutput.test.ts:55 | a fresh table has no keys and no records |
| `OutputTables.OutputTable.SeedAssets` | packages/next-on-pages/tests/src/buildApplication/processVercelOutput.test.ts:55-56 | inserting the assets in place leaves the object in the state `BuildOutput.SeedAssets` gives |
| `OutputTables.OutputTable.SeedFunctions` | packages/next-on-pages/tests/src/buildApplication/processVercelOutput.test.ts:57-70 | registering the functions in place leaves the object in the state `BuildOutput.SeedFunctions` gives |
| `OutputTables.OutputTable.ApplyOverride` | packages/next-on-pages/tests/src/buildApplication/processVercelOutput.test.ts:81-88 | one in-place override reaches the state `BuildOutput.OverrideStep` gives |
| `OutputTables.OutputTable.ApplyOverrides` | packages/next-on-pages/tests/src/buildApplication/processVercelOutput.test.ts:135-205 | the overrides, applied in place in declared order, reach the state `BuildOutput.ApplyOverrides` gives |
| `OutputTables.OutputTable.ApplyPrerender` | packages/next-on-pages/tests/src/buildApplication/processVercelOutput.test.ts:316-325 | one in-place prerendered entry (the record's headers overwritten once) reaches the state `BuildOutput.PrerenderStep` gives |
| `OutputTables.OutputTable.PointAliases` | packages/next-on-pages/tests/src/buildApplication/processVercelOutput.test.ts:238 | pointing the aliases in place leaves the arena alone and makes the path map `BuildOutput.PointAll` of the old one |
| `OutputTables.OutputTable.ApplyPrerendered` | packages/next-on-pages/tests/src/buildApplication/processVercelOutput.test.ts:299-410 | the prerendered entries, applied in place in order, reach the state `BuildOutput.ApplyPrerendered` gives |
| `Processing.ProcessVercelOutput` | packages/next-on-pages/tests/src/buildApplication/processVercelOutput.test.ts:32-53 | the version and the overrides are echoed unchanged, the routes are the phase buckets, and the output table is the four-stage `BuildOutput.Output` |
| `Processing.OverridesOf` | packages/next-on-pages/tests/src/buildApplication/processVercelOutput.test.ts:78-88 | a config that declares overrides has them applied in their listed order, and a config that declares none (as in the first scenario) applies none |
| `Scenarios.FirstScenarioRoutes` | packages/next-on-pages/tests/src/buildApplication/processVercelOutput.test.ts:14-53 | the first scenario's routes bucket into `none`, `filesystem` and `miss` as the test expects, and the other four buckets are empty |
| `Scenarios.FirstScenarioOutput` | packages/next-on-pages/tests/src/buildApplication/processVercelOutput.test.ts:25-71 | the first scenario's output table is exactly the static asset, the function and the middleware under `middleware` |
| `Scenarios.SecondScenario` | packages/next-on-pages/tests/src/buildApplication/processVercelOutput.test.ts:81-205 | the second scenario builds three records, each shared by its asset and its alias (and by `/` for the index page) |
| `Scenarios.SecondScenarioView` | packages/next-on-pages/tests/src/buildApplication/processVercelOutput.test.ts:135-205 | the second scenario's output is exactly the nine expected entries |
| `Scenarios.ThirdScenario` | packages/next-on-pages/tests/src/buildApplication/processVercelOutput.test.ts:211-410 | the third scenario builds five records: the index record has its headers replaced, and the route-group page gets a record shared by its two aliases |
| `Scenarios.ThirdScenarioView` | packages/next-on-pages/tests/src/buildApplication/processVercelOutput.test.ts:299-410 | the third scenario's output is exactly the twelve expected entries (replaced headers at `/index.html`, `/index` and `/`; content type kept on the error pages) |

## Left out

- `processOutputDir` is filesystem staging: it clears and copies the output directory and logs to the console. It is I/O and is not modelled.
- Request-time matching of route `src`/`dest` patterns is not modelled. Rules are opaque records carried into the buckets.
- The iteration order of the output map is not modelled. The tests' comparison ignores it, and the model's table is an unordered map.
- The input maps (functions, prerendered data) are sequences in insertion order. The config overrides are a plain object, and the sequence stands for its enumeration order: integer-like file names first in ascending order, then the other names in insertion order. The model takes that order as given and does not compute it from the names.
- A `{handle}` marker naming an unknown phase is excluded by precondition (`KnownPhases`). The tests never exercise it.
- An override naming an absent asset is a silent no-op. The tests do not exercise this case.
- A prerendered entry on an absent path, or on a function or middleware entry, is a silent no-op. The tests do not exercise these cases.
- Override specs have a required `path` and `contentType`. The model does not say what the engine does when either is missing.
- IsIndexAlias: the `/` alias is added for any served path whose last segment is `index`, so `blog/index` gets `/` too. The tests pin down only the path `index` itself.
- The test harness (vitest, mock-fs, console mocking) is not modelled.
- Integer widths do not arise: only the config version is a number, and it is passed through unchanged.

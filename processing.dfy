/**
 * The merge engine: the build config's routes are split into phase buckets, and the
 * output table is built from the assets, the functions, the config overrides and the
 * prerendered data, in that order.
 */
module Processing {
  import opened Wrappers
  import opened Routes
  import opened BuildOutput
  import opened OutputTables

  /** The build config: its version, ordered routes and optional filename overrides. */
  datatype VercelConfig = VercelConfig(
    version: int,
    routes: seq<Route>,
    overrides: Option<seq<(string, OverrideSpec)>>)

  /** The processed config: the routes bucketed by phase, the overrides echoed unchanged. */
  datatype ProcessedVercelConfig = ProcessedVercelConfig(
    version: int,
    routes: Buckets,
    overrides: Option<seq<(string, OverrideSpec)>>)

  datatype ProcessedVercelOutput = ProcessedVercelOutput(
    vercelConfig: ProcessedVercelConfig,
    vercelOutput: Table)

  /** The overrides of the config, none when it declares none. */
  function OverridesOf(config: VercelConfig): (ovs: seq<(string, OverrideSpec)>)
    ensures config.overrides.Some? ==> ovs == config.overrides.value
    ensures config.overrides.None? ==> ovs == []
  {
    match config.overrides
    case Some(ovs) => ovs
    case None => []
  }

  /** Buckets the routes, then builds the output table in place: assets, functions,
      overrides, prerendered data. */
  method ProcessVercelOutput(config: VercelConfig, assets: seq<string>,
                             prerendered: seq<(string, PrerenderedFileData)>,
                             functions: seq<(string, string)>)
    returns (out: ProcessedVercelOutput)
    requires KnownPhases(config.routes)
    ensures out.vercelConfig.version == config.version
    ensures out.vercelConfig.overrides == config.overrides
    ensures out.vercelConfig.routes == Bucketize(config.routes)
    ensures out.vercelOutput == Output(assets, functions, OverridesOf(config), prerendered)
  {
    var table := new OutputTable();
    table.SeedAssets(assets);
    table.SeedFunctions(functions);
    table.ApplyOverrides(OverridesOf(config));
    table.ApplyPrerendered(prerendered);
    out := ProcessedVercelOutput(
      ProcessedVercelConfig(config.version, Bucketize(config.routes), config.overrides),
      table.State());
  }
}

/**
 * The output table as the merge engine builds it: one object whose record arena and
 * path map are updated in place, stage by stage. Each method is proved to leave the
 * object in the state the corresponding function of BuildOutput describes.
 */
module OutputTables {
  import opened BuildOutput

  class OutputTable {
    var records: seq<OverrideRecord>
    var keys: map<string, Entry>

    function State(): Table
      reads this
    {
      Table(records, keys)
    }

    constructor ()
      ensures State() == Empty
    {
      records := [];
      keys := map[];
    }

    /** Adds a static entry for every asset path not yet in the table. */
    method SeedAssets(assets: seq<string>)
      requires Valid(State())
      modifies this
      ensures State() == BuildOutput.SeedAssets(old(State()), assets)
    {
      var i := 0;
      while i < |assets|
        invariant 0 <= i <= |assets|
        invariant State() == BuildOutput.SeedAssets(old(State()), assets[..i])
      {
        SeedAssetsNext(old(State()), assets, i);
        ghost var before := State();
        if assets[i] !in keys {
          keys := keys[assets[i] := StaticEntry];
        }
        assert State() == SeedAsset(before, assets[i]);
        i := i + 1;
      }
      assert assets[..|assets|] == assets;
    }

    /** Registers every function; `/middleware` is keyed `middleware` as the middleware. */
    method SeedFunctions(fns: seq<(string, string)>)
      requires Valid(State())
      modifies this
      ensures State() == BuildOutput.SeedFunctions(old(State()), fns)
    {
      var i := 0;
      while i < |fns|
        invariant 0 <= i <= |fns|
        invariant State() == BuildOutput.SeedFunctions(old(State()), fns[..i])
      {
        SeedFunctionsNext(old(State()), fns, i);
        var (logical, entrypoint) := fns[i];
        if logical == MiddlewarePath {
          keys := keys["middleware" := MiddlewareEntry(entrypoint)];
        } else {
          keys := keys[logical := FunctionEntry(entrypoint)];
        }
        i := i + 1;
      }
      assert fns[..|fns|] == fns;
    }

    /** One config override: a new record for the asset, shared by its served-path alias. */
    method ApplyOverride(file: string, o: OverrideSpec)
      requires Valid(State())
      modifies this
      ensures State() == OverrideStep(old(State()), file, o)
    {
      var asset := "/" + file;
      if asset in keys {
        var ref := OverrideRef(|records|);
        records := records + [OverrideRecord(asset, map["content-type" := o.contentType])];
        var served := "/" + o.path;
        keys := keys[asset := ref][served := ref];
        if IsIndexAlias(served) {
          keys := keys["/" := ref];
        }
      }
    }

    /** The config overrides, in declared order. */
    method ApplyOverrides(ovs: seq<(string, OverrideSpec)>)
      requires Valid(State())
      modifies this
      ensures State() == BuildOutput.ApplyOverrides(old(State()), ovs)
    {
      var i := 0;
      while i < |ovs|
        invariant 0 <= i <= |ovs|
        invariant Valid(State())
        invariant State() == BuildOutput.ApplyOverrides(old(State()), ovs[..i])
      {
        ApplyOverridesNext(old(State()), ovs, i);
        ApplyOverride(ovs[i].0, ovs[i].1);
        i := i + 1;
      }
      assert ovs[..|ovs|] == ovs;
    }

    /** One prerendered entry: its record's headers are replaced in place (or a static entry
        gets a new record), then every alias is pointed at that record. */
    method ApplyPrerender(path: string, d: PrerenderedFileData)
      requires Valid(State())
      modifies this
      ensures State() == PrerenderStep(old(State()), path, d)
    {
      if path !in keys {
        return;
      }
      match keys[path] {
        case OverrideRef(id) =>
          records := records[id := records[id].(headers := d.headers)];
          PointAliases(d.overrides, OverrideRef(id));
        case StaticEntry =>
          var ref := OverrideRef(|records|);
          records := records + [OverrideRecord(path, d.headers)];
          keys := keys[path := ref];
          PointAliases(d.overrides, ref);
        case _ =>
      }
    }

    /** Every alias, in declared order, is pointed at one entry; the records stay as they are. */
    method PointAliases(paths: seq<string>, e: Entry)
      modifies this
      ensures records == old(records)
      ensures keys == PointAll(old(keys), paths, e)
    {
      var j := 0;
      while j < |paths|
        invariant 0 <= j <= |paths|
        invariant records == old(records)
        invariant keys == PointAll(old(keys), paths[..j], e)
      {
        PointAllNext(old(keys), paths, j, e);
        keys := keys[paths[j] := e];
        j := j + 1;
      }
      assert paths[..|paths|] == paths;
    }

    /** The prerendered entries, in declared order. */
    method ApplyPrerendered(pre: seq<(string, PrerenderedFileData)>)
      requires Valid(State())
      modifies this
      ensures State() == BuildOutput.ApplyPrerendered(old(State()), pre)
    {
      var i := 0;
      while i < |pre|
        invariant 0 <= i <= |pre|
        invariant Valid(State())
        invariant State() == BuildOutput.ApplyPrerendered(old(State()), pre[..i])
      {
        ApplyPrerenderedNext(old(State()), pre, i);
        ApplyPrerender(pre[i].0, pre[i].1);
        i := i + 1;
      }
      assert pre[..|pre|] == pre;
    }
  }
}

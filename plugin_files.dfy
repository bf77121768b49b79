/** Loading the plugin files at start-up (src/cli/cli.ts `loadPluginFiles`). The shipped plugins
    come first, then the files named on the command line, in the order given. Each file is handed
    to the loader its extension selects, and running a plugin file means running the
    `configureParrot` calls it makes, in order. The first file that cannot be loaded stops the
    loading; what the files before it registered stays registered. The file system is a map from
    paths to the `configureParrot` callbacks of the plugin stored there. */
module PluginFiles {
  import opened Outcome
  import opened Strings
  import opened CliConfig
  import opened LookupTable

  /** `defaultLoaders[".js"]` or `defaultLoaders[".ts"]` */
  datatype Loader = JsLoader | TsLoader

  const UnsupportedExtensionPrefix := "Unsupported plugin file extension: "

  /** The loader for a plugin file: JavaScript for `.js` and `.mjs`, TypeScript for `.ts`;
      any other file is refused. */
  function LoaderFor(file: string): (r: Result<Loader>)
    ensures r == Ok(JsLoader) <==> EndsWith(file, ".js") || EndsWith(file, ".mjs")
    ensures r == Ok(TsLoader) <==> !EndsWith(file, ".js") && !EndsWith(file, ".mjs") && EndsWith(file, ".ts")
    ensures r.Err? <==> !EndsWith(file, ".js") && !EndsWith(file, ".mjs") && !EndsWith(file, ".ts")
    ensures r.Err? ==> r.message == UnsupportedExtensionPrefix + file
  {
    if EndsWith(file, ".js") || EndsWith(file, ".mjs") then Ok(JsLoader)
    else if EndsWith(file, ".ts") then Ok(TsLoader)
    else Err(UnsupportedExtensionPrefix + file)
  }

  /** A `configureParrot` callback made by a plugin. */
  type Callback<!SH, !DH> = ParrotConfiguration<SH, DH> -> PartialConfiguration<SH, DH>

  /** The message of a failed `readFile`. */
  function UnreadableFile(file: string): string
  {
    "ENOENT: no such file or directory, open '" + file + "'"
  }

  /** The registry after a plugin's callbacks have run, one after the other. */
  function RunPlugin<SH, DH>(config: ParrotConfiguration<SH, DH>, callbacks: seq<Callback<SH, DH>>): ParrotConfiguration<SH, DH>
    decreases |callbacks|
  {
    if |callbacks| == 0 then config
    else RunPlugin(Configure(config, callbacks[0](config)), callbacks[1..])
  }

  /** The registry after loading, and the message of the failure that stopped it, if any. */
  datatype LoadOutcome<+SH, +DH> = LoadOutcome(config: ParrotConfiguration<SH, DH>, failure: Option<string>)

  /** Loading `files` in order from `disk` into the registry `config`. */
  function LoadFiles<SH, DH>(config: ParrotConfiguration<SH, DH>, files: seq<string>, disk: map<string, seq<Callback<SH, DH>>>)
    : LoadOutcome<SH, DH>
    decreases |files|
  {
    if |files| == 0 then LoadOutcome(config, None)
    else match LoaderFor(files[0])
      case Err(message) => LoadOutcome(config, Some(message))
      case Ok(_) =>
        if files[0] !in disk then LoadOutcome(config, Some(UnreadableFile(files[0])))
        else LoadFiles(RunPlugin(config, disk[files[0]]), files[1..], disk)
  }

  /** `loadPluginFiles(pluginFiles)`: the shipped plugins in `directory`, then the optional
      command-line files. The registry ends as `LoadFiles` says, and the failure, if any, is
      reported. */
  method LoadPluginFiles<SH, DH>(registry: Registry<SH, DH>, directory: string, pluginFiles: Option<seq<string>>,
                                 disk: map<string, seq<Callback<SH, DH>>>)
    returns (failure: Option<string>)
    modifies registry
    ensures var outcome := LoadFiles(old(registry.Configuration()), DefaultPluginConfigFiles(directory) + pluginFiles.GetOr([]), disk);
      registry.Configuration() == outcome.config && failure == outcome.failure
  {
    var files := DefaultPluginConfigFiles(directory);
    if pluginFiles.Some? {
      files := files + pluginFiles.value;
    }
    assert files == DefaultPluginConfigFiles(directory) + pluginFiles.GetOr([]);
    ghost var start := registry.Configuration();
    for i := 0 to |files|
      invariant LoadFiles(start, files, disk) == LoadFiles(registry.Configuration(), files[i..], disk)
    {
      var file := files[i];
      var loader := LoaderFor(file);
      if loader.Err? {
        return Some(loader.message);
      }
      if file !in disk {
        return Some(UnreadableFile(file));
      }
      var callbacks := disk[file];
      ghost var before := registry.Configuration();
      for j := 0 to |callbacks|
        invariant RunPlugin(before, callbacks) == RunPlugin(registry.Configuration(), callbacks[j..])
      {
        registry.ConfigureParrot(callbacks[j]);
        assert callbacks[j..][1..] == callbacks[j + 1..];
      }
      assert callbacks[|callbacks|..] == [];
      assert files[i..][1..] == files[i + 1..];
    }
    assert files[|files|..] == [];
    return None;
  }

  /** Files load strictly in order: loading `first + second` loads `first`, and only when that
      succeeds goes on with `second` from the registry `first` left behind. */
  lemma {:induction false} LoadingIsSequential<SH, DH>(config: ParrotConfiguration<SH, DH>, first: seq<string>, second: seq<string>,
                                                       disk: map<string, seq<Callback<SH, DH>>>)
    ensures var head := LoadFiles(config, first, disk);
      LoadFiles(config, first + second, disk) == if head.failure.Some? then head else LoadFiles(head.config, second, disk)
    decreases |first|
  {
    if |first| == 0 {
      assert first + second == second;
    } else {
      assert (first + second)[0] == first[0];
      assert (first + second)[1..] == first[1..] + second;
      if LoaderFor(first[0]).Ok? && first[0] in disk {
        LoadingIsSequential(RunPlugin(config, disk[first[0]]), first[1..], second, disk);
      }
    }
  }

  /** The shipped plugins are JavaScript files and are loaded before any command-line file: the
      command-line files only run on the registry the shipped ones produced, and only when all three
      loaded. */
  lemma DefaultPluginsLoadFirst<SH, DH>(config: ParrotConfiguration<SH, DH>, directory: string, pluginFiles: seq<string>,
                                        disk: map<string, seq<Callback<SH, DH>>>)
    ensures forall k :: 0 <= k < 3 ==> LoaderFor(DefaultPluginConfigFiles(directory)[k]) == Ok(JsLoader)
    ensures var shipped := LoadFiles(config, DefaultPluginConfigFiles(directory), disk);
      LoadFiles(config, DefaultPluginConfigFiles(directory) + pluginFiles, disk)
        == if shipped.failure.Some? then shipped else LoadFiles(shipped.config, pluginFiles, disk)
  {
    LoadingIsSequential(config, DefaultPluginConfigFiles(directory), pluginFiles, disk);
  }

  /** A file with an unsupported extension stops the loading with its name in the message: the
      files after it are never run, and the registry is the one the files before it produced. */
  lemma UnsupportedFileStopsLoading<SH, DH>(config: ParrotConfiguration<SH, DH>, before: seq<string>, file: string,
                                            after: seq<string>, disk: map<string, seq<Callback<SH, DH>>>)
    requires LoaderFor(file).Err?
    requires LoadFiles(config, before, disk).failure.None?
    ensures LoadFiles(config, before + [file] + after, disk)
      == LoadOutcome(LoadFiles(config, before, disk).config, Some(UnsupportedExtensionPrefix + file))
  {
    assert before + [file] + after == before + ([file] + after);
    LoadingIsSequential(config, before, [file] + after, disk);
  }

  /** The callback of the shipped xray plugin (src/cli/plugins/xray/xray-plugin.ts): the test
      plan source handler under "xray" / "test plan". */
  function XrayPlugin<SH, DH>(testPlan: SH): Callback<SH, DH>
  {
    config => PartialConfiguration(None, Some(map["xray" := Branch(map["test plan" := Leaf(testPlan)])]))
  }

  /** The callback of the shipped Microsoft Teams plugin: the Teams drain handler under
      "microsoft" / "teams". */
  function MicrosoftTeamsPlugin<SH, DH>(teams: DH): Callback<SH, DH>
  {
    config => PartialConfiguration(Some(map["microsoft" := Branch(map["teams" := Leaf(teams)])]), None)
  }

  /** The callback of the shipped stdout plugin: the stdout drain handler under "stdout". */
  function StdOutPlugin<SH, DH>(stdout: DH): Callback<SH, DH>
  {
    config => PartialConfiguration(Some(map["stdout" := Leaf(stdout)]), None)
  }

  lemma RunSinglePlugin<SH, DH>(config: ParrotConfiguration<SH, DH>, callback: Callback<SH, DH>)
    ensures RunPlugin(config, [callback]) == Configure(config, callback(config))
  {
    assert [callback][1..] == [];
  }

  /** The installed package: each shipped plugin file holds its one `configureParrot` call. */
  function ShippedDisk<SH, DH>(directory: string, testPlan: SH, teams: DH, stdout: DH): map<string, seq<Callback<SH, DH>>>
  {
    var files := DefaultPluginConfigFiles(directory);
    map[files[0] := [XrayPlugin(testPlan)], files[1] := [MicrosoftTeamsPlugin(teams)], files[2] := [StdOutPlugin(stdout)]]
  }

  /** Starting from the empty registry, the shipped plugins load without failure and register
      exactly the xray test plan source and the Teams and stdout drains, each reachable by its
      selection path. */
  lemma ShippedPluginsRegister<SH, DH>(directory: string, testPlan: SH, teams: DH, stdout: DH)
    ensures var outcome := LoadFiles(ParrotConfiguration(map[], map[]), DefaultPluginConfigFiles(directory),
                                     ShippedDisk(directory, testPlan, teams, stdout));
      && outcome.failure.None?
      && outcome.config.sources == map["xray" := Branch(map["test plan" := Leaf(testPlan)])]
      && outcome.config.drains == map["microsoft" := Branch(map["teams" := Leaf(teams)]), "stdout" := Leaf(stdout)]
      && Lookup(outcome.config.sources, ["xray", "test plan"]) == Some(testPlan)
      && Lookup(outcome.config.drains, ["microsoft", "teams"]) == Some(teams)
      && Lookup(outcome.config.drains, ["stdout"]) == Some(stdout)
  {
    var files := DefaultPluginConfigFiles(directory);
    var disk := ShippedDisk(directory, testPlan, teams, stdout);
    assert |files[0]| != |files[1]| && |files[0]| != |files[2]| && |files[1]| != |files[2]|;
    assert disk[files[0]] == [XrayPlugin(testPlan)];
    assert disk[files[1]] == [MicrosoftTeamsPlugin(teams)];
    assert disk[files[2]] == [StdOutPlugin(stdout)];
    var empty: ParrotConfiguration<SH, DH> := ParrotConfiguration(map[], map[]);
    var afterXray := RunPlugin(empty, [XrayPlugin(testPlan)]);
    var afterTeams := RunPlugin(afterXray, [MicrosoftTeamsPlugin(teams)]);
    var afterStdOut := RunPlugin(afterTeams, [StdOutPlugin(stdout)]);
    RunSinglePlugin(empty, XrayPlugin(testPlan));
    RunSinglePlugin(afterXray, MicrosoftTeamsPlugin(teams));
    RunSinglePlugin(afterTeams, StdOutPlugin(stdout));
    assert afterXray.sources == map["xray" := Branch(map["test plan" := Leaf(testPlan)])];
    assert afterXray.drains == map[];
    assert afterTeams.sources == afterXray.sources;
    assert afterTeams.drains == map["microsoft" := Branch(map["teams" := Leaf(teams)])];
    assert afterStdOut.sources == afterXray.sources;
    assert afterStdOut.drains == map["microsoft" := Branch(map["teams" := Leaf(teams)]), "stdout" := Leaf(stdout)];
    forall k | 0 <= k < 3
      ensures LoaderFor(files[k]) == Ok(JsLoader)
    {
    }
    var rest := files[1..];
    assert rest[0] == files[1] && rest[1..][0] == files[2] && rest[1..][1..] == [];
    assert LoadFiles(empty, files, disk) == LoadFiles(afterXray, rest, disk);
    assert LoadFiles(afterXray, rest, disk) == LoadFiles(afterTeams, rest[1..], disk);
    assert LoadFiles(afterTeams, rest[1..], disk) == LoadOutcome(afterStdOut, None);
    ShippedTablesResolve(testPlan, teams, stdout);
  }

  lemma ShippedTablesResolve<SH, DH>(testPlan: SH, teams: DH, stdout: DH)
    ensures Lookup(map["xray" := Branch(map["test plan" := Leaf(testPlan)])], ["xray", "test plan"]) == Some(testPlan)
    ensures var drains := map["microsoft" := Branch(map["teams" := Leaf(teams)]), "stdout" := Leaf(stdout)];
      Lookup(drains, ["microsoft", "teams"]) == Some(teams) && Lookup(drains, ["stdout"]) == Some(stdout)
  {
    assert ["xray", "test plan"][1..] == ["test plan"];
    assert ["microsoft", "teams"][1..] == ["teams"];
  }
}

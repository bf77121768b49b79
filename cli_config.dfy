/** The process-wide registry of source and drain handlers (src/cli/cli-config.ts). Plugins add to
    it through `configureParrot`, whose partial result is spread over the current tables. */
module CliConfig {
  import opened Outcome
  import opened Strings
  import opened LookupTable

  datatype ParrotConfiguration<+SH, +DH> = ParrotConfiguration(drains: Table<DH>, sources: Table<SH>)

  /** `Partial<ParrotConfiguration>`: either table may be left out. */
  datatype PartialConfiguration<+SH, +DH> = PartialConfiguration(drains: Option<Table<DH>>, sources: Option<Table<SH>>)

  function KeysOf<H>(update: Option<Table<H>>): set<string>
  {
    if update.Some? then update.value.Keys else {}
  }

  /** `{ ...current, ...update }`: a shallow, right-biased union. A top-level key of the update
      replaces the whole entry of the current table; all other keys keep their entries; an
      omitted update (`...undefined`) adds nothing. */
  function Spread<H>(current: Table<H>, update: Option<Table<H>>): (r: Table<H>)
    ensures r.Keys == current.Keys + KeysOf(update)
    ensures forall k :: k in KeysOf(update) ==> r[k] == update.value[k]
    ensures forall k :: k in current && k !in KeysOf(update) ==> r[k] == current[k]
  {
    match update
    case None => current
    case Some(table) => current + table
  }

  /** The configuration after one `configureParrot` call whose callback returned `partial`. */
  function Configure<SH, DH>(config: ParrotConfiguration<SH, DH>, partial: PartialConfiguration<SH, DH>)
    : ParrotConfiguration<SH, DH>
  {
    ParrotConfiguration(Spread(config.drains, partial.drains), Spread(config.sources, partial.sources))
  }

  /** `PARROT_CONFIGURATION`, with the functions that read and update it. */
  class Registry<SH, DH> {
    var drains: Table<DH>
    var sources: Table<SH>

    /** The registry starts with both tables empty. */
    constructor ()
      ensures drains == map[] && sources == map[]
    {
      drains := map[];
      sources := map[];
    }

    function Configuration(): ParrotConfiguration<SH, DH>
      reads this
    {
      ParrotConfiguration(drains, sources)
    }

    /** `configureParrot(callback)`: the callback sees the configuration as it is before the
        update, and what it returns is spread over each table. */
    method ConfigureParrot(callback: ParrotConfiguration<SH, DH> -> PartialConfiguration<SH, DH>)
      modifies this
      ensures Configuration() == Configure(old(Configuration()), callback(old(Configuration())))
    {
      var newConfiguration := callback(Configuration());
      drains := Spread(drains, newConfiguration.drains);
      sources := Spread(sources, newConfiguration.sources);
    }

    /** `getRegisteredSources()`: the current table of source handlers. */
    method GetRegisteredSources() returns (table: Table<SH>)
      ensures table == sources
    {
      table := sources;
    }

    /** `getRegisteredDrains()`: the current table of drain handlers. */
    method GetRegisteredDrains() returns (table: Table<DH>)
      ensures table == drains
    {
      table := drains;
    }
  }

  const JsExtension := ".js"
  const XrayPluginFile := "xray-plugin" + JsExtension
  const MicrosoftTeamsPluginFile := "microsoft-teams-plugin" + JsExtension
  const StdOutPluginFile := "stdout-plugin" + JsExtension

  /** `DEFAULT_PLUGIN_CONFIG_FILES`: the shipped xray, Microsoft Teams and stdout plugins, in that
      order, all compiled JavaScript files below the registry module's `directory`. */
  function DefaultPluginConfigFiles(directory: string): (files: seq<string>)
    ensures |files| == 3
    ensures forall i :: 0 <= i < |files| ==> EndsWith(files[i], JsExtension)
    ensures EndsWith(files[0], XrayPluginFile)
    ensures EndsWith(files[1], MicrosoftTeamsPluginFile)
    ensures EndsWith(files[2], StdOutPluginFile)
  {
    var xray := directory + "/plugins/xray/";
    var teams := directory + "/plugins/microsoft/teams/";
    var stdout := directory + "/plugins/stdout/";
    EndsWithAppended(xray, XrayPluginFile);
    EndsWithAppended(teams, MicrosoftTeamsPluginFile);
    EndsWithAppended(stdout, StdOutPluginFile);
    EndsWithAppended("xray-plugin", JsExtension);
    EndsWithAppended("microsoft-teams-plugin", JsExtension);
    EndsWithAppended("stdout-plugin", JsExtension);
    EndsWithTransitive(xray + XrayPluginFile, XrayPluginFile, JsExtension);
    EndsWithTransitive(teams + MicrosoftTeamsPluginFile, MicrosoftTeamsPluginFile, JsExtension);
    EndsWithTransitive(stdout + StdOutPluginFile, StdOutPluginFile, JsExtension);
    [xray + XrayPluginFile, teams + MicrosoftTeamsPluginFile, stdout + StdOutPluginFile]
  }

  /** A partial that leaves out a table leaves that table as it was. */
  lemma OmittedTableUnchanged<SH, DH>(config: ParrotConfiguration<SH, DH>, partial: PartialConfiguration<SH, DH>)
    ensures partial.drains.None? ==> Configure(config, partial).drains == config.drains
    ensures partial.sources.None? ==> Configure(config, partial).sources == config.sources
  {
  }

  /** Registration is not a deep merge: registering `microsoft: {slack: s}` over
      `microsoft: {teams: t}` drops the teams handler. */
  lemma {:induction false} ReRegistrationReplacesSubtree<SH, DH>(config: ParrotConfiguration<SH, DH>, t: DH, s: DH)
    requires config.drains == map["microsoft" := Branch(map["teams" := Leaf(t)])]
    ensures var after := Configure(config, PartialConfiguration(Some(map["microsoft" := Branch(map["slack" := Leaf(s)])]), None));
      && Lookup(after.drains, ["microsoft", "teams"]).None?
      && Lookup(after.drains, ["microsoft", "slack"]) == Some(s)
      && after.sources == config.sources
  {
    var after := Configure(config, PartialConfiguration(Some(map["microsoft" := Branch(map["slack" := Leaf(s)])]), None));
    assert after.drains["microsoft"] == Branch(map["slack" := Leaf(s)]);
    assert ["microsoft", "teams"][1..] == ["teams"];
    assert ["microsoft", "slack"][1..] == ["slack"];
  }

  /** Later registrations win per top-level key and unrelated keys are kept: registering
      `{p: h1, r: h0}` and then `{p: h2, q: h3}` leaves exactly `{p: h2, q: h3, r: h0}`. */
  lemma LastWriterWins<SH, DH>(config: ParrotConfiguration<SH, DH>, h0: SH, h1: SH, h2: SH, h3: SH)
    requires config.sources == map[]
    ensures var first := Configure(config, PartialConfiguration(None, Some(map["p" := Leaf(h1), "r" := Leaf(h0)])));
      var second := Configure(first, PartialConfiguration(None, Some(map["p" := Leaf(h2), "q" := Leaf(h3)])));
      second.sources == map["p" := Leaf(h2), "q" := Leaf(h3), "r" := Leaf(h0)] && second.drains == config.drains
  {
    var first := Configure(config, PartialConfiguration(None, Some(map["p" := Leaf(h1), "r" := Leaf(h0)])));
    var second := Configure(first, PartialConfiguration(None, Some(map["p" := Leaf(h2), "q" := Leaf(h3)])));
    assert first.sources.Keys == {"p", "r"};
    assert second.sources.Keys == {"p", "q", "r"};
  }
}

# Parrot: the plugin registry, the command line session and the handlers

Parrot is a command line tool. It collects test results from *sources* (an Xray test plan)
and hands them to *drains* (the console, a Microsoft Teams channel). Sources and drains come
from *handlers*, which plugins register in a process-wide registry of nested lookup tables.

This project models that machinery in Dafny and proves properties of the model:

- **The registry** (`CliConfig`): its shallow, right-biased merge `configureParrot`, the getters and
  the default plugin files.
- **Plugin loading** (`PluginFiles`): the file-extension dispatch, the load order, and the three
  shipped plugins as a concrete witness.
- **The lookup table** (`LookupTable`): the interactive descent `descendIntoTable` and the stored-path
  lookup `retrieveFromTable`, and their round trip.
- **The session** (`Cli`):
  - building a new configuration interactively, with its do-while loops;
  - saving it, and replaying a saved one;
  - collecting the results and handing them to every outlet;
  - the end-to-end theorems that a saved configuration replays to values that serialize exactly as
    they were saved, and that with every environment variable defined the replay succeeds without a
    prompt.
- **The handler obligations** (`Handlers`): the round trips the abstract `SourceHandler` and
  `DrainHandler` classes document, as predicates. A handler is a record of its six operations.
  A handler "must be able to restore" what it serialized. In the model, what it restores
  serializes as stored. When the environment defines every variable, the restore succeeds
  without a prompt, because the omitted details come from the environment.
- **The concrete handlers**:
  - the stdout drain handler (`StdOutDrainHandler`) and the Microsoft Teams drain handler
    (`MicrosoftTeamsDrainHandler`);
  - the two Xray test plan source handlers: `XrayPluginSourceHandler` for the plugin under
    src/cli, and `XrayTestPlanSourceHandler` for the older one under src/sources.

  Each is proved to meet the obligations, and to keep credentials out of what it saves.
- **The stdout summary** (`StdOutDrain`): its section layout, its partition of the results by
  status, and the loops that build the sections.
- **The small helpers**: `convertStatus` (`XrayStatus`) and `getEnv`/`getEnvName` (`Env`).

Everything the program reads from outside arrives as a parameter:

- The process environment is a map.
- The user's answers to the prompts are a scripted sequence inside a `Terminal` value, which every
  step takes and hands on.
- The results a source fetches over the network come from a `fetch` function.
- What a drain is asked to write is recorded as `Delivery` values.
- The files on disk are a map from path to the callbacks a plugin file runs.

The module-level registry is a class, `CliConfig.Registry`, whose methods reassign its two tables.
The loops of the session are methods proved equal to the functions that specify them, and the
properties are lemmas about those functions.

## Model

| member | source | states |
|---|---|---|
| CliConfig.Registry.constructor | src/cli/cli-config.ts:63-66 | the registry starts with both tables empty |
| CliConfig.Spread | src/cli/cli-config.ts:59-60 | the keys are the old keys plus the update's; an updated key takes the update's subtree; every other key keeps its old value |
| CliConfig.Registry.ConfigureParrot | src/cli/cli-config.ts:53-61 | the callback sees the configuration as it was before the call, and both tables become that configuration merged with the callback's partial |
| CliConfig.Registry.GetRegisteredSources | src/cli/cli-config.ts:19-21 | returns the current source table and changes nothing |
| CliConfig.Registry.GetRegisteredDrains | src/cli/cli-config.ts:28-30 | returns the current drain table and changes nothing |
| CliConfig.DefaultPluginConfigFiles | src/cli/cli-config.ts:73-77 | three files, all with the `.js` extension, in the order xray, Microsoft Teams, stdout |
| CliConfig.OmittedTableUnchanged | src/cli/cli-config.ts:59-60 | a partial that leaves out a table leaves that table as it was |
| CliConfig.ReRegistrationReplacesSubtree | src/cli/cli-config.ts:59-60 | registering `microsoft: {slack}` over `microsoft: {teams}` drops `teams`: there is no deep merge |
| CliConfig.LastWriterWins | src/cli/cli-config.ts:59-60 | of two registrations under one key the later wins, and a key that only the earlier one set is kept |
| PluginFiles.LoaderFor | src/cli/cli.ts:69-76 | the JavaScript loader exactly for `.js` and `.mjs`; the TypeScript loader exactly for `.ts` files that are neither; an error naming the file exactly for every other extension |
| PluginFiles.LoadPluginFiles | src/cli/cli.ts:63-79 | the registry and the failure are those of loading the shipped files and then the command-line files, in that order |
| PluginFiles.LoadingIsSequential | src/cli/cli.ts:68-78 | loading `first + second` loads `first`; `second` is loaded only if `first` succeeded, and then from the registry `first` left |
| PluginFiles.DefaultPluginsLoadFirst | src/cli/cli.ts:64-67 | the shipped files use the JavaScript loader and are loaded before any command-line file, which starts from the registry they leave |
| PluginFiles.UnsupportedFileStopsLoading | src/cli/cli.ts:74-76 | a file with an unsupported extension stops loading with the message naming it, and no later file runs |
| PluginFiles.ShippedPluginsRegister | src/cli/plugins/xray/xray-plugin.ts:4-12 | from the empty registry the shipped plugins load without failure; they register `xray -> test plan` as a source, and `microsoft -> teams` and `stdout` as drains |
| LookupTable.DescendIntoTable | src/cli/cli.ts:266-288 | an empty table fails before any prompt; a success consumes exactly one choice per selection, the selections are the answers given, and they lead to the returned handler |
| LookupTable.RetrieveFromTable | src/cli/cli.ts:311-333 | the handler exactly when the path ends on a leaf; otherwise the error message that joins the keys with " -> " |
| LookupTable.DescentFollowsAnswers | src/cli/cli.ts:277-287 | answering with the keys of a path to a handler makes the descent return that handler and that path |
| LookupTable.DescentIntoEmptyTableFails | src/cli/cli.ts:273-276 | a descent whose answers lead into an empty nested table fails there, as at the top |
| LookupTable.HandlerPathsArePrefixFree | src/cli/cli.ts:318-329 | no strict prefix or extension of a path to a handler leads to a handler |
| LookupTable.ResolutionExamples | src/cli/cli.ts:311-333 | in `{a: {b: h1}, c: h2}`, ["a","b"] and ["c"] resolve; ["a"], ["a","b","c"], ["c","d"] and [] fail |
| Cli.Repeat | src/cli/cli.ts:83-90 | a do-while loop collects at least one more item than it started with, and only consumes answers |
| Cli.RepeatKeeps | src/cli/cli.ts:83-99 | whatever every step yields satisfies a property, so everything the loop collects does |
| Cli.Traverse | src/cli/cli.ts:124-127 | a for-of loop appends one result per item to what it had, keeping that |
| Cli.TraverseKeeps | src/cli/cli.ts:124-137 | when each step's result relates to its item, each collected result relates to its item, in order |
| Cli.TraverseLeavesTerminal | src/cli/cli.ts:124-137 | when every item's step succeeds and leaves the terminal as it was, the whole loop succeeds and leaves it as it was |
| Cli.NamedStepBuilds | src/cli/cli.ts:154-159 | building an inlet or outlet and then asking its name only consumes answers |
| Cli.NewSourceFrom | src/cli/cli.ts:145-166 | a new source has at least one inlet, and its selections lead to its handler in the registered table |
| Cli.NewDrainFrom | src/cli/cli.ts:168-189 | a new drain has at least one outlet, and its selections lead to its handler in the registered table |
| Cli.GetNewSource | src/cli/cli.ts:145-166 | the inlet loop computes `NewSourceFrom` |
| Cli.GetNewDrain | src/cli/cli.ts:168-189 | the outlet loop computes `NewDrainFrom` |
| Cli.SerializedSourceOf | src/cli/cli.ts:224-238 | a saved source keeps the name, the selections, and the inlets in order with their names |
| Cli.SerializedDrainOf | src/cli/cli.ts:239-253 | a saved drain keeps the name, the selections, and the outlets in order with their names |
| Cli.SaveFrom | src/cli/cli.ts:215-255 | saving succeeds exactly when a path is typed, and uses "config.json" for an empty line; every source and drain is saved, in order |
| Cli.SerializeConfiguration | src/cli/cli.ts:215-255 | the nested loops compute `SaveFrom` |
| Cli.DeserializedSourceFrom | src/cli/cli.ts:191-201 | selections that lead to no handler give the not-found error; otherwise one restored inlet per stored inlet |
| Cli.DeserializedDrainFrom | src/cli/cli.ts:203-213 | selections that lead to no handler give the not-found error; otherwise one restored outlet per stored outlet |
| Cli.DeserializeSource | src/cli/cli.ts:191-201 | the inlet loop computes `DeserializedSourceFrom` |
| Cli.DeserializeDrain | src/cli/cli.ts:203-213 | the outlet loop computes `DeserializedDrainFrom` |
| Cli.CollectTestResults | src/cli/cli.ts:128-133 | the nested loops gather every inlet's results, source by source |
| Cli.TestResultsInSourceOrder | src/cli/cli.ts:106-112 | the results of earlier sources come first |
| Cli.InletResultsInInletOrder | src/cli/cli.ts:108-111 | within a source, the results of earlier inlets come first |
| Cli.Deliveries | src/cli/cli.ts:113-117 | one write per outlet of every drain, each with the whole list of results |
| Cli.DeliverTestResults | src/cli/cli.ts:138-142 | the nested loops make exactly the writes of `Deliveries` |
| Cli.EveryOutletReceivesResults | src/cli/cli.ts:138-142 | every outlet of every drain is written the whole list |
| Cli.BuildConfiguration | src/cli/cli.ts:82-99 | the interactive build yields at least one source and at least one drain |
| Cli.SaveIfWanted | src/cli/cli.ts:100-105 | a configuration is saved exactly when the user confirms, and then it holds every source and drain as serialized |
| Cli.RunNewConfiguration | src/cli/cli.ts:81-118 | the session's loops compute the fresh run: build, save if wanted, collect, deliver |
| Cli.Replay | src/cli/cli.ts:120-143 | replaying never saves anything |
| Cli.DeserializeSources | src/cli/cli.ts:124-127 | the loop restores the stored sources in stored order |
| Cli.DeserializeDrains | src/cli/cli.ts:134-137 | the loop restores the stored drains in stored order |
| Cli.RunSerializedConfiguration | src/cli/cli.ts:120-143 | the session's loops compute the replay: restore sources, collect, restore drains, deliver |
| Cli.BuiltConfigurationResolves | src/cli/cli.ts:145-189 | every built source has at least one inlet and every built drain at least one outlet, each with selections that lead to its handler |
| Cli.FreshRunDeliversToEveryOutlet | src/cli/cli.ts:106-117 | a fresh run writes to at least one outlet, and every outlet gets the same list |
| Cli.FreshRunSavesEverything | src/cli/cli.ts:100-105 | a saved configuration has at least one source with an inlet and one drain with an outlet, each with selections that resolve |
| Cli.RestoredParametersSerializeAsStored | src/cli/cli.ts:196-199 | inlets or outlets saved by a lawful handler are restored in order, with their names, to values that serialize as stored; with every variable defined the restore succeeds without a prompt |
| Cli.ReplayRestoresSavedSource | src/cli/cli.ts:191-201 | a saved source is restored by the handler that built it, to a source and inlets that serialize exactly as saved; with every variable defined the restore succeeds without a prompt |
| Cli.ReplayRestoresSavedDrain | src/cli/cli.ts:203-213 | a saved drain is restored by the handler that built it, to a drain and outlets that serialize exactly as saved; with every variable defined the restore succeeds without a prompt |
| Cli.RestoredSourcesAsSaved | src/cli/cli.ts:124-127 | every saved source in a list is restored as saved, in order; with every variable defined the whole list is restored without a prompt |
| Cli.RestoredDrainsAsSaved | src/cli/cli.ts:134-137 | every saved drain in a list is restored as saved, in order; with every variable defined the whole list is restored without a prompt |
| Cli.FreshRunSavesReplayableConfiguration | src/cli/cli.ts:81-143 | a configuration saved by a fresh run, replayed with the same registry, restores every source and drain with all inlets and outlets, in order and with names, to values that serialize exactly as saved; with every variable defined both restores succeed without a prompt |
| Cli.SavedConfigurationReplays | src/cli/cli.ts:81-143 | a configuration saved by a fresh run replays to the end, without a prompt, with the same registry and every variable defined |
| Terminal.Terminal.Next | src/cli/cli.ts:150-152 | consuming an answer keeps the environment and drops exactly the first answer |
| Terminal.Terminal.Select | src/cli/cli.ts:277-280 | `select` succeeds exactly on a choice among the offered keys, and returns it |
| Terminal.Terminal.Input | src/cli/cli.ts:150-152 | `input` succeeds exactly on a typed line, and returns it |
| Terminal.Terminal.InputWithDefault | src/cli/cli.ts:216-219 | an empty line stands for the default |
| Terminal.Terminal.Confirm | src/cli/cli.ts:161-163 | `confirm` succeeds exactly on a yes or no, and returns it |
| Terminal.Terminal.EnvOrInput | src/cli/plugins/microsoft/teams/microsoft-teams-drain-handler.ts:49-54 | a defined variable is taken without a prompt, even when empty; otherwise the user is asked |
| Terminal.PromptsOnlyConsume | src/cli/cli.ts:145-166 | every prompt only consumes answers and leaves the environment alone |
| Terminal.PrecedesTransitive | src/cli/cli.ts:145-166 | consuming answers twice is consuming answers |
| Serialized.GetString | src/cli/plugins/xray/test-plan/xray-test-plan-source-handler.ts:104-156 | stand-in for reading a string property such as `kind`, `jira.url` or `xray.authentication` through an unchecked cast: the read succeeds exactly when the object has the property as a string, and gives that string |
| Serialized.GetBool | src/cli/plugins/stdout/stdout-drain-handler.ts:35-38 | stand-in for taking `useColor` and `useUnicode` from a stored outlet through an unchecked cast: the read succeeds exactly when the object has the property as a boolean, and gives that boolean |
| Serialized.GetField | src/cli/plugins/xray/test-plan/xray-test-plan-source-handler.ts:104-156 | stand-in for reading a nested object such as `jira` or `xray` through an unchecked cast: the read succeeds exactly when the object has the property, and gives its value |
| Env.EnvName | src/util/env.ts:53-74 | every variable name is non-empty |
| Env.EnvNameInjective | src/util/env.ts:53-74 | no two kinds share a variable name |
| Env.GetEnv | src/util/env.ts:30-45 | throws exactly when the value is undefined or empty and the flag is not `false`, with the message for that variable; otherwise returns the raw value |
| Env.UndefinedMessageNamesVariable | src/util/env.ts:34-42 | the message starts by naming the missing variable |
| Env.NonEmptyValueReturned | src/util/env.ts:32-44 | a non-empty value is returned unchanged whatever the flag |
| Env.NeverThrowsWhenFlagFalse | src/util/env.ts:29-44 | with the flag `false` the lookup never throws and returns the raw value, possibly undefined or "" |
| XrayStatus.ConvertStatus | src/sources/xray/xray-status.ts:9-23 | "PASSED"/"PASS", "FAILED"/"FAIL", "TO DO"/"TODO" and "SKIPPED" map exactly to pass, fail, pending and skipped; every other string is the "Unknown Xray status" error naming it |
| XrayStatus.LowerCaseIsUnknown | src/sources/xray/xray-status.ts:9-23 | lower-case spellings are errors |
| XrayClients.ParseJiraAuthentication | src/cli/plugins/xray/util/constants.ts:1-2 | exactly the three Jira authentication names parse, each to the kind of that name |
| XrayClients.ParseXrayAuthentication | src/cli/plugins/xray/util/constants.ts:4-5 | exactly the three Xray authentication names parse, each to the kind of that name |
| XrayClients.AuthenticationNamesRoundTrip | src/cli/plugins/xray/util/constants.ts:1-5 | every kind's name is known and parses back to that kind |
| Strings.DigitChar | src/cli/plugins/stdout/stdout-drain.ts:77 | a digit character with the given value |
| Strings.NatToString | src/cli/plugins/stdout/stdout-drain.ts:77 | the decimal rendering of a count is non-empty, all digits, with no leading zero |
| Strings.NatToStringRoundTrip | src/cli/plugins/stdout/stdout-drain.ts:77 | the rendered digits read back as the count |
| StdOutDrain.WithStatus | src/cli/plugins/stdout/stdout-drain.ts:73 | the filter keeps only results of the status, and no more than there were |
| StdOutDrain.ResultLines | src/cli/plugins/stdout/stdout-drain.ts:79-85 | one listed line per result, in order |
| StdOutDrain.SectionLines | src/cli/plugins/stdout/stdout-drain.ts:72-95 | the title counts the results of the status, and is followed by one line per such result, in input order |
| StdOutDrain.SectionMessage | src/cli/plugins/stdout/stdout-drain.ts:72-170 | the push loop of each of the four section builders produces that status's section |
| StdOutDrain.SectionLinesDetermined | src/cli/plugins/stdout/stdout-drain.ts:72-95 | any lines made of the title and one line per result of the status, in order, are the section's lines |
| StdOutDrain.WriteTestResults | src/cli/plugins/stdout/stdout-drain.ts:40-52 | the returned string is the printed summary: "", the header, then passing, pending, skipped and failed sections, joined by blank lines |
| StdOutDrain.WithStatusDistributes | src/cli/plugins/stdout/stdout-drain.ts:73 | filtering a concatenation filters each part, so input order is kept |
| StdOutDrain.WithStatusKeepsExactly | src/cli/plugins/stdout/stdout-drain.ts:73 | a section lists each result of its status as often as it occurs, and no other result |
| StdOutDrain.SectionsPartitionResults | src/cli/plugins/stdout/stdout-drain.ts:41-49 | the four sections together list every result exactly once, so their counts add up to the total of the header |
| StdOutDrain.PlainReportIgnoresPalette | src/cli/plugins/stdout/stdout-drain.ts:64-68 | without colour the summary does not depend on the styling |
| StdOutDrain.PlainSectionIgnoresPalette | src/cli/plugins/stdout/stdout-drain.ts:86-93 | without colour a section does not depend on the styling |
| StdOutDrainHandler.BuildOutlet | src/cli/plugins/stdout/stdout-drain-handler.ts:23-50 | two confirmations make an outlet, the first for colour, the second for Unicode |
| StdOutDrainHandler.DecodeOutlet | src/cli/plugins/stdout/stdout-drain-handler.ts:35-38 | a stored outlet is read exactly when it holds both flags, and then holds them |
| StdOutDrainHandler.DrainCodec | src/cli/plugins/stdout/stdout-drain-handler.ts:7-21 | nothing of a drain is stored; building and deserializing give the drain with the empty configuration |
| StdOutDrainHandler.OutletRoundTrip | src/cli/plugins/stdout/stdout-drain-handler.ts:30-38 | the outlet is stored unchanged and comes back unchanged, through the file too |
| StdOutDrainHandler.BuildOutletAsksColourFirst | src/cli/plugins/stdout/stdout-drain-handler.ts:23-28 | answering yes or no twice gives the outlet with those two flags, in that order |
| StdOutDrainHandler.HandlerIsLawful | src/cli/cli-drain-handler.ts:38-89 | the handler meets the drain handler obligations: it only consumes answers, restores what it serialized, and restores without a prompt |
| MicrosoftTeamsDrainHandler.GetWebhookUrl | src/cli/plugins/microsoft/teams/microsoft-teams-drain-handler.ts:48-55 | a defined `MICROSOFT_TEAMS_WEBHOOK_URL` is used without a prompt, even when empty; otherwise the typed URL |
| MicrosoftTeamsDrainHandler.DrainCodec | src/cli/plugins/microsoft/teams/microsoft-teams-drain-handler.ts:12-26 | nothing of a drain is stored; building and deserializing give the drain with the empty configuration |
| MicrosoftTeamsDrainHandler.WebhookUrlNeverStored | src/cli/plugins/microsoft/teams/microsoft-teams-drain-handler.ts:34-37 | every outlet is stored as the empty object, so the webhook URL never reaches the file |
| MicrosoftTeamsDrainHandler.DeserializeOutletIsBuildOutlet | src/cli/plugins/microsoft/teams/microsoft-teams-drain-handler.ts:28-46 | restoring an outlet obtains the URL exactly as building one does, ignoring what was stored |
| MicrosoftTeamsDrainHandler.HandlerIsLawful | src/cli/cli-drain-handler.ts:38-89 | the handler meets the drain handler obligations; a stored outlet is restored without a prompt when the webhook URL variable is defined |
| XrayPluginSourceHandler.IsJiraServerSource | src/cli/plugins/xray/test-plan/xray-test-plan-source-handler.ts:179-185 | true exactly when "server" is chosen |
| XrayPluginSourceHandler.GetJiraServerCredentials | src/cli/plugins/xray/test-plan/xray-test-plan-source-handler.ts:209-248 | the credentials have the shape of the chosen authentication |
| XrayPluginSourceHandler.GetXrayBasicCredentials | src/cli/plugins/xray/test-plan/xray-test-plan-source-handler.ts:256-271 | basic Xray credentials are a username and a password |
| XrayPluginSourceHandler.GetXrayClientCredentials | src/cli/plugins/xray/test-plan/xray-test-plan-source-handler.ts:272-288 | client credentials carry the path "/api/v2/authenticate" |
| XrayPluginSourceHandler.ServerXrayCredentials | src/cli/plugins/xray/test-plan/xray-test-plan-source-handler.ts:35-41 | a non-empty Jira personal access token is reused as the Xray token without a prompt; otherwise basic Xray credentials |
| XrayPluginSourceHandler.BuildSource | src/cli/plugins/xray/test-plan/xray-test-plan-source-handler.ts:18-69 | a server source exactly when "server" is chosen; a server's Xray URL is Jira's, with "pat" exactly when the token is reused; a cloud uses client credentials |
| XrayPluginSourceHandler.SerializeSource | src/cli/plugins/xray/test-plan/xray-test-plan-source-handler.ts:71-99 | kind "server" exactly for a source with a Jira client, and version "v2" exactly for a Version2Client |
| XrayPluginSourceHandler.DeserializeSource | src/cli/plugins/xray/test-plan/xray-test-plan-source-handler.ts:101-159 | a restored source is well formed and serializes back to exactly what was stored |
| XrayPluginSourceHandler.BuildInlet | src/cli/plugins/xray/test-plan/xray-test-plan-source-handler.ts:161-167 | the inlet is the typed test plan key |
| XrayPluginSourceHandler.DecodeConfiguration | src/cli/plugins/xray/test-plan/xray-test-plan-source-handler.ts:104 | a stored configuration is read as a server configuration exactly when its kind is "server" |
| XrayPluginSourceHandler.DecodeInlet | src/cli/plugins/xray/test-plan/xray-test-plan-source-handler.ts:317-319 | a stored inlet is read exactly when it holds a string `testPlanKey` |
| XrayPluginSourceHandler.SerializationOmitsCredentials | src/cli/plugins/xray/test-plan/xray-test-plan-source-handler.ts:293-315 | sources that differ only in their credentials are saved alike |
| XrayPluginSourceHandler.RoundTripRestoresSource | src/cli/plugins/xray/test-plan/xray-test-plan-source-handler.ts:101-159 | restoring a saved source gives back its kind, URLs, authentications and, for a server, its API version |
| XrayPluginSourceHandler.RestoredBuiltSourceKeepsXrayKind | src/cli/plugins/xray/test-plan/xray-test-plan-source-handler.ts:124-128 | a built source is restored as a built one as long as the restored Jira credentials lead to the same kind of Xray credentials |
| XrayPluginSourceHandler.DeserializeFromEnvironment | src/cli/plugins/xray/test-plan/xray-test-plan-source-handler.ts:209-290 | with every variable defined, restoring succeeds without a prompt |
| XrayPluginSourceHandler.FileRoundTrip | src/cli/plugins/xray/test-plan/xray-test-plan-source-handler.ts:293-319 | the serialized configuration and inlet come back from their JSON form |
| XrayPluginSourceHandler.InletRoundTrip | src/cli/plugins/xray/test-plan/xray-test-plan-source-handler.ts:169-177 | only the test plan key is kept, and it comes back |
| XrayPluginSourceHandler.HandlerIsLawful | src/cli/cli-source-handler.ts:38-91 | the handler meets the source handler obligations; a stored source is restored without a prompt when the credential variables are defined |
| XrayTestPlanSourceHandler.IsJiraServerSource | src/sources/xray/test-plan/xray-test-plan-source-handler.ts:180-186 | true exactly when "server" is chosen |
| XrayTestPlanSourceHandler.GetJiraCredentials | src/sources/xray/test-plan/xray-test-plan-source-handler.ts:210-268 | the credentials fit the authentication; basic ones are a username and password on a server, an email and an API token in the cloud |
| XrayTestPlanSourceHandler.GetXrayCredentials | src/sources/xray/test-plan/xray-test-plan-source-handler.ts:269-321 | the credentials have the shape of the chosen Xray authentication |
| XrayTestPlanSourceHandler.BuildJira | src/sources/xray/test-plan/xray-test-plan-source-handler.ts:18-71 | the Jira client talks to the Jira URL, with credentials that fit the authentication |
| XrayTestPlanSourceHandler.BuildXray | src/sources/xray/test-plan/xray-test-plan-source-handler.ts:18-71 | the Xray client is of the given kind and talks to the Xray URL, with credentials that fit the authentication |
| XrayTestPlanSourceHandler.BuildSource | src/sources/xray/test-plan/xray-test-plan-source-handler.ts:18-71 | a server source exactly when "server" is chosen, and then Xray shares Jira's URL |
| XrayTestPlanSourceHandler.SerializeSource | src/sources/xray/test-plan/xray-test-plan-source-handler.ts:72-89 | Jira kind "version-2" exactly for a Version2Client; Xray kind "cloud" exactly for a cloud client |
| XrayTestPlanSourceHandler.DeserializeSource | src/sources/xray/test-plan/xray-test-plan-source-handler.ts:90-157 | a cloud source exactly when the stored Xray kind is "cloud"; the restored source is well formed and serializes back to exactly what was stored |
| XrayTestPlanSourceHandler.BuildInlet | src/sources/xray/test-plan/xray-test-plan-source-handler.ts:158-167 | the inlet is the typed test plan key |
| XrayTestPlanSourceHandler.DecodeInlet | src/sources/xray/test-plan/xray-test-plan-source-handler.ts:340-342 | a stored inlet is read exactly when it holds a string `testPlanKey` |
| XrayTestPlanSourceHandler.SerializationOmitsCredentials | src/sources/xray/test-plan/xray-test-plan-source-handler.ts:327-338 | sources that differ only in their credentials are saved alike |
| XrayTestPlanSourceHandler.RoundTripRestoresSource | src/sources/xray/test-plan/xray-test-plan-source-handler.ts:90-157 | restoring a saved source gives back its class, both client kinds, URLs and authentications, and a built source comes back built |
| XrayTestPlanSourceHandler.BasicCredentialsFromEnvironment | src/sources/xray/test-plan/xray-test-plan-source-handler.ts:212-247 | basic credentials come from the username and password variables on a server, and from the email and token variables in the cloud |
| XrayTestPlanSourceHandler.DeserializeFromEnvironment | src/sources/xray/test-plan/xray-test-plan-source-handler.ts:210-321 | with every variable defined, restoring succeeds without a prompt |
| XrayTestPlanSourceHandler.FileRoundTrip | src/sources/xray/test-plan/xray-test-plan-source-handler.ts:327-342 | the serialized configuration and inlet come back from their JSON form |
| XrayTestPlanSourceHandler.InletRoundTrip | src/sources/xray/test-plan/xray-test-plan-source-handler.ts:168-179 | only the test plan key is kept, and it comes back |
| XrayTestPlanSourceHandler.HandlerIsLawful | src/sources/xray/test-plan/xray-test-plan-source-handler.ts:72-179 | the handler meets the source handler obligations of src/cli/cli-source-handler.ts; a stored source is restored without a prompt when the credential variables are defined |

## Left out

- Network access is left out: the Xray sources' `getTestResults` and the Microsoft Teams drain's POST. The results of a source are a `fetch` parameter, and a drain's writes are recorded as `Delivery` values.
- Console output is left out: the "Deserializing" lines, the banner, and printing the stdout summary. The summary is modelled as the returned string, which is what is printed.
- `readFile`, `writeFile`, `JSON.parse` and `JSON.stringify` are left out.
  - A saved configuration is the `Saved` value handed to the file, and a file's plugins are a map from path to callbacks.
  - A missing plugin file gives a modelled "ENOENT" message.
  - A handler's JSON form is a `Json` value. A stored value of the wrong shape fails to decode; this stands in for the TypeScript casts, which do not check.
- The cosmiconfig loaders are left out. A loaded plugin file is the list of `configureParrot` callbacks it runs; the two loaders differ only in name.
- `main`, commander, dotenv and `path.join`'s normalisation are left out. The shipped plugin files are the directory joined with their relative paths by "/".
- `async`/`await` is left out, since the program is sequential.
- The prompts (`select`, `input`, `password`, `confirm`) are a scripted sequence of answers.
  - Running out of answers, or an answer of the wrong kind, gives `Err(PromptUnanswered)`; the real prompt would wait.
  - A `select` default is not modelled: the answer names the choice.
- TypeScript's `any` handler types are not modelled: a registry holds one handler type per table. A registry with handlers of several kinds would use a sum type for them.
- `instanceof` leaf detection and prototype-chain hits of `in` are not modelled: the table is a tagged `Leaf`/`Branch` datatype with map membership.
- The header percentage of the stdout summary is a string parameter, because it is floating point with `toFixed(2)` and NaN for no results.
- ANSI colours are an opaque `Palette` of styling functions. The stdout drain's test (src/cli/plugins/stdout/stdout-drain.spec.ts:162-165) passes `supportsColor`, while the code reads `useColor` (src/cli/plugins/stdout/stdout-drain.ts:58); the model follows the code.
- Env.EnvName: does not state that the names are upper-snake case. It states that they are non-empty and pairwise distinct.
- The Xray test plan sources and clients (src/cli/plugins/xray/test-plan/*-source.ts, src/sources/xray/test-plan/*-source.ts, jira.js, @qytera/xray-client) are not part of this model. A client is recorded by its kind, credentials and URL.
- src/sources/xray/test-plan/xray-test-plan-source.ts is not part of this model. The older handler uses the authentication kinds of src/cli/plugins/xray/util/constants.ts, which name the same three kinds for Jira and for Xray.
- Cli.Replay: states only that a replay saves nothing. What a replay restores is stated by `RestoredSourcesAsSaved`, `RestoredDrainsAsSaved` and `FreshRunSavesReplayableConfiguration`, that it succeeds by `SavedConfigurationReplays`, and its results and writes by `TestResults` and `Deliveries`.
- Handlers.Restores: the success half assumes the environment defines every variable the program reads. It does not state that a replay with some variables missing succeeds once the user answers the prompts. The handler types `AnySourceHandler` and `AnyDrainHandler` therefore exclude handlers whose restore always prompts or reads variables other than the nine the program names; `FreshRunSavesReplayableConfiguration` and `SavedConfigurationReplays` cover only handlers that can restore from the environment.

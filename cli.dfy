/** A Parrot command line session (src/cli/cli.ts): building a new configuration interactively,
    optionally saving it, replaying a saved one, and in both cases collecting the test results of
    every inlet and handing them to every outlet.

    All handlers of one table share their type parameters: the program types them `any`, and a
    table holding handlers of different kinds would use a sum type for them. Fetching the results
    of an inlet is the network call `fetch(source, inlet)`; handing results to an outlet is
    recorded as a `Delivery`. */
module Cli {
  import opened Outcome
  import Env
  import opened Terminal
  import opened Serialized
  import opened Handlers
  import opened LookupTable
  import opened TestModel

  /** An inlet or outlet together with the name the user gave it: `{ configuration, name }`. */
  datatype Named<+T> = Named(configuration: T, name: string)

  /** A source built in this session. */
  datatype NewSource<!S(!new, 00), !I(!new, 00)> =
    NewSource(handler: AnySourceHandler<S, I>, inlets: seq<Named<I>>, name: string, selections: seq<string>, source: S)

  /** A drain built in this session. */
  datatype NewDrain<!D(!new, 00), !O(!new, 00)> =
    NewDrain(drain: D, handler: AnyDrainHandler<D, O>, name: string, outlets: seq<Named<O>>, selections: seq<string>)

  /** `Pick<NewSource, "inlets" | "source">` */
  datatype DeserializedSource<+S, +I> = DeserializedSource(inlets: seq<Named<I>>, source: S)

  /** `Pick<NewDrain, "drain" | "outlets">` */
  datatype DeserializedDrain<+D, +O> = DeserializedDrain(drain: D, outlets: seq<Named<O>>)

  datatype SerializedSource = SerializedSource(configuration: Json, inlets: seq<Named<Json>>, name: string, selections: seq<string>)

  datatype SerializedDrain = SerializedDrain(configuration: Json, name: string, outlets: seq<Named<Json>>, selections: seq<string>)

  /** The content of a configuration file. */
  datatype SerializedConfiguration = SerializedConfiguration(drains: seq<SerializedDrain>, sources: seq<SerializedSource>)

  /** A configuration written to the file at `path`. */
  datatype Saved = Saved(path: string, configuration: SerializedConfiguration)

  /** One `drain.writeTestResults(results, outlet)` call. */
  datatype Delivery<+D, +O> = Delivery(drain: D, outlet: O, results: seq<TestResult>)

  /** What a session does: the configuration it saved, if any, and its calls to the drains. */
  datatype Run<+D, +O> = Run(saved: Option<Saved>, deliveries: seq<Delivery<D, O>>)

  const DefaultConfigurationFile := "config.json"

  // ------------------------------------------------------------------------------------------
  // The two loop shapes of a session.

  /** A `do { ... } while (await confirm(...))` loop: run `step`, then ask whether to go on; the
      items are appended to `acc`. It runs at least once, and only consumes answers. */
  function Repeat<T>(step: Terminal -> Result<(T, Terminal)>, acc: seq<T>, term: Terminal): (r: Result<(seq<T>, Terminal)>)
    requires Builds(step)
    decreases |term.answers|
    ensures r.Ok? ==> |r.value.0| > |acc| && term.Precedes(r.value.1)
  {
    var (item, afterStep) :- step(term);
    assert Consumes(step(term), term);
    var (another, afterConfirm) :- afterStep.Confirm();
    PrecedesTransitive(term, afterStep, afterConfirm);
    if another then
      var r := Repeat(step, acc + [item], afterConfirm);
      if r.Ok? then PrecedesTransitive(term, afterConfirm, r.value.1); r else r
    else
      Ok((acc + [item], afterConfirm))
  }

  /** Whatever each step yields satisfies `keep`, so everything the loop collects does. */
  lemma {:induction false} RepeatKeeps<T>(step: Terminal -> Result<(T, Terminal)>, keep: T -> bool, acc: seq<T>, term: Terminal)
    requires Builds(step)
    requires forall t :: step(t).Ok? ==> keep(step(t).value.0)
    requires forall k :: 0 <= k < |acc| ==> keep(acc[k])
    ensures var r := Repeat(step, acc, term);
      r.Ok? ==> forall k :: 0 <= k < |r.value.0| ==> keep(r.value.0[k])
    decreases |term.answers|
  {
    var built := step(term);
    assert Consumes(built, term);
    if built.Ok? {
      var (item, afterStep) := built.value;
      var confirmed := afterStep.Confirm();
      if confirmed.Ok? && confirmed.value.0 {
        RepeatKeeps(step, keep, acc + [item], confirmed.value.1);
      }
    }
  }

  /** A `for (const ... of items)` loop whose body may prompt: the results are appended to `acc`. */
  function Traverse<E, T>(step: (E, Terminal) -> Result<(T, Terminal)>, items: seq<E>, acc: seq<T>, term: Terminal)
    : (r: Result<(seq<T>, Terminal)>)
    decreases |items|
    ensures r.Ok? ==> |r.value.0| == |acc| + |items|
    ensures r.Ok? ==> forall k :: 0 <= k < |acc| ==> r.value.0[k] == acc[k]
  {
    if |items| == 0 then Ok((acc, term))
    else
      var (item, next) :- step(items[0], term);
      Traverse(step, items[1..], acc + [item], next)
  }

  /** When the step succeeds on every item and hands the terminal back untouched, so does the loop. */
  lemma {:induction false} TraverseLeavesTerminal<E, T>(step: (E, Terminal) -> Result<(T, Terminal)>,
                                                       items: seq<E>, acc: seq<T>, term: Terminal)
    requires forall k :: 0 <= k < |items| ==> step(items[k], term).Ok? && step(items[k], term).value.1 == term
    ensures var r := Traverse(step, items, acc, term); r.Ok? && r.value.1 == term
    decreases |items|
  {
    if |items| > 0 {
      var first := step(items[0], term);
      assert first.Ok? && first.value.1 == term;
      forall k | 0 <= k < |items[1..]|
        ensures step(items[1..][k], term).Ok? && step(items[1..][k], term).value.1 == term
      {
        assert items[1..][k] == items[k + 1];
      }
      TraverseLeavesTerminal(step, items[1..], acc + [first.value.0], term);
    }
  }

  /** When every result `step` can give for an item relates to that item as `keep` says, so does
      every result the loop collects, position by position. */
  lemma {:induction false} TraverseKeeps<E, T>(step: (E, Terminal) -> Result<(T, Terminal)>, keep: (E, T) -> bool,
                                               items: seq<E>, acc: seq<T>, term: Terminal)
    requires forall k, t :: 0 <= k < |items| && step(items[k], t).Ok? ==> keep(items[k], step(items[k], t).value.0)
    ensures var r := Traverse(step, items, acc, term);
      r.Ok? ==> forall k :: 0 <= k < |items| ==> keep(items[k], r.value.0[|acc| + k])
    decreases |items|
  {
    var r := Traverse(step, items, acc, term);
    if |items| > 0 && r.Ok? {
      var first := step(items[0], term);
      assert keep(items[0], first.value.0);
      TraverseKeeps(step, keep, items[1..], acc + [first.value.0], first.value.1);
      forall k | 0 <= k < |items|
        ensures keep(items[k], r.value.0[|acc| + k])
      {
        if k > 0 {
          assert items[1..][k - 1] == items[k];
          assert r.value.0[|acc + [first.value.0]| + (k - 1)] == r.value.0[|acc| + k];
        }
      }
    }
  }

  // ------------------------------------------------------------------------------------------
  // Building sources and drains.

  /** Build one inlet or outlet, then ask for its name. */
  function NamedStep<T>(build: Terminal -> Result<(T, Terminal)>): Terminal -> Result<(Named<T>, Terminal)>
  {
    term =>
      var (configuration, afterBuild) :- build(term);
      var (name, afterName) :- afterBuild.Input();
      Ok((Named(configuration, name), afterName))
  }

  lemma NamedStepBuilds<T>(build: Terminal -> Result<(T, Terminal)>)
    requires Builds(build)
    ensures Builds(NamedStep(build))
  {
    forall term: Terminal
      ensures Consumes(NamedStep(build)(term), term)
    {
      var built := build(term);
      assert Consumes(built, term);
      if built.Ok? && built.value.1.Input().Ok? {
        PrecedesTransitive(term, built.value.1, built.value.1.Input().value.1);
      }
    }
  }

  /** `getNewSource`: the user picks a handler in the table, the handler builds the source, the
      user names it, and then inlets are built and named until the user declines another. */
  function NewSourceFrom<S(!new, 00), I(!new, 00)>(table: Table<AnySourceHandler<S, I>>, term: Terminal)
    : (r: Result<(NewSource<S, I>, Terminal)>)
    ensures r.Ok? ==> Lookup(table, r.value.0.selections) == Some(r.value.0.handler)
    ensures r.Ok? ==> |r.value.0.inlets| >= 1
    ensures r.Ok? ==> term.Precedes(r.value.1)
  {
    var descent :- DescendIntoTable(table, term);
    var handler := descent.handler;
    var (source, afterSource) :- handler.buildSource(descent.rest);
    assert Consumes(handler.buildSource(descent.rest), descent.rest);
    var (name, afterName) :- afterSource.Input();
    NamedStepBuilds(handler.buildInlet);
    var (inlets, rest) :- Repeat(NamedStep(handler.buildInlet), [], afterName);
    PrecedesTransitive(term, descent.rest, afterSource);
    PrecedesTransitive(term, afterSource, afterName);
    PrecedesTransitive(term, afterName, rest);
    Ok((NewSource(handler, inlets, name, descent.selections, source), rest))
  }

  /** `getNewDrain`: as for sources, with a drain and its outlets. */
  function NewDrainFrom<D(!new, 00), O(!new, 00)>(table: Table<AnyDrainHandler<D, O>>, term: Terminal)
    : (r: Result<(NewDrain<D, O>, Terminal)>)
    ensures r.Ok? ==> Lookup(table, r.value.0.selections) == Some(r.value.0.handler)
    ensures r.Ok? ==> |r.value.0.outlets| >= 1
    ensures r.Ok? ==> term.Precedes(r.value.1)
  {
    var descent :- DescendIntoTable(table, term);
    var handler := descent.handler;
    var (drain, afterDrain) :- handler.buildDrain(descent.rest);
    assert Consumes(handler.buildDrain(descent.rest), descent.rest);
    var (name, afterName) :- afterDrain.Input();
    NamedStepBuilds(handler.buildOutlet);
    var (outlets, rest) :- Repeat(NamedStep(handler.buildOutlet), [], afterName);
    PrecedesTransitive(term, descent.rest, afterDrain);
    PrecedesTransitive(term, afterDrain, afterName);
    PrecedesTransitive(term, afterName, rest);
    Ok((NewDrain(drain, handler, name, outlets, descent.selections), rest))
  }

  method GetNewSource<S(!new, 00), I(!new, 00)>(table: Table<AnySourceHandler<S, I>>, term: Terminal)
    returns (r: Result<(NewSource<S, I>, Terminal)>)
    ensures r == NewSourceFrom(table, term)
  {
    var descent :- DescendIntoTable(table, term);
    var handler := descent.handler;
    var built :- handler.buildSource(descent.rest);
    var (source, afterSource) := built;
    var named :- afterSource.Input();
    var (name, afterName) := named;
    NamedStepBuilds(handler.buildInlet);
    var inlets: seq<Named<I>> := [];
    var current := afterName;
    while true
      invariant Repeat(NamedStep(handler.buildInlet), inlets, current) == Repeat(NamedStep(handler.buildInlet), [], afterName)
      decreases |current.answers|
    {
      assert Consumes(handler.buildInlet(current), current);
      var inlet :- handler.buildInlet(current);
      var (configuration, afterInlet) := inlet;
      var inletName :- afterInlet.Input();
      inlets := inlets + [Named(configuration, inletName.0)];
      var another :- inletName.1.Confirm();
      if !another.0 {
        return Ok((NewSource(handler, inlets, name, descent.selections, source), another.1));
      }
      current := another.1;
    }
  }

  method GetNewDrain<D(!new, 00), O(!new, 00)>(table: Table<AnyDrainHandler<D, O>>, term: Terminal)
    returns (r: Result<(NewDrain<D, O>, Terminal)>)
    ensures r == NewDrainFrom(table, term)
  {
    var descent :- DescendIntoTable(table, term);
    var handler := descent.handler;
    var built :- handler.buildDrain(descent.rest);
    var (drain, afterDrain) := built;
    var named :- afterDrain.Input();
    var (name, afterName) := named;
    NamedStepBuilds(handler.buildOutlet);
    var outlets: seq<Named<O>> := [];
    var current := afterName;
    while true
      invariant Repeat(NamedStep(handler.buildOutlet), outlets, current) == Repeat(NamedStep(handler.buildOutlet), [], afterName)
      decreases |current.answers|
    {
      assert Consumes(handler.buildOutlet(current), current);
      var outlet :- handler.buildOutlet(current);
      var (configuration, afterOutlet) := outlet;
      var outletName :- afterOutlet.Input();
      outlets := outlets + [Named(configuration, outletName.0)];
      var another :- outletName.1.Confirm();
      if !another.0 {
        return Ok((NewDrain(drain, handler, name, outlets, descent.selections), another.1));
      }
      current := another.1;
    }
  }

  // ------------------------------------------------------------------------------------------
  // Saving a configuration.

  /** The saved form of a source: its handler's serialization of the source and of each inlet,
      with the names and the selection path kept. */
  function SerializedSourceOf<S(!new, 00), I(!new, 00)>(choice: NewSource<S, I>): (r: SerializedSource)
    ensures r.name == choice.name && r.selections == choice.selections
    ensures |r.inlets| == |choice.inlets|
    ensures forall k :: 0 <= k < |r.inlets| ==> r.inlets[k].name == choice.inlets[k].name
  {
    SerializedSource(
      choice.handler.serializeSource(choice.source),
      seq(|choice.inlets|, k requires 0 <= k < |choice.inlets| =>
        Named(choice.handler.serializeInlet(choice.inlets[k].configuration), choice.inlets[k].name)),
      choice.name, choice.selections)
  }

  /** The saved form of a drain. */
  function SerializedDrainOf<D(!new, 00), O(!new, 00)>(choice: NewDrain<D, O>): (r: SerializedDrain)
    ensures r.name == choice.name && r.selections == choice.selections
    ensures |r.outlets| == |choice.outlets|
    ensures forall k :: 0 <= k < |r.outlets| ==> r.outlets[k].name == choice.outlets[k].name
  {
    SerializedDrain(
      choice.handler.serializeDrain(choice.drain), choice.name,
      seq(|choice.outlets|, k requires 0 <= k < |choice.outlets| =>
        Named(choice.handler.serializeOutlet(choice.outlets[k].configuration), choice.outlets[k].name)),
      choice.selections)
  }

  /** `serializeConfiguration`: ask for the file, "config.json" unless the user types another,
      and save every source and drain in the order they were built. */
  function SaveFrom<S(!new, 00), I(!new, 00), D(!new, 00), O(!new, 00)>(sources: seq<NewSource<S, I>>, drains: seq<NewDrain<D, O>>, term: Terminal)
    : (r: Result<(Saved, Terminal)>)
    ensures r.Ok? <==> term.Input().Ok?
    ensures r.Ok? ==> r.value.0.path == if term.answers[0].text == "" then DefaultConfigurationFile else term.answers[0].text
    ensures r.Ok? ==> |r.value.0.configuration.sources| == |sources| && |r.value.0.configuration.drains| == |drains|
    ensures r.Ok? ==> forall k :: 0 <= k < |sources| ==> r.value.0.configuration.sources[k] == SerializedSourceOf(sources[k])
    ensures r.Ok? ==> forall k :: 0 <= k < |drains| ==> r.value.0.configuration.drains[k] == SerializedDrainOf(drains[k])
  {
    var (path, rest) :- term.InputWithDefault(DefaultConfigurationFile);
    Ok((Saved(path, SerializedConfiguration(
      seq(|drains|, k requires 0 <= k < |drains| => SerializedDrainOf(drains[k])),
      seq(|sources|, k requires 0 <= k < |sources| => SerializedSourceOf(sources[k])))), rest))
  }

  method SerializeConfiguration<S(!new, 00), I(!new, 00), D(!new, 00), O(!new, 00)>(sources: seq<NewSource<S, I>>, drains: seq<NewDrain<D, O>>, term: Terminal)
    returns (r: Result<(Saved, Terminal)>)
    ensures r == SaveFrom(sources, drains, term)
  {
    var prompted :- term.InputWithDefault(DefaultConfigurationFile);
    var (path, rest) := prompted;
    var serializedSources: seq<SerializedSource> := [];
    for i := 0 to |sources|
      invariant |serializedSources| == i
      invariant forall k :: 0 <= k < i ==> serializedSources[k] == SerializedSourceOf(sources[k])
    {
      var choice := sources[i];
      var serializedInlets: seq<Named<Json>> := [];
      for j := 0 to |choice.inlets|
        invariant |serializedInlets| == j
        invariant forall k :: 0 <= k < j ==>
          serializedInlets[k] == Named(choice.handler.serializeInlet(choice.inlets[k].configuration), choice.inlets[k].name)
      {
        serializedInlets := serializedInlets + [Named(choice.handler.serializeInlet(choice.inlets[j].configuration), choice.inlets[j].name)];
      }
      assert serializedInlets == SerializedSourceOf(choice).inlets;
      serializedSources := serializedSources
        + [SerializedSource(choice.handler.serializeSource(choice.source), serializedInlets, choice.name, choice.selections)];
    }
    var serializedDrains: seq<SerializedDrain> := [];
    for i := 0 to |drains|
      invariant |serializedDrains| == i
      invariant forall k :: 0 <= k < i ==> serializedDrains[k] == SerializedDrainOf(drains[k])
    {
      var choice := drains[i];
      var serializedOutlets: seq<Named<Json>> := [];
      for j := 0 to |choice.outlets|
        invariant |serializedOutlets| == j
        invariant forall k :: 0 <= k < j ==>
          serializedOutlets[k] == Named(choice.handler.serializeOutlet(choice.outlets[k].configuration), choice.outlets[k].name)
      {
        serializedOutlets := serializedOutlets + [Named(choice.handler.serializeOutlet(choice.outlets[j].configuration), choice.outlets[j].name)];
      }
      assert serializedOutlets == SerializedDrainOf(choice).outlets;
      serializedDrains := serializedDrains
        + [SerializedDrain(choice.handler.serializeDrain(choice.drain), choice.name, serializedOutlets, choice.selections)];
    }
    var configuration := SerializedConfiguration(serializedDrains, serializedSources);
    assert configuration == SaveFrom(sources, drains, term).value.0.configuration;
    return Ok((Saved(path, configuration), rest));
  }

  // ------------------------------------------------------------------------------------------
  // Restoring a saved configuration.

  /** Restore one stored inlet or outlet, keeping its name. */
  function RestoreStep<T>(deserialize: (Json, Terminal) -> Result<(T, Terminal)>): (Named<Json>, Terminal) -> Result<(Named<T>, Terminal)>
  {
    (stored: Named<Json>, term: Terminal) =>
      var (configuration, rest) :- deserialize(stored.configuration, term);
      Ok((Named(configuration, stored.name), rest))
  }

  /** `deserializeSource`: find the handler the stored selections lead to, let it restore the
      source, then each inlet in the stored order, keeping their names. */
  function DeserializedSourceFrom<S(!new, 00), I(!new, 00)>(table: Table<AnySourceHandler<S, I>>, stored: SerializedSource, term: Terminal)
    : (r: Result<(DeserializedSource<S, I>, Terminal)>)
    ensures Lookup(table, stored.selections).None? ==> r == Err(NotFoundMessage(stored.selections))
    ensures r.Ok? ==> |r.value.0.inlets| == |stored.inlets|
  {
    var handler :- match Lookup(table, stored.selections)
      case Some(handler) => Ok(handler)
      case None => Err(NotFoundMessage(stored.selections));
    var (source, afterSource) :- handler.deserializeSource(stored.configuration, term);
    var (inlets, rest) :- Traverse(RestoreStep(handler.deserializeInlet), stored.inlets, [], afterSource);
    Ok((DeserializedSource(inlets, source), rest))
  }

  /** `deserializeDrain` */
  function DeserializedDrainFrom<D(!new, 00), O(!new, 00)>(table: Table<AnyDrainHandler<D, O>>, stored: SerializedDrain, term: Terminal)
    : (r: Result<(DeserializedDrain<D, O>, Terminal)>)
    ensures Lookup(table, stored.selections).None? ==> r == Err(NotFoundMessage(stored.selections))
    ensures r.Ok? ==> |r.value.0.outlets| == |stored.outlets|
  {
    var handler :- match Lookup(table, stored.selections)
      case Some(handler) => Ok(handler)
      case None => Err(NotFoundMessage(stored.selections));
    var (drain, afterDrain) :- handler.deserializeDrain(stored.configuration, term);
    var (outlets, rest) :- Traverse(RestoreStep(handler.deserializeOutlet), stored.outlets, [], afterDrain);
    Ok((DeserializedDrain(drain, outlets), rest))
  }

  method DeserializeSource<S(!new, 00), I(!new, 00)>(table: Table<AnySourceHandler<S, I>>, stored: SerializedSource, term: Terminal)
    returns (r: Result<(DeserializedSource<S, I>, Terminal)>)
    ensures r == DeserializedSourceFrom(table, stored, term)
  {
    var handler :- RetrieveFromTable(table, stored.selections);
    var restored :- handler.deserializeSource(stored.configuration, term);
    var (source, afterSource) := restored;
    var inlets: seq<Named<I>> := [];
    var current := afterSource;
    for i := 0 to |stored.inlets|
      invariant Traverse(RestoreStep(handler.deserializeInlet), stored.inlets[i..], inlets, current)
        == Traverse(RestoreStep(handler.deserializeInlet), stored.inlets, [], afterSource)
    {
      var inlet :- handler.deserializeInlet(stored.inlets[i].configuration, current);
      inlets := inlets + [Named(inlet.0, stored.inlets[i].name)];
      current := inlet.1;
      assert stored.inlets[i..][1..] == stored.inlets[i + 1..];
    }
    assert stored.inlets[|stored.inlets|..] == [];
    return Ok((DeserializedSource(inlets, source), current));
  }

  method DeserializeDrain<D(!new, 00), O(!new, 00)>(table: Table<AnyDrainHandler<D, O>>, stored: SerializedDrain, term: Terminal)
    returns (r: Result<(DeserializedDrain<D, O>, Terminal)>)
    ensures r == DeserializedDrainFrom(table, stored, term)
  {
    var handler :- RetrieveFromTable(table, stored.selections);
    var restored :- handler.deserializeDrain(stored.configuration, term);
    var (drain, afterDrain) := restored;
    var outlets: seq<Named<O>> := [];
    var current := afterDrain;
    for i := 0 to |stored.outlets|
      invariant Traverse(RestoreStep(handler.deserializeOutlet), stored.outlets[i..], outlets, current)
        == Traverse(RestoreStep(handler.deserializeOutlet), stored.outlets, [], afterDrain)
    {
      var outlet :- handler.deserializeOutlet(stored.outlets[i].configuration, current);
      outlets := outlets + [Named(outlet.0, stored.outlets[i].name)];
      current := outlet.1;
      assert stored.outlets[i..][1..] == stored.outlets[i + 1..];
    }
    assert stored.outlets[|stored.outlets|..] == [];
    return Ok((DeserializedDrain(drain, outlets), current));
  }

  // ------------------------------------------------------------------------------------------
  // Collecting test results and handing them to the drains.

  /** The results of one source, inlet by inlet. */
  function InletResults<S, I>(fetch: (S, I) -> seq<TestResult>, source: S, inlets: seq<Named<I>>): seq<TestResult>
    decreases |inlets|
  {
    if |inlets| == 0 then []
    else InletResults(fetch, source, inlets[..|inlets| - 1]) + fetch(source, inlets[|inlets| - 1].configuration)
  }

  /** The results of all sources, source by source. */
  function TestResults<S, I>(fetch: (S, I) -> seq<TestResult>, sources: seq<DeserializedSource<S, I>>): seq<TestResult>
    decreases |sources|
  {
    if |sources| == 0 then []
    else TestResults(fetch, sources[..|sources| - 1]) + InletResults(fetch, sources[|sources| - 1].source, sources[|sources| - 1].inlets)
  }

  /** The two nested `for` loops that push every inlet's results into `testResults`. */
  method CollectTestResults<S, I>(fetch: (S, I) -> seq<TestResult>, sources: seq<DeserializedSource<S, I>>)
    returns (results: seq<TestResult>)
    ensures results == TestResults(fetch, sources)
  {
    results := [];
    for i := 0 to |sources|
      invariant results == TestResults(fetch, sources[..i])
    {
      var source := sources[i];
      ghost var before := results;
      for j := 0 to |source.inlets|
        invariant results == before + InletResults(fetch, source.source, source.inlets[..j])
      {
        var inletResults := fetch(source.source, source.inlets[j].configuration);
        assert source.inlets[..j + 1][..j] == source.inlets[..j];
        results := results + inletResults;
      }
      assert source.inlets[..|source.inlets|] == source.inlets;
      assert sources[..i + 1][..i] == sources[..i];
    }
    assert sources[..|sources|] == sources;
  }

  /** Results are gathered source by source: those of earlier sources come first. */
  lemma {:induction false} TestResultsInSourceOrder<S, I>(fetch: (S, I) -> seq<TestResult>,
                                                         first: seq<DeserializedSource<S, I>>, second: seq<DeserializedSource<S, I>>)
    ensures TestResults(fetch, first + second) == TestResults(fetch, first) + TestResults(fetch, second)
    decreases |second|
  {
    if |second| == 0 {
      assert first + second == first;
    } else {
      var all := first + second;
      var last := second[|second| - 1];
      assert all[..|all| - 1] == first + second[..|second| - 1];
      assert all[|all| - 1] == last;
      TestResultsInSourceOrder(fetch, first, second[..|second| - 1]);
      var tail := InletResults(fetch, last.source, last.inlets);
      assert TestResults(fetch, all) == (TestResults(fetch, first) + TestResults(fetch, second[..|second| - 1])) + tail;
    }
  }

  /** The results of a single source are those of its inlets, in inlet order. */
  lemma {:induction false} InletResultsInInletOrder<S, I>(fetch: (S, I) -> seq<TestResult>, source: S,
                                                         first: seq<Named<I>>, second: seq<Named<I>>)
    ensures InletResults(fetch, source, first + second) == InletResults(fetch, source, first) + InletResults(fetch, source, second)
    decreases |second|
  {
    if |second| == 0 {
      assert first + second == first;
    } else {
      var all := first + second;
      assert all[..|all| - 1] == first + second[..|second| - 1];
      assert all[|all| - 1] == second[|second| - 1];
      InletResultsInInletOrder(fetch, source, first, second[..|second| - 1]);
    }
  }

  /** One call per outlet of a drain, each with the same results. */
  function OutletDeliveries<D, O>(drain: DeserializedDrain<D, O>, results: seq<TestResult>): seq<Delivery<D, O>>
  {
    seq(|drain.outlets|, k requires 0 <= k < |drain.outlets| => Delivery(drain.drain, drain.outlets[k].configuration, results))
  }

  /** The number of outlets of all drains. */
  function OutletCount<D, O>(drains: seq<DeserializedDrain<D, O>>): nat
    decreases |drains|
  {
    if |drains| == 0 then 0 else OutletCount(drains[..|drains| - 1]) + |drains[|drains| - 1].outlets|
  }

  /** The calls to the drains, drain by drain and outlet by outlet: one per outlet, and every one
      with the whole list of results. */
  function Deliveries<D, O>(drains: seq<DeserializedDrain<D, O>>, results: seq<TestResult>): (r: seq<Delivery<D, O>>)
    decreases |drains|
    ensures |r| == OutletCount(drains)
    ensures forall k :: 0 <= k < |r| ==> r[k].results == results
  {
    if |drains| == 0 then []
    else Deliveries(drains[..|drains| - 1], results) + OutletDeliveries(drains[|drains| - 1], results)
  }

  /** The two nested `for` loops that call `writeTestResults` for every outlet. */
  method DeliverTestResults<D, O>(drains: seq<DeserializedDrain<D, O>>, results: seq<TestResult>)
    returns (deliveries: seq<Delivery<D, O>>)
    ensures deliveries == Deliveries(drains, results)
  {
    deliveries := [];
    for i := 0 to |drains|
      invariant deliveries == Deliveries(drains[..i], results)
    {
      var drain := drains[i];
      ghost var before := deliveries;
      for j := 0 to |drain.outlets|
        invariant deliveries == before + OutletDeliveries(drain, results)[..j]
      {
        deliveries := deliveries + [Delivery(drain.drain, drain.outlets[j].configuration, results)];
        assert OutletDeliveries(drain, results)[..j + 1] == OutletDeliveries(drain, results)[..j] + [Delivery(drain.drain, drain.outlets[j].configuration, results)];
      }
      assert OutletDeliveries(drain, results)[..|drain.outlets|] == OutletDeliveries(drain, results);
      assert drains[..i + 1][..i] == drains[..i];
    }
    assert drains[..|drains|] == drains;
  }

  /** Every outlet of every drain is handed the results. */
  lemma {:induction false} EveryOutletReceivesResults<D, O>(drains: seq<DeserializedDrain<D, O>>, results: seq<TestResult>, k: nat, j: nat)
    requires k < |drains| && j < |drains[k].outlets|
    ensures Delivery(drains[k].drain, drains[k].outlets[j].configuration, results) in Deliveries(drains, results)
    decreases |drains|
  {
    var last := |drains| - 1;
    if k == last {
      assert OutletDeliveries(drains[last], results)[j] == Delivery(drains[k].drain, drains[k].outlets[j].configuration, results);
    } else {
      assert drains[..last][k] == drains[k];
      EveryOutletReceivesResults(drains[..last], results, k, j);
    }
  }

  // ------------------------------------------------------------------------------------------
  // The two kinds of session.

  function SourceStep<S(!new, 00), I(!new, 00)>(table: Table<AnySourceHandler<S, I>>): Terminal -> Result<(NewSource<S, I>, Terminal)>
  {
    term => NewSourceFrom(table, term)
  }

  function DrainStep<D(!new, 00), O(!new, 00)>(table: Table<AnyDrainHandler<D, O>>): Terminal -> Result<(NewDrain<D, O>, Terminal)>
  {
    term => NewDrainFrom(table, term)
  }

  lemma StepsBuild<S(!new, 00), I(!new, 00), D(!new, 00), O(!new, 00)>(sourceTable: Table<AnySourceHandler<S, I>>, drainTable: Table<AnyDrainHandler<D, O>>)
    ensures Builds(SourceStep(sourceTable)) && Builds(DrainStep(drainTable))
  {
  }

  function PickSources<S(!new, 00), I(!new, 00)>(sources: seq<NewSource<S, I>>): seq<DeserializedSource<S, I>>
  {
    seq(|sources|, k requires 0 <= k < |sources| => DeserializedSource(sources[k].inlets, sources[k].source))
  }

  function PickDrains<D(!new, 00), O(!new, 00)>(drains: seq<NewDrain<D, O>>): seq<DeserializedDrain<D, O>>
  {
    seq(|drains|, k requires 0 <= k < |drains| => DeserializedDrain(drains[k].drain, drains[k].outlets))
  }

  /** The interactive part of `runNewConfiguration`: sources until the user declines another,
      then drains likewise. */
  function BuildConfiguration<S(!new, 00), I(!new, 00), D(!new, 00), O(!new, 00)>(sourceTable: Table<AnySourceHandler<S, I>>, drainTable: Table<AnyDrainHandler<D, O>>,
                                                                  term: Terminal)
    : (r: Result<(seq<NewSource<S, I>>, seq<NewDrain<D, O>>, Terminal)>)
    ensures r.Ok? ==> |r.value.0| >= 1 && |r.value.1| >= 1
  {
    StepsBuild(sourceTable, drainTable);
    var (sources, afterSources) :- Repeat(SourceStep(sourceTable), [], term);
    var (drains, afterDrains) :- Repeat(DrainStep(drainTable), [], afterSources);
    Ok((sources, drains, afterDrains))
  }

  /** Ask whether to save the configuration, and save it if the user says yes. */
  function SaveIfWanted<S(!new, 00), I(!new, 00), D(!new, 00), O(!new, 00)>(sources: seq<NewSource<S, I>>, drains: seq<NewDrain<D, O>>, term: Terminal)
    : (r: Result<(Option<Saved>, Terminal)>)
    ensures r.Ok? ==> |term.answers| > 0 && (r.value.0.Some? <==> term.answers[0] == Confirmation(true))
    ensures r.Ok? && r.value.0.Some? ==>
      var configuration := r.value.0.value.configuration;
      && |configuration.sources| == |sources| && |configuration.drains| == |drains|
      && (forall k :: 0 <= k < |sources| ==> configuration.sources[k] == SerializedSourceOf(sources[k]))
      && (forall k :: 0 <= k < |drains| ==> configuration.drains[k] == SerializedDrainOf(drains[k]))
  {
    var (save, afterSave) :- term.Confirm();
    if save then
      var written :- SaveFrom(sources, drains, afterSave);
      Ok((Some(written.0), written.1))
    else
      Ok((None, afterSave))
  }

  /** `runNewConfiguration`: build the sources and drains, save the configuration if the user
      wants to, then collect the results of every inlet and hand them to every outlet. */
  function FreshRun<S(!new, 00), I(!new, 00), D(!new, 00), O(!new, 00)>(sourceTable: Table<AnySourceHandler<S, I>>, drainTable: Table<AnyDrainHandler<D, O>>,
                                                        fetch: (S, I) -> seq<TestResult>, term: Terminal)
    : (r: Result<(Run<D, O>, Terminal)>)
  {
    var (sources, drains, afterDrains) :- BuildConfiguration(sourceTable, drainTable, term);
    var (saved, rest) :- SaveIfWanted(sources, drains, afterDrains);
    var results := TestResults(fetch, PickSources(sources));
    Ok((Run(saved, Deliveries(PickDrains(drains), results)), rest))
  }

  method RunNewConfiguration<S(!new, 00), I(!new, 00), D(!new, 00), O(!new, 00)>(sourceTable: Table<AnySourceHandler<S, I>>, drainTable: Table<AnyDrainHandler<D, O>>,
                                                                 fetch: (S, I) -> seq<TestResult>, term: Terminal)
    returns (r: Result<(Run<D, O>, Terminal)>)
    ensures r == FreshRun(sourceTable, drainTable, fetch, term)
  {
    StepsBuild(sourceTable, drainTable);
    var newSources: seq<NewSource<S, I>> := [];
    var current := term;
    while true
      invariant Repeat(SourceStep(sourceTable), newSources, current) == Repeat(SourceStep(sourceTable), [], term)
      decreases |current.answers|
    {
      var newSource :- GetNewSource(sourceTable, current);
      newSources := newSources + [newSource.0];
      var another :- newSource.1.Confirm();
      current := another.1;
      if !another.0 {
        break;
      }
    }
    ghost var afterSources := current;
    var newDrains: seq<NewDrain<D, O>> := [];
    while true
      invariant Repeat(DrainStep(drainTable), newDrains, current) == Repeat(DrainStep(drainTable), [], afterSources)
      decreases |current.answers|
    {
      var newDrain :- GetNewDrain(drainTable, current);
      newDrains := newDrains + [newDrain.0];
      var another :- newDrain.1.Confirm();
      current := another.1;
      if !another.0 {
        break;
      }
    }
    var confirmation :- current.Confirm();
    var saved: Option<Saved> := None;
    if confirmation.0 {
      var written :- SerializeConfiguration(newSources, newDrains, confirmation.1);
      saved := Some(written.0);
      current := written.1;
    } else {
      current := confirmation.1;
    }
    var testResults := CollectTestResults(fetch, PickSources(newSources));
    var deliveries := DeliverTestResults(PickDrains(newDrains), testResults);
    return Ok((Run(saved, deliveries), current));
  }

  function SourceRestoreStep<S(!new, 00), I(!new, 00)>(table: Table<AnySourceHandler<S, I>>)
    : (SerializedSource, Terminal) -> Result<(DeserializedSource<S, I>, Terminal)>
  {
    (stored, term) => DeserializedSourceFrom(table, stored, term)
  }

  function DrainRestoreStep<D(!new, 00), O(!new, 00)>(table: Table<AnyDrainHandler<D, O>>)
    : (SerializedDrain, Terminal) -> Result<(DeserializedDrain<D, O>, Terminal)>
  {
    (stored, term) => DeserializedDrainFrom(table, stored, term)
  }

  /** `runSerializedConfiguration`: restore the sources in the stored order, collect the results
      of their inlets, restore the drains and hand the results to every outlet. Nothing is saved. */
  function Replay<S(!new, 00), I(!new, 00), D(!new, 00), O(!new, 00)>(sourceTable: Table<AnySourceHandler<S, I>>, drainTable: Table<AnyDrainHandler<D, O>>,
                                                      configuration: SerializedConfiguration, fetch: (S, I) -> seq<TestResult>, term: Terminal)
    : (r: Result<(Run<D, O>, Terminal)>)
    ensures r.Ok? ==> r.value.0.saved.None?
  {
    var (sources, afterSources) :- Traverse(SourceRestoreStep(sourceTable), configuration.sources, [], term);
    var results := TestResults(fetch, sources);
    var (drains, rest) :- Traverse(DrainRestoreStep(drainTable), configuration.drains, [], afterSources);
    Ok((Run(None, Deliveries(drains, results)), rest))
  }

  /** The loop over the stored sources. */
  method DeserializeSources<S(!new, 00), I(!new, 00)>(table: Table<AnySourceHandler<S, I>>, stored: seq<SerializedSource>, term: Terminal)
    returns (r: Result<(seq<DeserializedSource<S, I>>, Terminal)>)
    ensures r == Traverse(SourceRestoreStep(table), stored, [], term)
  {
    var deserializedSources: seq<DeserializedSource<S, I>> := [];
    var current := term;
    for i := 0 to |stored|
      invariant Traverse(SourceRestoreStep(table), stored[i..], deserializedSources, current)
        == Traverse(SourceRestoreStep(table), stored, [], term)
    {
      var source :- DeserializeSource(table, stored[i], current);
      deserializedSources := deserializedSources + [source.0];
      current := source.1;
      assert stored[i..][1..] == stored[i + 1..];
    }
    assert stored[|stored|..] == [];
    return Ok((deserializedSources, current));
  }

  /** The loop over the stored drains. */
  method DeserializeDrains<D(!new, 00), O(!new, 00)>(table: Table<AnyDrainHandler<D, O>>, stored: seq<SerializedDrain>, term: Terminal)
    returns (r: Result<(seq<DeserializedDrain<D, O>>, Terminal)>)
    ensures r == Traverse(DrainRestoreStep(table), stored, [], term)
  {
    var deserializedDrains: seq<DeserializedDrain<D, O>> := [];
    var current := term;
    for i := 0 to |stored|
      invariant Traverse(DrainRestoreStep(table), stored[i..], deserializedDrains, current)
        == Traverse(DrainRestoreStep(table), stored, [], term)
    {
      var drain :- DeserializeDrain(table, stored[i], current);
      deserializedDrains := deserializedDrains + [drain.0];
      current := drain.1;
      assert stored[i..][1..] == stored[i + 1..];
    }
    assert stored[|stored|..] == [];
    return Ok((deserializedDrains, current));
  }

  method RunSerializedConfiguration<S(!new, 00), I(!new, 00), D(!new, 00), O(!new, 00)>(sourceTable: Table<AnySourceHandler<S, I>>, drainTable: Table<AnyDrainHandler<D, O>>,
                                                                        configuration: SerializedConfiguration, fetch: (S, I) -> seq<TestResult>, term: Terminal)
    returns (r: Result<(Run<D, O>, Terminal)>)
    ensures r == Replay(sourceTable, drainTable, configuration, fetch, term)
  {
    var sources :- DeserializeSources(sourceTable, configuration.sources, term);
    var testResults := CollectTestResults(fetch, sources.0);
    var drains :- DeserializeDrains(drainTable, configuration.drains, sources.1);
    var deliveries := DeliverTestResults(drains.0, testResults);
    return Ok((Run(None, deliveries), drains.1));
  }

  // ------------------------------------------------------------------------------------------
  // What a session guarantees.

  /** Every source built interactively has at least one inlet and selections that lead to its
      handler, and every drain likewise. */
  lemma BuiltConfigurationResolves<S(!new, 00), I(!new, 00), D(!new, 00), O(!new, 00)>(sourceTable: Table<AnySourceHandler<S, I>>, drainTable: Table<AnyDrainHandler<D, O>>,
                                                                       term: Terminal)
    ensures var r := BuildConfiguration(sourceTable, drainTable, term);
      r.Ok? ==>
        && (forall k :: 0 <= k < |r.value.0| ==>
              |r.value.0[k].inlets| >= 1 && Lookup(sourceTable, r.value.0[k].selections) == Some(r.value.0[k].handler))
        && (forall k :: 0 <= k < |r.value.1| ==>
              |r.value.1[k].outlets| >= 1 && Lookup(drainTable, r.value.1[k].selections) == Some(r.value.1[k].handler))
  {
    StepsBuild(sourceTable, drainTable);
    var built := Repeat(SourceStep(sourceTable), [], term);
    RepeatKeeps(SourceStep(sourceTable), (s: NewSource<S, I>) => |s.inlets| >= 1 && Lookup(sourceTable, s.selections) == Some(s.handler), [], term);
    if built.Ok? {
      RepeatKeeps(DrainStep(drainTable), (d: NewDrain<D, O>) => |d.outlets| >= 1 && Lookup(drainTable, d.selections) == Some(d.handler), [], built.value.1);
    }
  }

  /** A fresh session hands the results to at least one outlet, and every outlet gets the same
      list. */
  lemma FreshRunDeliversToEveryOutlet<S(!new, 00), I(!new, 00), D(!new, 00), O(!new, 00)>(sourceTable: Table<AnySourceHandler<S, I>>, drainTable: Table<AnyDrainHandler<D, O>>,
                                                                          fetch: (S, I) -> seq<TestResult>, term: Terminal)
    ensures var r := FreshRun(sourceTable, drainTable, fetch, term);
      r.Ok? ==> (|r.value.0.deliveries| >= 1
        && forall k :: 0 <= k < |r.value.0.deliveries| ==> r.value.0.deliveries[k].results == r.value.0.deliveries[0].results)
  {
    var built := BuildConfiguration(sourceTable, drainTable, term);
    BuiltConfigurationResolves(sourceTable, drainTable, term);
    if built.Ok? {
      var (sources, drains, afterDrains) := built.value;
      var picked := PickDrains(drains);
      assert |picked[|picked| - 1].outlets| >= 1;
      assert OutletCount(picked) >= 1;
    }
  }

  /** A saved configuration holds at least one source with at least one inlet and at least one
      drain with at least one outlet, each with selections that lead to a handler. */
  lemma FreshRunSavesEverything<S(!new, 00), I(!new, 00), D(!new, 00), O(!new, 00)>(sourceTable: Table<AnySourceHandler<S, I>>, drainTable: Table<AnyDrainHandler<D, O>>,
                                                                    fetch: (S, I) -> seq<TestResult>, term: Terminal)
    ensures var r := FreshRun(sourceTable, drainTable, fetch, term);
      r.Ok? && r.value.0.saved.Some? ==>
        var configuration := r.value.0.saved.value.configuration;
        && |configuration.sources| >= 1 && |configuration.drains| >= 1
        && (forall k :: 0 <= k < |configuration.sources| ==>
              |configuration.sources[k].inlets| >= 1 && Lookup(sourceTable, configuration.sources[k].selections).Some?)
        && (forall k :: 0 <= k < |configuration.drains| ==>
              |configuration.drains[k].outlets| >= 1 && Lookup(drainTable, configuration.drains[k].selections).Some?)
  {
    BuiltConfigurationResolves(sourceTable, drainTable, term);
  }

  /** What restoring a stored source brought back serializes, under the handler its selections
      lead to, exactly as stored: the source, and each inlet in order and with its name. */
  predicate SourceRestored<S(!new, 00), I(!new, 00)>(table: Table<AnySourceHandler<S, I>>, stored: SerializedSource, restored: DeserializedSource<S, I>)
  {
    && Lookup(table, stored.selections).Some?
    && var handler := Lookup(table, stored.selections).value;
    && handler.serializeSource(restored.source) == stored.configuration
    && |restored.inlets| == |stored.inlets|
    && forall k :: 0 <= k < |stored.inlets| ==>
         restored.inlets[k].name == stored.inlets[k].name && handler.serializeInlet(restored.inlets[k].configuration) == stored.inlets[k].configuration
  }

  /** The same for a stored drain and its outlets. */
  predicate DrainRestored<D(!new, 00), O(!new, 00)>(table: Table<AnyDrainHandler<D, O>>, stored: SerializedDrain, restored: DeserializedDrain<D, O>)
  {
    && Lookup(table, stored.selections).Some?
    && var handler := Lookup(table, stored.selections).value;
    && handler.serializeDrain(restored.drain) == stored.configuration
    && |restored.outlets| == |stored.outlets|
    && forall k :: 0 <= k < |stored.outlets| ==>
         restored.outlets[k].name == stored.outlets[k].name && handler.serializeOutlet(restored.outlets[k].configuration) == stored.outlets[k].configuration
  }

  /** Restoring inlets or outlets that were stored by `serialize` brings back, for each in order,
      one that serializes as stored and has the stored name. */
  lemma RestoredParametersSerializeAsStored<T(!new)>(serialize: T -> Json, deserialize: (Json, Terminal) -> Result<(T, Terminal)>,
                                                     originals: seq<T>, stored: seq<Named<Json>>, term: Terminal)
    requires Restores(serialize, deserialize)
    requires |originals| == |stored|
    requires forall k :: 0 <= k < |stored| ==> stored[k].configuration == serialize(originals[k])
    ensures var r := Traverse(RestoreStep(deserialize), stored, [], term);
      r.Ok? ==> forall k :: 0 <= k < |stored| ==>
        r.value.0[k].name == stored[k].name && serialize(r.value.0[k].configuration) == stored[k].configuration
    ensures var r := Traverse(RestoreStep(deserialize), stored, [], term);
      Env.DefinesAllVariables(term.env) ==> r.Ok? && r.value.1 == term
  {
    forall k, t | 0 <= k < |stored|
      ensures var r := RestoreStep(deserialize)(stored[k], t);
        r.Ok? ==> r.value.0.name == stored[k].name && serialize(r.value.0.configuration) == stored[k].configuration
    {
      assert RestoredFrom(serialize, deserialize, originals[k], t);
    }
    TraverseKeeps(RestoreStep(deserialize),
      (s: Named<Json>, n: Named<T>) => n.name == s.name && serialize(n.configuration) == s.configuration, stored, [], term);
    if Env.DefinesAllVariables(term.env) {
      forall k | 0 <= k < |stored|
        ensures RestoreStep(deserialize)(stored[k], term).Ok? && RestoreStep(deserialize)(stored[k], term).value.1 == term
      {
        assert RestorableFrom(serialize, deserialize, originals[k], term);
      }
      TraverseLeavesTerminal(RestoreStep(deserialize), stored, [], term);
    }
  }

  /** Replaying a saved source restores it: its selections lead back to the handler that built
      it, and what that handler restores serializes exactly as saved. */
  lemma ReplayRestoresSavedSource<S(!new, 00), I(!new, 00)>(table: Table<AnySourceHandler<S, I>>, choice: NewSource<S, I>, term: Terminal)
    requires Lookup(table, choice.selections) == Some(choice.handler)
    ensures var r := DeserializedSourceFrom(table, SerializedSourceOf(choice), term);
      r.Ok? ==> SourceRestored(table, SerializedSourceOf(choice), r.value.0)
    ensures var r := DeserializedSourceFrom(table, SerializedSourceOf(choice), term);
      Env.DefinesAllVariables(term.env) ==> r.Ok? && r.value.1 == term
  {
    var stored := SerializedSourceOf(choice);
    var handler := choice.handler;
    var restored := handler.deserializeSource(stored.configuration, term);
    assert RestorableFrom(handler.serializeSource, handler.deserializeSource, choice.source, term);
    if restored.Ok? {
      assert RestoredFrom(handler.serializeSource, handler.deserializeSource, choice.source, term);
      var originals := seq(|choice.inlets|, k requires 0 <= k < |choice.inlets| => choice.inlets[k].configuration);
      RestoredParametersSerializeAsStored(handler.serializeInlet, handler.deserializeInlet, originals, stored.inlets, restored.value.1);
    }
  }

  /** Replaying a saved drain restores it. */
  lemma ReplayRestoresSavedDrain<D(!new, 00), O(!new, 00)>(table: Table<AnyDrainHandler<D, O>>, choice: NewDrain<D, O>, term: Terminal)
    requires Lookup(table, choice.selections) == Some(choice.handler)
    ensures var r := DeserializedDrainFrom(table, SerializedDrainOf(choice), term);
      r.Ok? ==> DrainRestored(table, SerializedDrainOf(choice), r.value.0)
    ensures var r := DeserializedDrainFrom(table, SerializedDrainOf(choice), term);
      Env.DefinesAllVariables(term.env) ==> r.Ok? && r.value.1 == term
  {
    var stored := SerializedDrainOf(choice);
    var handler := choice.handler;
    var restored := handler.deserializeDrain(stored.configuration, term);
    assert RestorableFrom(handler.serializeDrain, handler.deserializeDrain, choice.drain, term);
    if restored.Ok? {
      assert RestoredFrom(handler.serializeDrain, handler.deserializeDrain, choice.drain, term);
      var originals := seq(|choice.outlets|, k requires 0 <= k < |choice.outlets| => choice.outlets[k].configuration);
      RestoredParametersSerializeAsStored(handler.serializeOutlet, handler.deserializeOutlet, originals, stored.outlets, restored.value.1);
    }
  }

  /** Restoring a list of saved sources restores each of them, in order. */
  lemma {:induction false} RestoredSourcesAsSaved<S(!new, 00), I(!new, 00)>(table: Table<AnySourceHandler<S, I>>, sources: seq<NewSource<S, I>>,
                                                 stored: seq<SerializedSource>, term: Terminal)
    requires |sources| == |stored|
    requires forall k :: 0 <= k < |stored| ==>
      stored[k] == SerializedSourceOf(sources[k]) && Lookup(table, sources[k].selections) == Some(sources[k].handler)
    ensures var r := Traverse(SourceRestoreStep(table), stored, [], term);
      r.Ok? ==> forall k :: 0 <= k < |stored| ==> SourceRestored(table, stored[k], r.value.0[k])
    ensures var r := Traverse(SourceRestoreStep(table), stored, [], term);
      Env.DefinesAllVariables(term.env) ==> r.Ok? && r.value.1 == term
  {
    forall k, t | 0 <= k < |stored|
      ensures var r := DeserializedSourceFrom(table, stored[k], t); r.Ok? ==> SourceRestored(table, stored[k], r.value.0)
    {
      ReplayRestoresSavedSource(table, sources[k], t);
    }
    TraverseKeeps(SourceRestoreStep(table), (s, d) => SourceRestored(table, s, d), stored, [], term);
    if Env.DefinesAllVariables(term.env) {
      forall k | 0 <= k < |stored|
        ensures var r := DeserializedSourceFrom(table, stored[k], term); r.Ok? && r.value.1 == term
      {
        ReplayRestoresSavedSource(table, sources[k], term);
      }
      TraverseLeavesTerminal(SourceRestoreStep(table), stored, [], term);
    }
  }

  /** Restoring a list of saved drains restores each of them, in order. */
  lemma {:induction false} RestoredDrainsAsSaved<D(!new, 00), O(!new, 00)>(table: Table<AnyDrainHandler<D, O>>, drains: seq<NewDrain<D, O>>,
                                                stored: seq<SerializedDrain>, term: Terminal)
    requires |drains| == |stored|
    requires forall k :: 0 <= k < |stored| ==>
      stored[k] == SerializedDrainOf(drains[k]) && Lookup(table, drains[k].selections) == Some(drains[k].handler)
    ensures var r := Traverse(DrainRestoreStep(table), stored, [], term);
      r.Ok? ==> forall k :: 0 <= k < |stored| ==> DrainRestored(table, stored[k], r.value.0[k])
    ensures var r := Traverse(DrainRestoreStep(table), stored, [], term);
      Env.DefinesAllVariables(term.env) ==> r.Ok? && r.value.1 == term
  {
    forall k, t | 0 <= k < |stored|
      ensures var r := DeserializedDrainFrom(table, stored[k], t); r.Ok? ==> DrainRestored(table, stored[k], r.value.0)
    {
      ReplayRestoresSavedDrain(table, drains[k], t);
    }
    TraverseKeeps(DrainRestoreStep(table), (s, d) => DrainRestored(table, s, d), stored, [], term);
    if Env.DefinesAllVariables(term.env) {
      forall k | 0 <= k < |stored|
        ensures var r := DeserializedDrainFrom(table, stored[k], term); r.Ok? && r.value.1 == term
      {
        ReplayRestoresSavedDrain(table, drains[k], term);
      }
      TraverseLeavesTerminal(DrainRestoreStep(table), stored, [], term);
    }
  }

  /** The round trip of a session: a configuration saved by a fresh session, replayed later with
      the same registry, restores every source and every drain with all their inlets and outlets,
      in order and with their names, to values that serialize exactly as they were saved. Secrets
      left out of the file are filled in afresh from the terminal of the replay; when its
      environment defines every variable, both restores succeed without a prompt. */
  lemma FreshRunSavesReplayableConfiguration<S(!new, 00), I(!new, 00), D(!new, 00), O(!new, 00)>(
      sourceTable: Table<AnySourceHandler<S, I>>, drainTable: Table<AnyDrainHandler<D, O>>,
      fetch: (S, I) -> seq<TestResult>, term: Terminal, replaySources: Terminal, replayDrains: Terminal)
    ensures var r := FreshRun(sourceTable, drainTable, fetch, term);
      r.Ok? && r.value.0.saved.Some? ==>
        var configuration := r.value.0.saved.value.configuration;
        && (var sources := Traverse(SourceRestoreStep(sourceTable), configuration.sources, [], replaySources);
            && (sources.Ok? ==> forall k :: 0 <= k < |configuration.sources| ==>
                  SourceRestored(sourceTable, configuration.sources[k], sources.value.0[k]))
            && (Env.DefinesAllVariables(replaySources.env) ==> sources.Ok? && sources.value.1 == replaySources))
        && (var drains := Traverse(DrainRestoreStep(drainTable), configuration.drains, [], replayDrains);
            && (drains.Ok? ==> forall k :: 0 <= k < |configuration.drains| ==>
                  DrainRestored(drainTable, configuration.drains[k], drains.value.0[k]))
            && (Env.DefinesAllVariables(replayDrains.env) ==> drains.Ok? && drains.value.1 == replayDrains))
  {
    var built := BuildConfiguration(sourceTable, drainTable, term);
    BuiltConfigurationResolves(sourceTable, drainTable, term);
    if built.Ok? {
      var (sources, drains, afterDrains) := built.value;
      var saved := SaveIfWanted(sources, drains, afterDrains);
      if saved.Ok? && saved.value.0.Some? {
        var configuration := saved.value.0.value.configuration;
        RestoredSourcesAsSaved(sourceTable, sources, configuration.sources, replaySources);
        RestoredDrainsAsSaved(drainTable, drains, configuration.drains, replayDrains);
      }
    }
  }

  /** A configuration saved by a fresh session can be replayed: with the same registry and an
      environment that defines every variable, the replay runs to the end without a prompt. */
  lemma SavedConfigurationReplays<S(!new, 00), I(!new, 00), D(!new, 00), O(!new, 00)>(
      sourceTable: Table<AnySourceHandler<S, I>>, drainTable: Table<AnyDrainHandler<D, O>>,
      fetch: (S, I) -> seq<TestResult>, term: Terminal, replay: Terminal)
    ensures var r := FreshRun(sourceTable, drainTable, fetch, term);
      r.Ok? && r.value.0.saved.Some? && Env.DefinesAllVariables(replay.env) ==>
        var replayed := Replay(sourceTable, drainTable, r.value.0.saved.value.configuration, fetch, replay);
        replayed.Ok? && replayed.value.1 == replay
  {
    FreshRunSavesReplayableConfiguration(sourceTable, drainTable, fetch, term, replay, replay);
  }
}

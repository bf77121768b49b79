/** The contracts every source and drain handler fulfils (src/cli/cli-source-handler.ts,
    src/cli/cli-drain-handler.ts). A handler is a record of its six operations: build, serialize
    and deserialize the entity (a source or a drain) and its parameter sets (inlets or outlets).
    Building and deserializing may read the environment and prompt the user, so they take the
    terminal and hand back what is left of it; serialized forms are JSON values. The obligations
    the abstract classes document are the predicates below, and `AnySourceHandler` and
    `AnyDrainHandler` are the handlers that meet them. */
module Handlers {
  import opened Outcome
  import opened Env
  import opened Terminal
  import opened Serialized

  datatype SourceHandler<!S, !I> = SourceHandler(
    buildSource: Terminal -> Result<(S, Terminal)>,
    serializeSource: S -> Json,
    deserializeSource: (Json, Terminal) -> Result<(S, Terminal)>,
    buildInlet: Terminal -> Result<(I, Terminal)>,
    serializeInlet: I -> Json,
    deserializeInlet: (Json, Terminal) -> Result<(I, Terminal)>)

  datatype DrainHandler<!D, !O> = DrainHandler(
    buildDrain: Terminal -> Result<(D, Terminal)>,
    serializeDrain: D -> Json,
    deserializeDrain: (Json, Terminal) -> Result<(D, Terminal)>,
    buildOutlet: Terminal -> Result<(O, Terminal)>,
    serializeOutlet: O -> Json,
    deserializeOutlet: (Json, Terminal) -> Result<(O, Terminal)>)

  /** A successful step only consumed answers. */
  ghost predicate Consumes<T>(r: Result<(T, Terminal)>, term: Terminal)
  {
    r.Ok? ==> term.Precedes(r.value.1)
  }

  /** Building reads the environment and the user's answers, and nothing else. */
  ghost predicate Builds<T>(build: Terminal -> Result<(T, Terminal)>)
  {
    forall term :: Consumes(build(term), term)
  }

  /** Deserializing reads the stored value, the environment and the user's answers. */
  ghost predicate Reads<T>(deserialize: (Json, Terminal) -> Result<(T, Terminal)>)
  {
    forall stored, term :: Consumes(deserialize(stored, term), term)
  }

  /** What deserializing the serialization of `x` restores serializes exactly as `x` does: every
      detail that was stored comes back, and what was left out (secrets) is filled in afresh. */
  ghost predicate RestoredFrom<T>(serialize: T -> Json, deserialize: (Json, Terminal) -> Result<(T, Terminal)>, x: T, term: Terminal)
  {
    var r := deserialize(serialize(x), term);
    r.Ok? ==> serialize(r.value.0) == serialize(x)
  }

  /** Restoring the serialization of `x` succeeds, and without a prompt, when the environment
      defines every variable the program reads: what was left out of the file (secrets) is then
      taken from the environment, and the terminal comes back untouched. */
  ghost predicate RestorableFrom<T>(serialize: T -> Json, deserialize: (Json, Terminal) -> Result<(T, Terminal)>, x: T, term: Terminal)
  {
    var r := deserialize(serialize(x), term);
    DefinesAllVariables(term.env) ==> r.Ok? && r.value.1 == term
  }

  /** A handler "must be able to restore" what it serialized: whatever it restores serializes as
      stored, and with the environment complete the restore succeeds. */
  ghost predicate Restores<T(!new)>(serialize: T -> Json, deserialize: (Json, Terminal) -> Result<(T, Terminal)>)
  {
    forall x, term :: RestoredFrom(serialize, deserialize, x, term) && RestorableFrom(serialize, deserialize, x, term)
  }

  ghost predicate LawfulSourceHandler<S(!new), I(!new)>(h: SourceHandler<S, I>)
  {
    && Builds(h.buildSource) && Builds(h.buildInlet)
    && Reads(h.deserializeSource) && Reads(h.deserializeInlet)
    && Restores(h.serializeSource, h.deserializeSource)
    && Restores(h.serializeInlet, h.deserializeInlet)
  }

  ghost predicate LawfulDrainHandler<D(!new), O(!new)>(h: DrainHandler<D, O>)
  {
    && Builds(h.buildDrain) && Builds(h.buildOutlet)
    && Reads(h.deserializeDrain) && Reads(h.deserializeOutlet)
    && Restores(h.serializeDrain, h.deserializeDrain)
    && Restores(h.serializeOutlet, h.deserializeOutlet)
  }

  /** A handler of entities that store nothing: it builds and restores one fixed source and inlet
      without prompting. It shows that lawful handlers exist for any nonempty types. */
  ghost function ConstantSourceHandler<S(00), I(00)>(): SourceHandler<S, I>
  {
    var pair: (S, I) :| true;
    var (source, inlet) := pair;
    SourceHandler(
      term => Ok((source, term)), s => EmptyObject, (stored, term) => Ok((source, term)),
      term => Ok((inlet, term)), i => EmptyObject, (stored, term) => Ok((inlet, term)))
  }

  ghost function ConstantDrainHandler<D(00), O(00)>(): DrainHandler<D, O>
  {
    var pair: (D, O) :| true;
    var (drain, outlet) := pair;
    DrainHandler(
      term => Ok((drain, term)), d => EmptyObject, (stored, term) => Ok((drain, term)),
      term => Ok((outlet, term)), o => EmptyObject, (stored, term) => Ok((outlet, term)))
  }

  type AnySourceHandler<!S(!new, 00), !I(!new, 00)> = h: SourceHandler<S, I> | LawfulSourceHandler(h)
    ghost witness ConstantSourceHandler()

  type AnyDrainHandler<!D(!new, 00), !O(!new, 00)> = h: DrainHandler<D, O> | LawfulDrainHandler(h)
    ghost witness ConstantDrainHandler()
}

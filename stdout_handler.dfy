/** The handler of the stdout drain (src/cli/plugins/stdout/stdout-drain-handler.ts). A stdout
    drain has nothing to configure, and its outlet holds no secret, so the outlet is stored as
    it is. */
module StdOutDrainHandler {
  import opened Outcome
  import opened Terminal
  import opened Serialized
  import opened Handlers
  import opened StdOutDrain

  /** `buildDrain`: a drain with the empty configuration. */
  function BuildDrain(): StdOutDrain
  {
    StdOutDrain(EmptyObject)
  }

  /** `serializeDrain` */
  function SerializeDrain(drain: StdOutDrain): Json
  {
    EmptyObject
  }

  /** `deserializeDrain` */
  function DeserializeDrain(serialized: Json): StdOutDrain
  {
    StdOutDrain(EmptyObject)
  }

  /** `buildOutlet`: asks whether to colour the output, then whether to use Unicode. */
  function BuildOutlet(term: Terminal): (r: Result<(StdOutOutlet, Terminal)>)
    ensures r.Ok? <==> |term.answers| >= 2 && term.answers[0].Confirmation? && term.answers[1].Confirmation?
    ensures r.Ok? ==> r.value.0 == StdOutOutlet(term.answers[0].yes, term.answers[1].yes)
    ensures r.Ok? ==> r.value.1 == Terminal(term.env, term.answers[2..])
  {
    var (useColor, afterColor) :- term.Confirm();
    var (useUnicode, afterUnicode) :- afterColor.Confirm();
    Ok((StdOutOutlet(useColor, useUnicode), afterUnicode))
  }

  /** `serializeOutlet`: nothing to omit. */
  function SerializeOutlet(outlet: StdOutOutlet): StdOutOutlet
  {
    outlet
  }

  /** `deserializeOutlet` */
  function DeserializeOutlet(serialized: StdOutOutlet): StdOutOutlet
  {
    serialized
  }

  /** The serialized outlet as it is written into the configuration file. */
  function EncodeOutlet(outlet: StdOutOutlet): Json
  {
    JObject(map["useColor" := JBool(outlet.useColor), "useUnicode" := JBool(outlet.useUnicode)])
  }

  /** The serialized outlet read back from the configuration file. */
  function DecodeOutlet(stored: Json): (r: Result<StdOutOutlet>)
    ensures r.Ok? <==> GetBool(stored, "useColor").Ok? && GetBool(stored, "useUnicode").Ok?
    ensures r.Ok? ==> r.value == StdOutOutlet(stored.fields["useColor"].b, stored.fields["useUnicode"].b)
  {
    var useColor :- GetBool(stored, "useColor");
    var useUnicode :- GetBool(stored, "useUnicode");
    Ok(StdOutOutlet(useColor, useUnicode))
  }

  function RestoreDrain(stored: Json, term: Terminal): Result<(StdOutDrain, Terminal)>
  {
    Ok((DeserializeDrain(stored), term))
  }

  function RestoreOutlet(stored: Json, term: Terminal): Result<(StdOutOutlet, Terminal)>
  {
    var serialized :- DecodeOutlet(stored);
    Ok((DeserializeOutlet(serialized), term))
  }

  function RawHandler(): DrainHandler<StdOutDrain, StdOutOutlet>
  {
    DrainHandler(
      term => Ok((BuildDrain(), term)), drain => SerializeDrain(drain), RestoreDrain,
      BuildOutlet, outlet => EncodeOutlet(SerializeOutlet(outlet)), RestoreOutlet)
  }

  /** `new StdOutDrainHandler()` */
  function Handler(): AnyDrainHandler<StdOutDrain, StdOutOutlet>
  {
    HandlerIsLawful();
    RawHandler()
  }

  /** Nothing of a drain is stored, and building and deserializing give the same drain whatever
      was stored. */
  lemma DrainCodec(drain: StdOutDrain, stored: Json)
    ensures SerializeDrain(drain) == EmptyObject
    ensures DeserializeDrain(stored) == BuildDrain()
    ensures BuildDrain().configuration == EmptyObject
  {
  }

  /** The outlet comes back unchanged, through the serialized form and through the file. */
  lemma OutletRoundTrip(outlet: StdOutOutlet)
    ensures SerializeOutlet(outlet) == outlet
    ensures DeserializeOutlet(SerializeOutlet(outlet)) == outlet
    ensures DecodeOutlet(EncodeOutlet(SerializeOutlet(outlet))) == Ok(outlet)
  {
  }

  /** Two confirmations make an outlet, the first for colour and the second for Unicode. */
  lemma BuildOutletAsksColourFirst(term: Terminal, useColor: bool, useUnicode: bool)
    requires |term.answers| >= 2
    requires term.answers[0] == Confirmation(useColor) && term.answers[1] == Confirmation(useUnicode)
    ensures BuildOutlet(term) == Ok((StdOutOutlet(useColor, useUnicode), Terminal(term.env, term.answers[2..])))
  {
  }

  lemma HandlerIsLawful()
    ensures LawfulDrainHandler(RawHandler())
  {
    var h := RawHandler();
    forall term: Terminal
      ensures Consumes(h.buildOutlet(term), term)
    {
      var r := BuildOutlet(term);
      if r.Ok? {
        assert term.answers[2..] == term.answers[|term.answers| - |r.value.1.answers|..];
      }
    }
    forall outlet: StdOutOutlet, term: Terminal
      ensures RestoredFrom(h.serializeOutlet, h.deserializeOutlet, outlet, term)
      ensures RestorableFrom(h.serializeOutlet, h.deserializeOutlet, outlet, term)
    {
      OutletRoundTrip(outlet);
    }
  }
}

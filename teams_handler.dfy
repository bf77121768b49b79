/** The handler of the Microsoft Teams drain
    (src/cli/plugins/microsoft/teams/microsoft-teams-drain-handler.ts). Its only setting, the
    webhook URL of the channel, is private: it is never stored, and is read from the environment
    or asked for again whenever an outlet is built or restored. */
module MicrosoftTeamsDrainHandler {
  import opened Outcome
  import opened Env
  import opened Terminal
  import opened Serialized
  import opened Handlers

  /** A Teams drain; its configuration is not used. */
  datatype MicrosoftTeamsDrain = MicrosoftTeamsDrain(configuration: Json)

  /** `MicrosoftTeamsOutlet` */
  datatype MicrosoftTeamsOutlet = MicrosoftTeamsOutlet(incomingWebhookUrl: string)

  /** `buildDrain`: a drain with the empty configuration. */
  function BuildDrain(): MicrosoftTeamsDrain
  {
    MicrosoftTeamsDrain(EmptyObject)
  }

  /** `serializeDrain` */
  function SerializeDrain(drain: MicrosoftTeamsDrain): Json
  {
    EmptyObject
  }

  /** `deserializeDrain` */
  function DeserializeDrain(serialized: Json): MicrosoftTeamsDrain
  {
    MicrosoftTeamsDrain(EmptyObject)
  }

  /** `getWebhookUrl`: `MICROSOFT_TEAMS_WEBHOOK_URL` whenever it is defined, even when empty;
      otherwise the URL the user types. */
  function GetWebhookUrl(term: Terminal): (r: Result<(string, Terminal)>)
    ensures EnvName(MicrosoftTeamsWebhookUrl) in term.env ==> r == Ok((term.env[EnvName(MicrosoftTeamsWebhookUrl)], term))
    ensures EnvName(MicrosoftTeamsWebhookUrl) !in term.env ==>
      (r.Ok? <==> |term.answers| > 0 && term.answers[0].Typed?)
    ensures EnvName(MicrosoftTeamsWebhookUrl) !in term.env && r.Ok? ==>
      r.value == (term.answers[0].text, Terminal(term.env, term.answers[1..]))
  {
    term.EnvOrInput(MicrosoftTeamsWebhookUrl)
  }

  /** `buildOutlet` */
  function BuildOutlet(term: Terminal): Result<(MicrosoftTeamsOutlet, Terminal)>
  {
    var (url, rest) :- GetWebhookUrl(term);
    Ok((MicrosoftTeamsOutlet(url), rest))
  }

  /** `serializeOutlet`: the webhook URL is left out. */
  function SerializeOutlet(outlet: MicrosoftTeamsOutlet): Json
  {
    EmptyObject
  }

  /** `deserializeOutlet`: whatever was stored, the URL is obtained as when building. */
  function DeserializeOutlet(serialized: Json, term: Terminal): Result<(MicrosoftTeamsOutlet, Terminal)>
  {
    var (url, rest) :- GetWebhookUrl(term);
    Ok((MicrosoftTeamsOutlet(url), rest))
  }

  function RawHandler(): DrainHandler<MicrosoftTeamsDrain, MicrosoftTeamsOutlet>
  {
    DrainHandler(
      term => Ok((BuildDrain(), term)), SerializeDrain, (stored, term) => Ok((DeserializeDrain(stored), term)),
      BuildOutlet, SerializeOutlet, DeserializeOutlet)
  }

  /** `new MicrosoftTeamsDrainHandler()` */
  function Handler(): AnyDrainHandler<MicrosoftTeamsDrain, MicrosoftTeamsOutlet>
  {
    HandlerIsLawful();
    RawHandler()
  }

  /** Nothing of a drain is stored, and building and deserializing give the same drain whatever
      was stored. */
  lemma DrainCodec(drain: MicrosoftTeamsDrain, stored: Json)
    ensures SerializeDrain(drain) == EmptyObject
    ensures DeserializeDrain(stored) == BuildDrain()
    ensures BuildDrain().configuration == EmptyObject
  {
  }

  /** The webhook URL is never stored: outlets that differ only in their URL serialize alike. */
  lemma WebhookUrlNeverStored(a: MicrosoftTeamsOutlet, b: MicrosoftTeamsOutlet)
    ensures SerializeOutlet(a) == SerializeOutlet(b) == EmptyObject
  {
  }

  /** Restoring an outlet obtains the URL exactly as building one does, ignoring what was stored;
      with the variable defined, no prompt is shown and the variable's value is used. */
  lemma DeserializeOutletIsBuildOutlet(stored: Json, term: Terminal)
    ensures DeserializeOutlet(stored, term) == BuildOutlet(term)
    ensures EnvName(MicrosoftTeamsWebhookUrl) in term.env ==>
      DeserializeOutlet(stored, term) == Ok((MicrosoftTeamsOutlet(term.env[EnvName(MicrosoftTeamsWebhookUrl)]), term))
  {
  }

  lemma HandlerIsLawful()
    ensures LawfulDrainHandler(RawHandler())
  {
    forall term: Terminal
      ensures Consumes(BuildOutlet(term), term)
    {
      PromptsOnlyConsume(term, {}, "", MicrosoftTeamsWebhookUrl);
    }
    forall stored: Json, term: Terminal
      ensures Consumes(DeserializeOutlet(stored, term), term)
    {
      PromptsOnlyConsume(term, {}, "", MicrosoftTeamsWebhookUrl);
    }
    forall outlet: MicrosoftTeamsOutlet, term: Terminal
      ensures RestorableFrom(SerializeOutlet, DeserializeOutlet, outlet, term)
    {
      DeserializeOutletIsBuildOutlet(SerializeOutlet(outlet), term);
    }
  }
}

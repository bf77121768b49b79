/** The handler of Xray test plan sources in src/sources
    (src/sources/xray/test-plan/xray-test-plan-source-handler.ts). Here cloud and server sources
    both hold a Jira client, the user picks the Xray authentication, and the saved configuration
    records the kind of each client. The authentication kinds are those of
    src/cli/plugins/xray/util/constants.ts; src/sources/xray/test-plan/xray-test-plan-source.ts,
    which declares them for this handler, is not part of this model. */
module XrayTestPlanSourceHandler {
  import opened Outcome
  import opened Env
  import opened Terminal
  import opened Serialized
  import opened Handlers
  import opened XrayClients

  /** `XrayTestPlanCloudSource` or `XrayTestPlanServerSource` */
  datatype XrayTestPlanSource =
    | CloudSource(jira: JiraConfiguration, xray: XrayConfiguration)
    | ServerSource(jira: JiraConfiguration, xray: XrayConfiguration)

  datatype SerializedJira = SerializedJira(authentication: JiraAuthentication, kind: JiraApiVersion, url: string)

  datatype SerializedXray = SerializedXray(authentication: XrayAuthentication, kind: XrayClientKind, url: string)

  /** `SerializedConfiguration` */
  datatype SerializedConfiguration = SerializedConfiguration(jira: SerializedJira, xray: SerializedXray)

  /** `SerializedParameters` */
  datatype SerializedParameters = SerializedParameters(testPlanKey: string)

  /** `JIRA_API_VERSION` */
  function VersionName(version: JiraApiVersion): string
  {
    match version
    case Version2 => "version-2"
    case Version3 => "version-3"
  }

  function KindName(kind: XrayClientKind): string
  {
    match kind
    case Cloud => "cloud"
    case Server => "server"
  }

  /** The shape of the Jira credentials for each authentication: basic credentials are a username
      and a password on a server and an email address and an API token in the cloud. */
  predicate JiraCredentialsFit(isServer: bool, authentication: JiraAuthentication, credentials: JiraCredentials)
  {
    match authentication
    case JiraBasic => if isServer then credentials.BasicPassword? else credentials.BasicApiToken?
    case JiraOAuth2 => credentials.OAuth2?
    case JiraPat => credentials.PersonalAccessToken?
  }

  /** The shape of the Xray credentials for each authentication. */
  predicate XrayCredentialsFit(authentication: XrayAuthentication, credentials: XrayCredentials)
  {
    match authentication
    case XrayBasic => credentials.UsernamePassword?
    case XrayClientCredentials => credentials.ClientCredentials? && credentials.path == AuthenticatePath
    case XrayPat => credentials.UsernameToken?
  }

  /** A source as this handler builds and restores it: its class follows the kind of its Xray
      client, its clients talk to the configured URLs, and its credentials fit the authentications. */
  predicate WellFormed(source: XrayTestPlanSource)
  {
    && source.jira.client.host == source.jira.url
    && source.xray.client.url == source.xray.url
    && source.xray.client.kind == (if source.CloudSource? then Cloud else Server)
    && JiraCredentialsFit(source.ServerSource?, source.jira.authentication, source.jira.client.authentication)
    && XrayCredentialsFit(source.xray.authentication, source.xray.client.credentials)
  }

  /** What building adds: a server's Xray shares Jira's URL. */
  predicate Built(source: XrayTestPlanSource)
  {
    WellFormed(source) && (source.ServerSource? ==> source.xray.url == source.jira.url)
  }

  /** `isJiraServerSource`. The older handler keeps its own copy of this prompt and of
      `buildInlet`, identical to the plugin handler's; the model mirrors that duplication, since
      the two handlers' inlet types are distinct. */
  function IsJiraServerSource(term: Terminal): (r: Result<(bool, Terminal)>)
    ensures r.Ok? ==> term.Precedes(r.value.1)
    ensures r.Ok? ==> |term.answers| > 0 && r.value.0 == (term.answers[0] == Choice("server"))
  {
    var (serverOrCloud, rest) :- term.Select({"server", "cloud"});
    Ok((serverOrCloud == "server", rest))
  }

  /** `getJiraCredentials` */
  function GetJiraCredentials(isServer: bool, authentication: JiraAuthentication, term: Terminal): (r: Result<(JiraCredentials, Terminal)>)
    ensures r.Ok? ==> term.Precedes(r.value.1) && JiraCredentialsFit(isServer, authentication, r.value.0)
  {
    match authentication
    case JiraBasic =>
      if isServer then
        var (username, afterUsername) :- term.EnvOrInput(JiraUsername);
        var (password, afterPassword) :- afterUsername.EnvOrInput(JiraPassword);
        PrecedesTransitive(term, afterUsername, afterPassword);
        Ok((BasicPassword(password, username), afterPassword))
      else
        var (email, afterEmail) :- term.EnvOrInput(JiraEmail);
        var (token, afterToken) :- afterEmail.EnvOrInput(JiraToken);
        PrecedesTransitive(term, afterEmail, afterToken);
        Ok((BasicApiToken(token, email), afterToken))
    case JiraOAuth2 =>
      var (accessToken, rest) :- term.EnvOrInput(JiraToken);
      Ok((OAuth2(accessToken), rest))
    case JiraPat =>
      var (token, rest) :- term.EnvOrInput(JiraToken);
      Ok((PersonalAccessToken(token), rest))
  }

  /** `getXrayCredentials` */
  function GetXrayCredentials(authentication: XrayAuthentication, term: Terminal): (r: Result<(XrayCredentials, Terminal)>)
    ensures r.Ok? ==> term.Precedes(r.value.1) && XrayCredentialsFit(authentication, r.value.0)
  {
    match authentication
    case XrayBasic =>
      var (username, afterUsername) :- term.EnvOrInput(JiraUsername);
      var (password, afterPassword) :- afterUsername.EnvOrInput(JiraPassword);
      PrecedesTransitive(term, afterUsername, afterPassword);
      Ok((UsernamePassword(password, username), afterPassword))
    case XrayClientCredentials =>
      var (clientId, afterId) :- term.EnvOrInput(XrayClientId);
      var (clientSecret, afterSecret) :- afterId.EnvOrInput(XrayClientSecret);
      PrecedesTransitive(term, afterId, afterSecret);
      Ok((ClientCredentials(clientId, clientSecret, AuthenticatePath), afterSecret))
    case XrayPat =>
      var (username, afterUsername) :- term.EnvOrInput(JiraUsername);
      var (token, afterToken) :- afterUsername.EnvOrInput(JiraToken);
      PrecedesTransitive(term, afterUsername, afterToken);
      Ok((UsernameToken(token, username), afterToken))
  }

  /** The Jira part of `buildSource`: the API version, the authentication and the credentials. */
  function BuildJira(isServer: bool, jiraUrl: string, term: Terminal): (r: Result<(JiraConfiguration, Terminal)>)
    ensures r.Ok? ==> term.Precedes(r.value.1)
    ensures r.Ok? ==> var jira := r.value.0;
      && jira.url == jiraUrl && jira.client.host == jiraUrl
      && JiraCredentialsFit(isServer, jira.authentication, jira.client.authentication)
  {
    var (versionChoice, afterVersion) :- term.Select({"version-2", "version-3"});
    var (jiraChoice, afterJiraChoice) :- afterVersion.Select(JiraAuthenticationNames);
    PrecedesTransitive(term, afterVersion, afterJiraChoice);
    var authentication := ParseJiraAuthentication(jiraChoice).value;
    var (credentials, afterJira) :- GetJiraCredentials(isServer, authentication, afterJiraChoice);
    PrecedesTransitive(term, afterJiraChoice, afterJira);
    var version := if versionChoice == "version-2" then Version2 else Version3;
    Ok((JiraConfiguration(authentication, JiraClient(version, credentials, jiraUrl), jiraUrl), afterJira))
  }

  /** The Xray part of `buildSource`: the authentication and the credentials. */
  function BuildXray(kind: XrayClientKind, xrayUrl: string, term: Terminal): (r: Result<(XrayConfiguration, Terminal)>)
    ensures r.Ok? ==> term.Precedes(r.value.1)
    ensures r.Ok? ==> var xray := r.value.0;
      && xray.url == xrayUrl && xray.client == XrayClient(kind, xray.client.credentials, xrayUrl)
      && XrayCredentialsFit(xray.authentication, xray.client.credentials)
  {
    var (xrayChoice, afterXrayChoice) :- term.Select(XrayAuthenticationNames);
    var authentication := ParseXrayAuthentication(xrayChoice).value;
    var (credentials, afterXray) :- GetXrayCredentials(authentication, afterXrayChoice);
    PrecedesTransitive(term, afterXrayChoice, afterXray);
    Ok((XrayConfiguration(authentication, XrayClient(kind, credentials, xrayUrl), xrayUrl), afterXray))
  }

  /** `buildSource`: server or cloud, the Jira URL, the Xray Cloud URL for a cloud, then the Jira
      and the Xray settings. */
  function BuildSource(term: Terminal): (r: Result<(XrayTestPlanSource, Terminal)>)
    ensures r.Ok? ==> term.Precedes(r.value.1)
    ensures r.Ok? ==> |term.answers| > 0 && (r.value.0.ServerSource? <==> term.answers[0] == Choice("server"))
    ensures r.Ok? ==> Built(r.value.0)
  {
    var (isServer, afterKind) :- IsJiraServerSource(term);
    var (jiraUrl, afterJiraUrl) :- afterKind.EnvOrInput(JiraUrl);
    PrecedesTransitive(term, afterKind, afterJiraUrl);
    var (xrayUrl, afterXrayUrl) :- if isServer then Ok((jiraUrl, afterJiraUrl)) else afterJiraUrl.Select(XrayCloudUrls);
    PrecedesTransitive(term, afterJiraUrl, afterXrayUrl);
    var (jira, afterJira) :- BuildJira(isServer, jiraUrl, afterXrayUrl);
    PrecedesTransitive(term, afterXrayUrl, afterJira);
    var (xray, afterXray) :- BuildXray(if isServer then Server else Cloud, xrayUrl, afterJira);
    PrecedesTransitive(term, afterJira, afterXray);
    if isServer then Ok((ServerSource(jira, xray), afterXray))
    else Ok((CloudSource(jira, xray), afterXray))
  }

  /** `serializeSource`: the Jira kind is "version-2" exactly for a `Version2Client`, the Xray kind
      "cloud" exactly for an `XrayClientCloud`. */
  function SerializeSource(source: XrayTestPlanSource): (s: SerializedConfiguration)
    ensures s.jira.kind == Version2 <==> source.jira.client.version == Version2
    ensures s.xray.kind == Cloud <==> source.xray.client.kind == Cloud
  {
    SerializedConfiguration(
      SerializedJira(source.jira.authentication, source.jira.client.version, source.jira.url),
      SerializedXray(source.xray.authentication, source.xray.client.kind, source.xray.url))
  }

  /** `deserializeSource`: the clients are picked by the stored kinds, the source is a cloud
      source exactly when the Xray kind is "cloud", and the credentials are obtained afresh. */
  function DeserializeSource(serialized: SerializedConfiguration, term: Terminal): (r: Result<(XrayTestPlanSource, Terminal)>)
    ensures r.Ok? ==> term.Precedes(r.value.1)
    ensures r.Ok? ==> (r.value.0.CloudSource? <==> serialized.xray.kind == Cloud)
    ensures r.Ok? ==> WellFormed(r.value.0)
    ensures r.Ok? ==> SerializeSource(r.value.0) == serialized
  {
    var isServer := serialized.xray.kind == Server;
    var (jiraCredentials, afterJira) :- GetJiraCredentials(isServer, serialized.jira.authentication, term);
    var (xrayCredentials, afterXray) :- GetXrayCredentials(serialized.xray.authentication, afterJira);
    PrecedesTransitive(term, afterJira, afterXray);
    var jira := JiraConfiguration(serialized.jira.authentication,
      JiraClient(serialized.jira.kind, jiraCredentials, serialized.jira.url), serialized.jira.url);
    var xray := XrayConfiguration(serialized.xray.authentication,
      XrayClient(serialized.xray.kind, xrayCredentials, serialized.xray.url), serialized.xray.url);
    if xray.client.kind == Cloud then Ok((CloudSource(jira, xray), afterXray))
    else Ok((ServerSource(jira, xray), afterXray))
  }

  /** `buildInlet`: the issue key of the test plan. */
  function BuildInlet(term: Terminal): (r: Result<(XrayTestPlanInlet, Terminal)>)
    ensures r.Ok? <==> term.Input().Ok?
    ensures r.Ok? ==> r.value == (XrayTestPlanInlet(term.answers[0].text), term.Next())
  {
    var (testPlanKey, rest) :- term.Input();
    Ok((XrayTestPlanInlet(testPlanKey), rest))
  }

  /** `serializeInlet` */
  function SerializeInlet(parameters: XrayTestPlanInlet): SerializedParameters
  {
    SerializedParameters(parameters.testPlanKey)
  }

  /** `deserializeInlet` */
  function DeserializeInlet(serialized: SerializedParameters): XrayTestPlanInlet
  {
    XrayTestPlanInlet(serialized.testPlanKey)
  }

  /** The serialized configuration as it is written into the configuration file. */
  function EncodeConfiguration(serialized: SerializedConfiguration): Json
  {
    JObject(map[
      "jira" := JObject(map[
        "authentication" := JString(JiraAuthenticationName(serialized.jira.authentication)),
        "kind" := JString(VersionName(serialized.jira.kind)),
        "url" := JString(serialized.jira.url)]),
      "xray" := JObject(map[
        "authentication" := JString(XrayAuthenticationName(serialized.xray.authentication)),
        "kind" := JString(KindName(serialized.xray.kind)),
        "url" := JString(serialized.xray.url)])])
  }

  function DecodeJira(stored: Json): Result<SerializedJira>
  {
    var jira :- GetField(stored, "jira");
    var authenticationName :- GetString(jira, "authentication");
    var kindName :- GetString(jira, "kind");
    var url :- GetString(jira, "url");
    var authentication := ParseJiraAuthentication(authenticationName);
    if authentication.None? || kindName !in {"version-2", "version-3"} then Err(MalformedMessage)
    else Ok(SerializedJira(authentication.value, if kindName == "version-2" then Version2 else Version3, url))
  }

  function DecodeXray(stored: Json): Result<SerializedXray>
  {
    var xray :- GetField(stored, "xray");
    var authenticationName :- GetString(xray, "authentication");
    var kindName :- GetString(xray, "kind");
    var url :- GetString(xray, "url");
    var authentication := ParseXrayAuthentication(authenticationName);
    if authentication.None? || kindName !in {"cloud", "server"} then Err(MalformedMessage)
    else Ok(SerializedXray(authentication.value, if kindName == "cloud" then Cloud else Server, url))
  }

  /** The serialized configuration read back from the configuration file. */
  function DecodeConfiguration(stored: Json): Result<SerializedConfiguration>
  {
    var jira :- DecodeJira(stored);
    var xray :- DecodeXray(stored);
    Ok(SerializedConfiguration(jira, xray))
  }

  function EncodeInlet(serialized: SerializedParameters): Json
  {
    JObject(map["testPlanKey" := JString(serialized.testPlanKey)])
  }

  function DecodeInlet(stored: Json): (r: Result<SerializedParameters>)
    ensures r.Ok? <==> GetString(stored, "testPlanKey").Ok?
  {
    var testPlanKey :- GetString(stored, "testPlanKey");
    Ok(SerializedParameters(testPlanKey))
  }

  function RestoreSource(stored: Json, term: Terminal): Result<(XrayTestPlanSource, Terminal)>
  {
    var serialized :- DecodeConfiguration(stored);
    DeserializeSource(serialized, term)
  }

  function RestoreInlet(stored: Json, term: Terminal): Result<(XrayTestPlanInlet, Terminal)>
  {
    var serialized :- DecodeInlet(stored);
    Ok((DeserializeInlet(serialized), term))
  }

  function RawHandler(): SourceHandler<XrayTestPlanSource, XrayTestPlanInlet>
  {
    SourceHandler(
      BuildSource, source => EncodeConfiguration(SerializeSource(source)), RestoreSource,
      BuildInlet, inlet => EncodeInlet(SerializeInlet(inlet)), RestoreInlet)
  }

  /** `new XrayTestPlanSourceHandler()` */
  function Handler(): AnySourceHandler<XrayTestPlanSource, XrayTestPlanInlet>
  {
    HandlerIsLawful();
    RawHandler()
  }

  /** The source with other credentials in its clients. */
  function WithCredentials(source: XrayTestPlanSource, jiraCredentials: JiraCredentials, xrayCredentials: XrayCredentials): XrayTestPlanSource
  {
    var jira := source.jira.(client := source.jira.client.(authentication := jiraCredentials));
    var xray := source.xray.(client := source.xray.client.(credentials := xrayCredentials));
    if source.CloudSource? then CloudSource(jira, xray) else ServerSource(jira, xray)
  }

  /** No credential reaches the saved configuration: sources that differ only in their
      credentials serialize alike. */
  lemma SerializationOmitsCredentials(source: XrayTestPlanSource, jiraCredentials: JiraCredentials, xrayCredentials: XrayCredentials)
    ensures SerializeSource(WithCredentials(source, jiraCredentials, xrayCredentials)) == SerializeSource(source)
  {
  }

  /** A saved well-formed source is restored with its class, both client kinds, its URLs and its
      authentications; a built one is restored as a built one. */
  lemma RoundTripRestoresSource(source: XrayTestPlanSource, term: Terminal)
    requires WellFormed(source)
    ensures var r := DeserializeSource(SerializeSource(source), term);
      r.Ok? ==> && r.value.0.CloudSource? == source.CloudSource?
                && r.value.0.jira.client.version == source.jira.client.version
                && r.value.0.xray.client.kind == source.xray.client.kind
                && r.value.0.jira.authentication == source.jira.authentication
                && r.value.0.jira.url == source.jira.url
                && r.value.0.xray.authentication == source.xray.authentication
                && r.value.0.xray.url == source.xray.url
                && (Built(source) ==> Built(r.value.0))
  {
    var r := DeserializeSource(SerializeSource(source), term);
    if r.Ok? {
      assert SerializeSource(r.value.0) == SerializeSource(source);
    }
  }

  /** Which variables make up basic Jira credentials: the username and password on a server, the
      email address and the token in the cloud. */
  lemma BasicCredentialsFromEnvironment(term: Terminal)
    requires EnvName(JiraUsername) in term.env && EnvName(JiraPassword) in term.env
    requires EnvName(JiraEmail) in term.env && EnvName(JiraToken) in term.env
    ensures GetJiraCredentials(true, JiraBasic, term)
      == Ok((BasicPassword(term.env[EnvName(JiraPassword)], term.env[EnvName(JiraUsername)]), term))
    ensures GetJiraCredentials(false, JiraBasic, term)
      == Ok((BasicApiToken(term.env[EnvName(JiraToken)], term.env[EnvName(JiraEmail)]), term))
  {
  }

  /** With every variable defined, restoring prompts for nothing. */
  lemma DeserializeFromEnvironment(serialized: SerializedConfiguration, term: Terminal)
    requires EnvName(JiraUsername) in term.env && EnvName(JiraPassword) in term.env && EnvName(JiraToken) in term.env
    requires EnvName(JiraEmail) in term.env
    requires EnvName(XrayClientId) in term.env && EnvName(XrayClientSecret) in term.env
    ensures DeserializeSource(serialized, term).Ok?
    ensures DeserializeSource(serialized, term).value.1 == term
  {
  }

  /** The serialized configuration and inlet survive the configuration file. */
  lemma FileRoundTrip(serialized: SerializedConfiguration, inlet: SerializedParameters)
    ensures DecodeConfiguration(EncodeConfiguration(serialized)) == Ok(serialized)
    ensures DecodeInlet(EncodeInlet(inlet)) == Ok(inlet)
  {
    AuthenticationNamesRoundTrip(serialized.jira.authentication, serialized.xray.authentication);
  }

  /** Only the test plan key is kept, and it comes back. */
  lemma InletRoundTrip(inlet: XrayTestPlanInlet)
    ensures DeserializeInlet(SerializeInlet(inlet)) == inlet
  {
  }

  lemma HandlerIsLawful()
    ensures LawfulSourceHandler(RawHandler())
  {
    var h := RawHandler();
    var anySerialized := SerializedConfiguration(SerializedJira(JiraBasic, Version2, ""), SerializedXray(XrayBasic, Cloud, ""));
    forall source: XrayTestPlanSource, term: Terminal
      ensures RestoredFrom(h.serializeSource, h.deserializeSource, source, term)
      ensures RestorableFrom(h.serializeSource, h.deserializeSource, source, term)
    {
      FileRoundTrip(SerializeSource(source), SerializedParameters(""));
      if DefinesAllVariables(term.env) {
        DeserializeFromEnvironment(SerializeSource(source), term);
      }
    }
    forall inlet: XrayTestPlanInlet, term: Terminal
      ensures RestoredFrom(h.serializeInlet, h.deserializeInlet, inlet, term)
      ensures RestorableFrom(h.serializeInlet, h.deserializeInlet, inlet, term)
    {
      FileRoundTrip(anySerialized, SerializeInlet(inlet));
    }
  }
}

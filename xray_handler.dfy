/** The handler of Xray test plan sources of the command line plugin
    (src/cli/plugins/xray/test-plan/xray-test-plan-source-handler.ts). A source is either a Jira
    and Xray server, reached with one set of credentials, or a Jira and Xray cloud pair, where Xray
    is reached with client credentials. The saved configuration holds the URLs, the
    authentication kinds and the Jira API version; every credential is read from the environment
    or asked for again when the source is restored. */
module XrayPluginSourceHandler {
  import opened Outcome
  import opened Env
  import opened Terminal
  import opened Serialized
  import opened Handlers
  import opened XrayClients

  /** `XrayTestPlanServerSource` or `XrayTestPlanCloudSource`; a cloud source knows only the URL
      of Jira. */
  datatype XrayTestPlanSource =
    | ServerSource(jira: JiraConfiguration, xray: XrayConfiguration)
    | CloudSource(jiraUrl: string, xray: XrayConfiguration)

  datatype SerializedXray = SerializedXray(authentication: XrayAuthentication, url: string)

  /** `SerializedConfigurationServer` and `SerializedConfigurationCloud` */
  datatype SerializedConfiguration =
    | SerializedServer(jiraAuthentication: JiraAuthentication, jiraUrl: string, version: JiraApiVersion, xray: SerializedXray)
    | SerializedCloud(jiraUrl: string, xray: SerializedXray)

  datatype SerializedInlet = SerializedInlet(testPlanKey: string)

  /** `JIRA_API_VERSION` */
  function VersionName(version: JiraApiVersion): string
  {
    match version
    case Version2 => "v2"
    case Version3 => "v3"
  }

  /** The credentials asked for fit the chosen Jira authentication. */
  predicate CredentialsFit(authentication: JiraAuthentication, credentials: JiraCredentials)
  {
    match authentication
    case JiraBasic => credentials.BasicPassword?
    case JiraOAuth2 => credentials.OAuth2?
    case JiraPat => credentials.PersonalAccessToken?
  }

  /** On a server, a non-empty Jira personal access token is also the Xray token; any other Jira
      credentials leave Xray to a username and a password. */
  predicate XrayCredentialsFollowJira(jiraCredentials: JiraCredentials, xrayCredentials: XrayCredentials)
  {
    if jiraCredentials.PersonalAccessToken? && jiraCredentials.personalAccessToken != "" then
      xrayCredentials == Token(jiraCredentials.personalAccessToken)
    else
      xrayCredentials.UsernamePassword?
  }

  /** A source as this handler builds and restores it: the clients talk to the configured URLs,
      a server's Xray client is a server client with credentials derived from Jira's, and a cloud
      source's Xray client is a cloud client with client credentials. */
  predicate WellFormed(source: XrayTestPlanSource)
  {
    match source
    case ServerSource(jira, xray) =>
      && CredentialsFit(jira.authentication, jira.client.authentication)
      && jira.client.host == jira.url
      && xray.client == XrayClient(Server, xray.client.credentials, xray.url)
      && XrayCredentialsFollowJira(jira.client.authentication, xray.client.credentials)
    case CloudSource(_, xray) =>
      && xray.client == XrayClient(Cloud, xray.client.credentials, xray.url)
      && xray.client.credentials.ClientCredentials?
      && xray.client.credentials.path == AuthenticatePath
  }

  /** What building adds: a server's Xray shares Jira's URL and is authenticated by token exactly
      when the Jira token is reused; a cloud's Xray is authenticated by client credentials. */
  predicate Built(source: XrayTestPlanSource)
  {
    && WellFormed(source)
    && match source
      case ServerSource(jira, xray) =>
        && xray.url == jira.url
        && xray.authentication == (if xray.client.credentials.Token? then XrayPat else XrayBasic)
      case CloudSource(_, xray) => xray.authentication == XrayClientCredentials
  }

  /** `isJiraServerSource` */
  function IsJiraServerSource(term: Terminal): (r: Result<(bool, Terminal)>)
    ensures r.Ok? ==> term.Precedes(r.value.1)
    ensures r.Ok? ==> |term.answers| > 0 && r.value.0 == (term.answers[0] == Choice("server"))
  {
    var (serverOrCloud, rest) :- term.Select({"server", "cloud"});
    Ok((serverOrCloud == "server", rest))
  }

  /** `getJiraServerCredentials`: the variables when defined, otherwise what the user types. */
  function GetJiraServerCredentials(authentication: JiraAuthentication, term: Terminal): (r: Result<(JiraCredentials, Terminal)>)
    ensures r.Ok? ==> term.Precedes(r.value.1) && CredentialsFit(authentication, r.value.0)
  {
    match authentication
    case JiraBasic =>
      var (username, afterUsername) :- term.EnvOrInput(JiraUsername);
      var (password, afterPassword) :- afterUsername.EnvOrInput(JiraPassword);
      PrecedesTransitive(term, afterUsername, afterPassword);
      Ok((BasicPassword(password, username), afterPassword))
    case JiraOAuth2 =>
      var (accessToken, rest) :- term.EnvOrInput(JiraToken);
      Ok((OAuth2(accessToken), rest))
    case JiraPat =>
      var (token, rest) :- term.EnvOrInput(JiraToken);
      Ok((PersonalAccessToken(token), rest))
  }

  /** `getXrayCredentials("basic")` */
  function GetXrayBasicCredentials(term: Terminal): (r: Result<(XrayCredentials, Terminal)>)
    ensures r.Ok? ==> term.Precedes(r.value.1) && r.value.0.UsernamePassword?
  {
    var (username, afterUsername) :- term.EnvOrInput(JiraUsername);
    var (password, afterPassword) :- afterUsername.EnvOrInput(JiraPassword);
    PrecedesTransitive(term, afterUsername, afterPassword);
    Ok((UsernamePassword(password, username), afterPassword))
  }

  /** `getXrayCredentials("client-credentials")` */
  function GetXrayClientCredentials(term: Terminal): (r: Result<(XrayCredentials, Terminal)>)
    ensures r.Ok? ==> term.Precedes(r.value.1)
    ensures r.Ok? ==> r.value.0.ClientCredentials? && r.value.0.path == AuthenticatePath
  {
    var (clientId, afterId) :- term.EnvOrInput(XrayClientId);
    var (clientSecret, afterSecret) :- afterId.EnvOrInput(XrayClientSecret);
    PrecedesTransitive(term, afterId, afterSecret);
    Ok((ClientCredentials(clientId, clientSecret, AuthenticatePath), afterSecret))
  }

  /** The Xray credentials of a server source: the Jira token when it is a non-empty personal
      access token, otherwise basic Xray credentials. */
  function ServerXrayCredentials(jiraCredentials: JiraCredentials, term: Terminal): (r: Result<(XrayCredentials, Terminal)>)
    ensures r.Ok? ==> term.Precedes(r.value.1) && XrayCredentialsFollowJira(jiraCredentials, r.value.0)
    ensures jiraCredentials.PersonalAccessToken? && jiraCredentials.personalAccessToken != "" ==>
      r == Ok((Token(jiraCredentials.personalAccessToken), term))
  {
    if jiraCredentials.PersonalAccessToken? && jiraCredentials.personalAccessToken != "" then
      Ok((Token(jiraCredentials.personalAccessToken), term))
    else
      GetXrayBasicCredentials(term)
  }

  /** `buildSource`: server or cloud, the Jira URL, the Xray Cloud URL for a cloud; then for a
      server the API version, the Jira authentication and the credentials. */
  function BuildSource(term: Terminal): (r: Result<(XrayTestPlanSource, Terminal)>)
    ensures r.Ok? ==> term.Precedes(r.value.1)
    ensures r.Ok? ==> |term.answers| > 0 && (r.value.0.ServerSource? <==> term.answers[0] == Choice("server"))
    ensures r.Ok? ==> Built(r.value.0)
  {
    var (isServer, afterKind) :- IsJiraServerSource(term);
    var (jiraUrl, afterJiraUrl) :- afterKind.EnvOrInput(JiraUrl);
    PrecedesTransitive(term, afterKind, afterJiraUrl);
    var (xrayUrl, afterXrayUrl) :- if isServer then Ok((jiraUrl, afterJiraUrl)) else afterJiraUrl.Select(XrayCloudUrls);
    PrecedesTransitive(term, afterJiraUrl, afterXrayUrl);
    if isServer then
      var (versionChoice, afterVersion) :- afterXrayUrl.Select({"v2", "v3"});
      var (authenticationChoice, afterAuthentication) :- afterVersion.Select(JiraAuthenticationNames);
      PrecedesTransitive(term, afterXrayUrl, afterVersion);
      PrecedesTransitive(term, afterVersion, afterAuthentication);
      var authentication := ParseJiraAuthentication(authenticationChoice).value;
      var (jiraCredentials, afterJira) :- GetJiraServerCredentials(authentication, afterAuthentication);
      var (xrayCredentials, afterXray) :- ServerXrayCredentials(jiraCredentials, afterJira);
      PrecedesTransitive(term, afterAuthentication, afterJira);
      PrecedesTransitive(term, afterJira, afterXray);
      var xrayAuthentication := if xrayCredentials.Token? then XrayPat else XrayBasic;
      var version := if versionChoice == "v2" then Version2 else Version3;
      Ok((ServerSource(
            JiraConfiguration(authentication, JiraClient(version, jiraCredentials, jiraUrl), jiraUrl),
            XrayConfiguration(xrayAuthentication, XrayClient(Server, xrayCredentials, xrayUrl), xrayUrl)),
          afterXray))
    else
      var (xrayCredentials, afterXray) :- GetXrayClientCredentials(afterXrayUrl);
      PrecedesTransitive(term, afterXrayUrl, afterXray);
      Ok((CloudSource(jiraUrl, XrayConfiguration(XrayClientCredentials, XrayClient(Cloud, xrayCredentials, xrayUrl), xrayUrl)),
          afterXray))
  }

  /** `serializeSource`: "server" exactly for sources holding a Jira client; the version is "v2"
      exactly for a `Version2Client`. */
  function SerializeSource(source: XrayTestPlanSource): (s: SerializedConfiguration)
    ensures s.SerializedServer? <==> source.ServerSource?
    ensures s.SerializedServer? ==> (s.version == Version2 <==> source.jira.client.version == Version2)
  {
    match source
    case ServerSource(jira, xray) =>
      SerializedServer(jira.authentication, jira.url, jira.client.version, SerializedXray(xray.authentication, xray.url))
    case CloudSource(jiraUrl, xray) =>
      SerializedCloud(jiraUrl, SerializedXray(xray.authentication, xray.url))
  }

  /** `deserializeSource`: the stored URLs, authentication kinds and version come back as they
      were stored; the credentials are obtained afresh. */
  function DeserializeSource(serialized: SerializedConfiguration, term: Terminal): (r: Result<(XrayTestPlanSource, Terminal)>)
    ensures r.Ok? ==> term.Precedes(r.value.1)
    ensures r.Ok? ==> WellFormed(r.value.0)
    ensures r.Ok? ==> SerializeSource(r.value.0) == serialized
  {
    match serialized
    case SerializedServer(authentication, jiraUrl, version, xray) =>
      var (jiraCredentials, afterJira) :- GetJiraServerCredentials(authentication, term);
      var (xrayCredentials, afterXray) :- ServerXrayCredentials(jiraCredentials, afterJira);
      PrecedesTransitive(term, afterJira, afterXray);
      Ok((ServerSource(
            JiraConfiguration(authentication, JiraClient(version, jiraCredentials, jiraUrl), jiraUrl),
            XrayConfiguration(xray.authentication, XrayClient(Server, xrayCredentials, xray.url), xray.url)),
          afterXray))
    case SerializedCloud(jiraUrl, xray) =>
      var (xrayCredentials, afterXray) :- GetXrayClientCredentials(term);
      Ok((CloudSource(jiraUrl, XrayConfiguration(xray.authentication, XrayClient(Cloud, xrayCredentials, xray.url), xray.url)),
          afterXray))
  }

  /** `buildInlet`: the issue key of the test plan. */
  function BuildInlet(term: Terminal): (r: Result<(XrayTestPlanInlet, Terminal)>)
    ensures r.Ok? <==> term.Input().Ok?
    ensures r.Ok? ==> r.value == (XrayTestPlanInlet(term.answers[0].text), term.Next())
  {
    var (testPlanKey, rest) :- term.Input();
    Ok((XrayTestPlanInlet(testPlanKey), rest))
  }

  /** `serializeInlet` */
  function SerializeInlet(inlet: XrayTestPlanInlet): SerializedInlet
  {
    SerializedInlet(inlet.testPlanKey)
  }

  /** `deserializeInlet` */
  function DeserializeInlet(serialized: SerializedInlet): XrayTestPlanInlet
  {
    XrayTestPlanInlet(serialized.testPlanKey)
  }

  /** The serialized configuration as it is written into the configuration file. */
  function EncodeConfiguration(serialized: SerializedConfiguration): Json
  {
    var xray := JObject(map[
      "authentication" := JString(XrayAuthenticationName(serialized.xray.authentication)),
      "url" := JString(serialized.xray.url)]);
    match serialized
    case SerializedServer(authentication, jiraUrl, version, _) =>
      JObject(map[
        "jira" := JObject(map[
          "authentication" := JString(JiraAuthenticationName(authentication)),
          "url" := JString(jiraUrl),
          "version" := JString(VersionName(version))]),
        "kind" := JString("server"),
        "xray" := xray])
    case SerializedCloud(jiraUrl, _) =>
      JObject(map["jira" := JObject(map["url" := JString(jiraUrl)]), "kind" := JString("cloud"), "xray" := xray])
  }

  function DecodeXray(stored: Json): Result<SerializedXray>
  {
    var xray :- GetField(stored, "xray");
    var name :- GetString(xray, "authentication");
    var url :- GetString(xray, "url");
    var authentication := ParseXrayAuthentication(name);
    if authentication.None? then Err(MalformedMessage) else Ok(SerializedXray(authentication.value, url))
  }

  /** The serialized configuration read back from the configuration file. As in the source, a
      configuration whose kind is not "server" is read as a cloud configuration. */
  function DecodeConfiguration(stored: Json): (r: Result<SerializedConfiguration>)
    ensures r.Ok? ==> (r.value.SerializedServer? <==> GetString(stored, "kind") == Ok("server"))
  {
    var jira :- GetField(stored, "jira");
    var jiraUrl :- GetString(jira, "url");
    var xray :- DecodeXray(stored);
    if GetString(stored, "kind") == Ok("server") then
      var authenticationName :- GetString(jira, "authentication");
      var versionName :- GetString(jira, "version");
      var authentication := ParseJiraAuthentication(authenticationName);
      if authentication.None? || versionName !in {"v2", "v3"} then Err(MalformedMessage)
      else Ok(SerializedServer(authentication.value, jiraUrl, if versionName == "v2" then Version2 else Version3, xray))
    else
      Ok(SerializedCloud(jiraUrl, xray))
  }

  function EncodeInlet(serialized: SerializedInlet): Json
  {
    JObject(map["testPlanKey" := JString(serialized.testPlanKey)])
  }

  function DecodeInlet(stored: Json): (r: Result<SerializedInlet>)
    ensures r.Ok? <==> GetString(stored, "testPlanKey").Ok?
  {
    var testPlanKey :- GetString(stored, "testPlanKey");
    Ok(SerializedInlet(testPlanKey))
  }

  function RestoreSource(stored: Json, term: Terminal): Result<(XrayTestPlanSource, Terminal)>
  {
    var serialized :- DecodeConfiguration(stored);
    DeserializeSource(serialized, term)
  }

  function RestoreInlet(stored: Json, term: Terminal): Result<(XrayTestPlanInlet, Terminal)>
  {
    var serialized :- DecodeInlet(stored);
    Ok((DeserializeInlet(serialized), term))
  }

  function RawHandler(): SourceHandler<XrayTestPlanSource, XrayTestPlanInlet>
  {
    SourceHandler(
      BuildSource, source => EncodeConfiguration(SerializeSource(source)), RestoreSource,
      BuildInlet, inlet => EncodeInlet(SerializeInlet(inlet)), RestoreInlet)
  }

  /** `new XrayTestPlanSourceHandler()` */
  function Handler(): AnySourceHandler<XrayTestPlanSource, XrayTestPlanInlet>
  {
    HandlerIsLawful();
    RawHandler()
  }

  /** The source with other credentials in its clients. */
  function WithCredentials(source: XrayTestPlanSource, jiraCredentials: JiraCredentials, xrayCredentials: XrayCredentials): XrayTestPlanSource
  {
    match source
    case ServerSource(jira, xray) =>
      ServerSource(jira.(client := jira.client.(authentication := jiraCredentials)), xray.(client := xray.client.(credentials := xrayCredentials)))
    case CloudSource(jiraUrl, xray) =>
      CloudSource(jiraUrl, xray.(client := xray.client.(credentials := xrayCredentials)))
  }

  /** No credential reaches the saved configuration: sources that differ only in their
      credentials serialize alike. */
  lemma SerializationOmitsCredentials(source: XrayTestPlanSource, jiraCredentials: JiraCredentials, xrayCredentials: XrayCredentials)
    ensures SerializeSource(WithCredentials(source, jiraCredentials, xrayCredentials)) == SerializeSource(source)
    ensures EncodeConfiguration(SerializeSource(WithCredentials(source, jiraCredentials, xrayCredentials)))
      == EncodeConfiguration(SerializeSource(source))
  {
  }

  /** Restoring a saved source gives back its URLs, its authentication kinds and, for a server,
      its API version; the credentials may differ. */
  lemma RoundTripRestoresSource(source: XrayTestPlanSource, term: Terminal)
    ensures var r := DeserializeSource(SerializeSource(source), term);
      r.Ok? ==> && r.value.0.ServerSource? == source.ServerSource?
                && r.value.0.xray.authentication == source.xray.authentication
                && r.value.0.xray.url == source.xray.url
                && (source.ServerSource? ==>
                     && r.value.0.jira.authentication == source.jira.authentication
                     && r.value.0.jira.url == source.jira.url
                     && r.value.0.jira.client.version == source.jira.client.version)
                && (source.CloudSource? ==> r.value.0.jiraUrl == source.jiraUrl)
  {
    var r := DeserializeSource(SerializeSource(source), term);
    if r.Ok? {
      assert SerializeSource(r.value.0) == SerializeSource(source);
    }
  }

  /** A source that was built and saved is restored as a built source would be, as long as the
      restored Jira credentials lead to the same kind of Xray credentials. */
  lemma RestoredBuiltSourceKeepsXrayKind(source: XrayTestPlanSource, term: Terminal)
    requires Built(source)
    ensures var r := DeserializeSource(SerializeSource(source), term);
      r.Ok? && (r.value.0.xray.client.credentials.Token? == source.xray.client.credentials.Token?) ==> Built(r.value.0)
  {
    RoundTripRestoresSource(source, term);
  }

  /** With every variable defined, restoring prompts for nothing. */
  lemma DeserializeFromEnvironment(serialized: SerializedConfiguration, term: Terminal)
    requires EnvName(JiraUsername) in term.env && EnvName(JiraPassword) in term.env && EnvName(JiraToken) in term.env
    requires EnvName(XrayClientId) in term.env && EnvName(XrayClientSecret) in term.env
    ensures DeserializeSource(serialized, term).Ok?
    ensures DeserializeSource(serialized, term).value.1 == term
  {
  }

  /** The serialized configuration and inlet survive the configuration file. */
  lemma FileRoundTrip(serialized: SerializedConfiguration, inlet: SerializedInlet)
    ensures DecodeConfiguration(EncodeConfiguration(serialized)) == Ok(serialized)
    ensures DecodeInlet(EncodeInlet(inlet)) == Ok(inlet)
  {
    AuthenticationNamesRoundTrip(JiraBasic, serialized.xray.authentication);
    if serialized.SerializedServer? {
      AuthenticationNamesRoundTrip(serialized.jiraAuthentication, serialized.xray.authentication);
    }
  }

  /** Only the test plan key is kept, and it comes back. */
  lemma InletRoundTrip(inlet: XrayTestPlanInlet)
    ensures DeserializeInlet(SerializeInlet(inlet)) == inlet
    ensures RestoreInlet(EncodeInlet(SerializeInlet(inlet)), Terminal(map[], [])).Ok?
  {
    FileRoundTrip(SerializedCloud("", SerializedXray(XrayBasic, "")), SerializeInlet(inlet));
  }

  lemma HandlerIsLawful()
    ensures LawfulSourceHandler(RawHandler())
  {
    var h := RawHandler();
    forall source: XrayTestPlanSource, term: Terminal
      ensures RestoredFrom(h.serializeSource, h.deserializeSource, source, term)
      ensures RestorableFrom(h.serializeSource, h.deserializeSource, source, term)
    {
      FileRoundTrip(SerializeSource(source), SerializedInlet(""));
      if DefinesAllVariables(term.env) {
        DeserializeFromEnvironment(SerializeSource(source), term);
      }
    }
    forall inlet: XrayTestPlanInlet, term: Terminal
      ensures RestoredFrom(h.serializeInlet, h.deserializeInlet, inlet, term)
      ensures RestorableFrom(h.serializeInlet, h.deserializeInlet, inlet, term)
    {
      FileRoundTrip(SerializedCloud("", SerializedXray(XrayBasic, "")), SerializeInlet(inlet));
    }
  }
}

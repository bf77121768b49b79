/** What the Xray source handlers hand to the Jira and Xray client libraries (jira.js and
    @qytera/xray-client, which are not part of this model), and the authentication kinds a user
    can choose (src/cli/plugins/xray/util/constants.ts). A client is recorded by its kind, its
    credentials and the URL it talks to. */
module XrayClients {
  import opened Outcome

  /** `JIRA_AUTHENTICATION`: "basic", "oauth2", "pat". */
  datatype JiraAuthentication = JiraBasic | JiraOAuth2 | JiraPat

  /** `XRAY_AUTHENTICATION`: "basic", "client-credentials", "pat". */
  datatype XrayAuthentication = XrayBasic | XrayClientCredentials | XrayPat

  function JiraAuthenticationName(authentication: JiraAuthentication): string
  {
    match authentication
    case JiraBasic => "basic"
    case JiraOAuth2 => "oauth2"
    case JiraPat => "pat"
  }

  function XrayAuthenticationName(authentication: XrayAuthentication): string
  {
    match authentication
    case XrayBasic => "basic"
    case XrayClientCredentials => "client-credentials"
    case XrayPat => "pat"
  }

  const JiraAuthenticationNames: set<string> := {"basic", "oauth2", "pat"}

  const XrayAuthenticationNames: set<string> := {"basic", "client-credentials", "pat"}

  /** The Jira authentication kind a name stands for, if any. */
  function ParseJiraAuthentication(name: string): (r: Option<JiraAuthentication>)
    ensures r.Some? <==> name in JiraAuthenticationNames
    ensures r.Some? ==> JiraAuthenticationName(r.value) == name
  {
    if name == "basic" then Some(JiraBasic)
    else if name == "oauth2" then Some(JiraOAuth2)
    else if name == "pat" then Some(JiraPat)
    else None
  }

  /** The Xray authentication kind a name stands for, if any. */
  function ParseXrayAuthentication(name: string): (r: Option<XrayAuthentication>)
    ensures r.Some? <==> name in XrayAuthenticationNames
    ensures r.Some? ==> XrayAuthenticationName(r.value) == name
  {
    if name == "basic" then Some(XrayBasic)
    else if name == "client-credentials" then Some(XrayClientCredentials)
    else if name == "pat" then Some(XrayPat)
    else None
  }

  /** Names and kinds correspond one to one. */
  lemma AuthenticationNamesRoundTrip(jira: JiraAuthentication, xray: XrayAuthentication)
    ensures JiraAuthenticationName(jira) in JiraAuthenticationNames
    ensures ParseJiraAuthentication(JiraAuthenticationName(jira)) == Some(jira)
    ensures XrayAuthenticationName(xray) in XrayAuthenticationNames
    ensures ParseXrayAuthentication(XrayAuthenticationName(xray)) == Some(xray)
  {
  }

  /** The `authentication` option of a jira.js client. */
  datatype JiraCredentials =
    | BasicPassword(password: string, username: string)   // `{basic: {password, username}}`
    | BasicApiToken(apiToken: string, email: string)      // `{basic: {apiToken, email}}`
    | OAuth2(accessToken: string)                         // `{oauth2: {accessToken}}`
    | PersonalAccessToken(personalAccessToken: string)    // `{personalAccessToken}`

  /** `Version2Client` or `Version3Client` */
  datatype JiraApiVersion = Version2 | Version3

  datatype JiraClient = JiraClient(version: JiraApiVersion, authentication: JiraCredentials, host: string)

  /** The `credentials` option of an Xray client. */
  datatype XrayCredentials =
    | UsernamePassword(password: string, username: string)
    | ClientCredentials(clientId: string, clientSecret: string, path: string)
    | Token(token: string)
    | UsernameToken(token: string, username: string)

  /** `XrayClientCloud` or `XrayClientServer` */
  datatype XrayClientKind = Cloud | Server

  datatype XrayClient = XrayClient(kind: XrayClientKind, credentials: XrayCredentials, url: string)

  /** The authentication path of Xray Cloud client credentials. */
  const AuthenticatePath := "/api/v2/authenticate"

  /** The Xray Cloud URLs offered to choose from. */
  const XrayCloudUrls: set<string> := {
    "https://xray.cloud.getxray.app/",
    "https://us.xray.cloud.getxray.app/",
    "https://eu.xray.cloud.getxray.app/",
    "https://au.xray.cloud.getxray.app/"
  }

  /** The Jira configuration of a source that holds a Jira client. */
  datatype JiraConfiguration = JiraConfiguration(authentication: JiraAuthentication, client: JiraClient, url: string)

  /** The Xray configuration of a source. */
  datatype XrayConfiguration = XrayConfiguration(authentication: XrayAuthentication, client: XrayClient, url: string)

  /** A test plan inlet: the issue key of the test plan. */
  datatype XrayTestPlanInlet = XrayTestPlanInlet(testPlanKey: string)
}

/** Environment variable lookup (src/util/env.ts). The process environment is a parameter: a map
    from variable name to value, an absent name being `undefined`. */
module Env {
  import opened Outcome

  type Environment = map<string, string>

  datatype EnvironmentVariable =
    | JiraEmail
    | JiraPassword
    | JiraToken
    | JiraUrl
    | JiraUsername
    | MicrosoftTeamsWebhookUrl
    | XrayClientId
    | XrayClientSecret
    | XrayUrl

  /** The name under which a kind of variable is looked up (never empty). */
  function EnvName(kind: EnvironmentVariable): (name: string)
    ensures 0 < |name|
  {
    match kind
    case JiraEmail => "JIRA_EMAIL"
    case JiraPassword => "JIRA_PASSWORD"
    case JiraToken => "JIRA_TOKEN"
    case JiraUrl => "JIRA_URL"
    case JiraUsername => "JIRA_USERNAME"
    case MicrosoftTeamsWebhookUrl => "MICROSOFT_TEAMS_WEBHOOK_URL"
    case XrayClientId => "XRAY_CLIENT_ID"
    case XrayClientSecret => "XRAY_CLIENT_SECRET"
    case XrayUrl => "XRAY_URL"
  }

  /** Every variable the program reads is defined: no lookup falls back to a prompt. */
  predicate DefinesAllVariables(env: Environment)
  {
    forall kind: EnvironmentVariable :: EnvName(kind) in env
  }

  /** No two kinds share a variable name. */
  lemma EnvNameInjective(a: EnvironmentVariable, b: EnvironmentVariable)
    ensures EnvName(a) == EnvName(b) ==> a == b
  {
  }

  const UndefinedPrefix := "Environment variable is undefined: "

  /** The message thrown for a missing variable, its five lines joined by a newline. */
  function UndefinedMessage(name: string): string
  {
    UndefinedPrefix + name + "\n" + "\n"
    + "Please perform one of the following steps to configure the testing project:\n"
    + "- add environment variable " + name + " to your system's environemnt variables\n"
    + "- create a .env file, append " + name + "=<value> to it and pass it to Parrot using --env-file"
  }

  /** The value of `process.env[name]`: `None` stands for `undefined`. */
  function Lookup(env: Environment, name: string): Option<string>
  {
    if name in env then Some(env[name]) else None
  }

  /** `getEnv(kind, throwIfUndefined)`; `throwIfUndefined` is `None` when the argument is omitted.
      It throws exactly when the value is falsy (undefined or "") and the flag is not `false`. */
  function GetEnv(env: Environment, kind: EnvironmentVariable, throwIfUndefined: Option<bool>)
    : (r: Result<Option<string>>)
    ensures r.Err? <==> throwIfUndefined != Some(false)
                        && (EnvName(kind) !in env || env[EnvName(kind)] == "")
    ensures r.Ok? ==> r.value == Lookup(env, EnvName(kind))
    ensures r.Err? ==> r.message == UndefinedMessage(EnvName(kind))
  {
    var name := EnvName(kind);
    var value := Lookup(env, name);
    if (value.None? || value.value == "") && throwIfUndefined != Some(false) then
      Err(UndefinedMessage(name))
    else
      Ok(value)
  }

  /** The error message starts by naming the variable that was looked up. */
  lemma UndefinedMessageNamesVariable(name: string)
    ensures var m := UndefinedMessage(name);
      |UndefinedPrefix| + |name| <= |m| && m[|UndefinedPrefix|..|UndefinedPrefix| + |name|] == name
  {
    var m := UndefinedMessage(name);
    assert m == UndefinedPrefix + name + (m[|UndefinedPrefix| + |name|..]);
  }

  /** A non-empty value is returned unchanged, whatever the flag. */
  lemma {:induction false} NonEmptyValueReturned(env: Environment, kind: EnvironmentVariable, flag: Option<bool>)
    requires EnvName(kind) in env && env[EnvName(kind)] != ""
    ensures GetEnv(env, kind, flag) == Ok(Some(env[EnvName(kind)]))
  {
  }

  /** With the flag `false` the lookup never throws and yields the raw value, possibly undefined or "". */
  lemma {:induction false} NeverThrowsWhenFlagFalse(env: Environment, kind: EnvironmentVariable)
    ensures GetEnv(env, kind, Some(false)) == Ok(Lookup(env, EnvName(kind)))
  {
  }
}

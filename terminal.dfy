/** The interactive prompts (`select`, `input`, `password`, `confirm` of @inquirer/prompts) and the
    process environment, as one value that each step reads and hands on. The user's answers are a
    scripted sequence, consumed front to back; a prompt for which no fitting answer is left yields
    `Err(PromptUnanswered)`. */
module Terminal {
  import opened Outcome
  import opened Env

  datatype Answer =
    | Choice(key: string)       // an entry picked in a `select` prompt
    | Typed(text: string)       // a line typed into an `input` or `password` prompt
    | Confirmation(yes: bool)   // the answer to a `confirm` prompt

  const PromptUnanswered := "The prompt was not answered"

  datatype Terminal = Terminal(env: Environment, answers: seq<Answer>) {

    /** `after` is this terminal once some answers have been consumed: the same environment and a
        suffix of the answers. */
    ghost predicate Precedes(after: Terminal)
    {
      && after.env == env
      && |after.answers| <= |answers|
      && after.answers == answers[|answers| - |after.answers|..]
    }

    /** The terminal with its first answer consumed. */
    function Next(): (t: Terminal)
      requires |answers| > 0
      ensures Precedes(t) && |t.answers| == |answers| - 1
    {
      Terminal(env, answers[1..])
    }

    /** `select({choices})`: the user picks one of the offered keys. */
    function Select(choices: set<string>): (r: Result<(string, Terminal)>)
      ensures r.Ok? <==> |answers| > 0 && answers[0].Choice? && answers[0].key in choices
      ensures r.Ok? ==> r.value.0 in choices && r.value == (answers[0].key, Next())
      ensures r.Err? ==> r.message == PromptUnanswered
    {
      if |answers| > 0 && answers[0].Choice? && answers[0].key in choices then
        Ok((answers[0].key, Next()))
      else
        Err(PromptUnanswered)
    }

    /** `input({})` and `password({})`: a typed line. */
    function Input(): (r: Result<(string, Terminal)>)
      ensures r.Ok? <==> |answers| > 0 && answers[0].Typed?
      ensures r.Ok? ==> r.value == (answers[0].text, Next())
      ensures r.Err? ==> r.message == PromptUnanswered
    {
      if |answers| > 0 && answers[0].Typed? then Ok((answers[0].text, Next())) else Err(PromptUnanswered)
    }

    /** `input({default})`: an empty line stands for the default. */
    function InputWithDefault(default: string): (r: Result<(string, Terminal)>)
      ensures r.Ok? <==> Input().Ok?
      ensures r.Ok? ==> r.value.1 == Next()
      ensures r.Ok? ==> r.value.0 == if answers[0].text == "" then default else answers[0].text
    {
      var (text, rest) :- Input();
      Ok((if text == "" then default else text, rest))
    }

    /** `confirm({})`: a yes or no. */
    function Confirm(): (r: Result<(bool, Terminal)>)
      ensures r.Ok? <==> |answers| > 0 && answers[0].Confirmation?
      ensures r.Ok? ==> r.value == (answers[0].yes, Next())
      ensures r.Err? ==> r.message == PromptUnanswered
    {
      if |answers| > 0 && answers[0].Confirmation? then Ok((answers[0].yes, Next())) else Err(PromptUnanswered)
    }

    /** `getEnv(kind, false) ?? await input(...)`: the variable whenever it is defined, even when it
        is empty (`??` only falls through on `undefined`); otherwise the user is asked. */
    function EnvOrInput(kind: EnvironmentVariable): (r: Result<(string, Terminal)>)
      ensures EnvName(kind) in env ==> r == Ok((env[EnvName(kind)], this))
      ensures EnvName(kind) !in env ==> r == Input()
    {
      var fromEnv := GetEnv(env, kind, Some(false));
      assert fromEnv.Ok?;
      match fromEnv.value
      case Some(value) => Ok((value, this))
      case None => Input()
    }
  }

  /** Every prompt only consumes answers and never touches the environment. */
  lemma {:induction false} PromptsOnlyConsume(t: Terminal, choices: set<string>, default: string, kind: EnvironmentVariable)
    ensures t.Select(choices).Ok? ==> t.Precedes(t.Select(choices).value.1)
    ensures t.Input().Ok? ==> t.Precedes(t.Input().value.1)
    ensures t.InputWithDefault(default).Ok? ==> t.Precedes(t.InputWithDefault(default).value.1)
    ensures t.Confirm().Ok? ==> t.Precedes(t.Confirm().value.1)
    ensures t.EnvOrInput(kind).Ok? ==> t.Precedes(t.EnvOrInput(kind).value.1)
  {
  }

  /** Consuming answers is transitive. */
  lemma PrecedesTransitive(a: Terminal, b: Terminal, c: Terminal)
    requires a.Precedes(b) && b.Precedes(c)
    ensures a.Precedes(c)
  {
    assert c.answers == a.answers[|a.answers| - |c.answers|..];
  }
}

/** The nested lookup table of handlers and the two ways of resolving a handler in it
    (src/cli/cli-config.ts `LookupTable`, src/cli/cli.ts `descendIntoTable`, `retrieveFromTable`).
    A node is explicitly a leaf holding a handler or a branch holding a further table. */
module LookupTable {
  import opened Outcome
  import opened Strings
  import opened Terminal

  datatype Node<+H> = Leaf(handler: H) | Branch(table: map<string, Node<H>>)

  type Table<+H> = map<string, Node<H>>

  /** The handler a selection path leads to: every key but the last names a branch, the last
      names a leaf. The empty path, a missing key, a leaf before the last key and a path ending on
      a branch lead nowhere. */
  function Lookup<H>(table: Table<H>, keys: seq<string>): Option<H>
    decreases |keys|
  {
    if |keys| == 0 || keys[0] !in table then None
    else match table[keys[0]]
      case Leaf(handler) => if |keys| == 1 then Some(handler) else None
      case Branch(nested) => if |keys| == 1 then None else Lookup(nested, keys[1..])
  }

  /** The node a non-empty path of keys reaches, whether a leaf or a branch. */
  function NodeAt<H>(table: Table<H>, keys: seq<string>): Option<Node<H>>
    requires |keys| > 0
    decreases |keys|
  {
    if keys[0] !in table then None
    else if |keys| == 1 then Some(table[keys[0]])
    else match table[keys[0]]
      case Leaf(_) => None
      case Branch(nested) => NodeAt(nested, keys[1..])
  }

  const EmptyTableMessage := "At least one option must be provided"

  const NotFoundPrefix := "Failed to find a handler registered for selection: "

  function NotFoundMessage(keys: seq<string>): string
  {
    NotFoundPrefix + Join(keys, " -> ")
  }

  /** What an interactive descent yields: the handler, the keys chosen on the way and the terminal
      with those choices consumed. */
  datatype Descent<+H> = Descent(handler: H, selections: seq<string>, rest: Terminal)

  /** `descendIntoTable`: refuse an empty table before prompting; otherwise let the user pick a
      key, stop at a leaf and descend into a branch. The selections are the choices made, in order,
      and they lead back to the handler returned. */
  function DescendIntoTable<H>(table: Table<H>, term: Terminal): (r: Result<Descent<H>>)
    decreases |term.answers|
    ensures |table| == 0 ==> r == Err(EmptyTableMessage)
    ensures r.Ok? ==> 1 <= |r.value.selections| <= |term.answers|
    ensures r.Ok? ==> r.value.rest == Terminal(term.env, term.answers[|r.value.selections|..])
    ensures r.Ok? ==> forall i :: 0 <= i < |r.value.selections| ==> term.answers[i] == Choice(r.value.selections[i])
    ensures r.Ok? ==> Lookup(table, r.value.selections) == Some(r.value.handler)
  {
    if |table| == 0 then Err(EmptyTableMessage)
    else
      var picked :- term.Select(table.Keys);
      var (choice, afterChoice) := picked;
      match table[choice]
      case Leaf(handler) => Ok(Descent(handler, [choice], afterChoice))
      case Branch(nested) =>
        var inner :- DescendIntoTable(nested, afterChoice);
        assert ([choice] + inner.selections)[1..] == inner.selections;
        Ok(Descent(inner.handler, [choice] + inner.selections, inner.rest))
  }

  /** `retrieveFromTable`: walk the keys with a cursor on the current table; return the handler
      when the last key lands on a leaf, and otherwise fail with the keys joined by " -> ". */
  method RetrieveFromTable<H>(table: Table<H>, keys: seq<string>) returns (r: Result<H>)
    ensures Lookup(table, keys).Some? ==> r == Ok(Lookup(table, keys).value)
    ensures Lookup(table, keys).None? ==> r == Err(NotFoundMessage(keys))
  {
    var currentTable := table;
    for i := 0 to |keys|
      invariant Lookup(table, keys) == Lookup(currentTable, keys[i..])
    {
      var selection := keys[i];
      if selection !in currentTable {
        break;
      }
      var value := currentTable[selection];
      if value.Leaf? {
        if i == |keys| - 1 {
          return Ok(value.handler);
        } else {
          break;
        }
      } else {
        assert keys[i..][1..] == keys[i + 1..];
        currentTable := value.table;
      }
    }
    return Err(NotFoundMessage(keys));
  }

  /** Answering the prompts with the keys of a path to a handler makes the descent
      return that handler and record that path. */
  lemma {:induction false} DescentFollowsAnswers<H>(table: Table<H>, path: seq<string>, handler: H, term: Terminal)
    requires Lookup(table, path) == Some(handler)
    requires |path| <= |term.answers|
    requires forall i :: 0 <= i < |path| ==> term.answers[i] == Choice(path[i])
    ensures DescendIntoTable(table, term) == Ok(Descent(handler, path, Terminal(term.env, term.answers[|path|..])))
    decreases |path|
  {
    assert path[0] in table;
    var afterChoice := term.Next();
    assert term.Select(table.Keys) == Ok((path[0], afterChoice));
    match table[path[0]]
    case Leaf(h) =>
      assert path == [path[0]];
    case Branch(nested) =>
      var tail := path[1..];
      forall i | 0 <= i < |tail|
        ensures afterChoice.answers[i] == Choice(tail[i])
      {
        assert afterChoice.answers[i] == term.answers[i + 1];
      }
      DescentFollowsAnswers(nested, tail, handler, afterChoice);
      assert afterChoice.answers[|tail|..] == term.answers[|path|..];
      assert [path[0]] + tail == path;
  }

  /** A descent whose answers lead to an empty nested table fails there, as at the top. */
  lemma {:induction false} DescentIntoEmptyTableFails<H>(table: Table<H>, path: seq<string>, term: Terminal)
    requires |path| > 0 && NodeAt(table, path) == Some(Branch(map[]))
    requires |path| <= |term.answers|
    requires forall i :: 0 <= i < |path| ==> term.answers[i] == Choice(path[i])
    ensures DescendIntoTable(table, term) == Err(EmptyTableMessage)
    decreases |path|
  {
    var afterChoice := term.Next();
    assert term.Select(table.Keys) == Ok((path[0], afterChoice));
    if |path| > 1 {
      var tail := path[1..];
      forall i | 0 <= i < |tail|
        ensures afterChoice.answers[i] == Choice(tail[i])
      {
        assert afterChoice.answers[i] == term.answers[i + 1];
      }
      DescentIntoEmptyTableFails(table[path[0]].table, tail, afterChoice);
    }
  }

  /** The paths leading to handlers are prefix-free: no strict prefix of such a path, and no
      extension of it, leads to a handler. */
  lemma {:induction false} HandlerPathsArePrefixFree<H>(table: Table<H>, path: seq<string>, other: seq<string>)
    requires Lookup(table, path).Some?
    requires (|other| < |path| && other == path[..|other|]) || (|path| < |other| && path == other[..|path|])
    ensures Lookup(table, other).None?
    decreases |path|
  {
    if |other| > 0 && |path| > 1 && |other| > 1 {
      assert other[0] == path[0];
      HandlerPathsArePrefixFree(table[path[0]].table, path[1..], other[1..]);
    }
  }

  /** Resolution examples: in `{a: {b: h1}, c: h2}` the paths ["a", "b"] and
      ["c"] resolve, while ["a"], ["a", "b", "c"], ["c", "d"] and [] do not. */
  lemma ResolutionExamples<H>(h1: H, h2: H)
    ensures var table := map["a" := Branch(map["b" := Leaf(h1)]), "c" := Leaf(h2)];
      && Lookup(table, ["a", "b"]) == Some(h1)
      && Lookup(table, ["c"]) == Some(h2)
      && Lookup(table, ["a"]).None?
      && Lookup(table, ["a", "b", "c"]).None?
      && Lookup(table, ["c", "d"]).None?
      && Lookup(table, []).None?
  {
    var table := map["a" := Branch(map["b" := Leaf(h1)]), "c" := Leaf(h2)];
    assert ["a", "b"][1..] == ["b"];
    assert ["a", "b", "c"][1..] == ["b", "c"];
  }
}

// Templates, the process environment and JSONPath lookups. The libraries that
// parse text (envsubst, ajson, strconv, net/url) are parameters.
module Text {
  import opened Wire

  type Bindings = map<string, string>

  datatype Part = Literal(text: string) | Variable(name: string)

  // envsubst yields the empty string for a text that it cannot parse.
  datatype Template = Malformed | Parts(parts: seq<Part>)

  // One JSONPath result: strconv.Unquote is applied to string nodes.
  datatype Node = StringNode(raw: string, unquoted: Option<string>) | NumericNode(text: string) | OtherNode

  datatype PathResult = PathError(message: string) | Nodes(nodes: seq<Node>)

  datatype Url = Url(host: string, path: string, query: string)

  // `unbuildable` is the error of http.NewRequest for an endpoint, if any.
  datatype Library = Library(
    parse: string -> Template,
    unquote: string -> Option<string>,
    jsonPath: (string, string) -> PathResult,
    url: string -> Url,
    unbuildable: string -> Option<string>)

  function Value(env: Bindings, name: string): string {
    if name in env then env[name] else ""
  }

  function Render(parts: seq<Part>, env: Bindings): string {
    if parts == [] then ""
    else (match parts[0]
          case Literal(t) => t
          case Variable(n) => Value(env, n)) + Render(parts[1..], env)
  }

  function Substitute(lib: Library, text: string, env: Bindings): string {
    match lib.parse(text)
    case Malformed => ""
    case Parts(parts) => Render(parts, env)
  }

  // os.Setenv refuses these pairs, and its error is not looked at.
  predicate Settable(name: string, value: string) {
    name != "" && '=' !in name && '\0' !in name && '\0' !in value
  }

  // The environment after one os.Setenv for each binding.
  function Export(env: Bindings, vars: Bindings): Bindings {
    env + map k | k in vars && Settable(k, vars[k]) :: vars[k]
  }

  datatype FindResult = FindResult(found: string, err: Option<Error>)

  // The empty text is not a quoted string.
  function Unquote(lib: Library, text: string): Option<string> {
    if text == "" then None else lib.unquote(text)
  }

  // An empty document is not JSON, whatever the expression.
  function JsonPath(lib: Library, doc: string, expr: string): PathResult {
    if doc == "" then PathError("empty document") else lib.jsonPath(doc, expr)
  }

  // findPathByExpression: only the first node counts. A string node that
  // cannot be unquoted is returned raw, together with an error.
  function FindPath(lib: Library, doc: string, expr: string): FindResult {
    if expr == "" then FindResult("", None) else
    var unescaped := match Unquote(lib, doc) case Some(s) => s case None => doc;
    match JsonPath(lib, unescaped, expr)
    case PathError(m) => FindResult("", Some(Plain(m)))
    case Nodes(nodes) =>
      if nodes == [] then FindResult("", None) else
      match nodes[0]
      case StringNode(_, Some(s)) => FindResult(s, None)
      case StringNode(raw, None) => FindResult(raw, Some(Plain("invalid syntax")))
      case NumericNode(t) => FindResult(t, None)
      case OtherNode => FindResult("", Some(Plain("cannot use type")))
  }

  // What follows the first node does not matter.
  lemma FirstNodeCounts(lib: Library, doc: string, expr: string, n: Node, rest: seq<Node>)
    requires expr != ""
    requires var text := if doc != "" && lib.unquote(doc).Some? then lib.unquote(doc).value else doc;
             text != "" && lib.jsonPath(text, expr) == Nodes([n] + rest)
    ensures FindPath(lib, doc, expr) ==
              match n
              case NumericNode(t) => FindResult(t, None)
              case StringNode(_, Some(s)) => FindResult(s, None)
              case StringNode(raw, None) => FindResult(raw, Some(Plain("invalid syntax")))
              case OtherNode => FindResult("", Some(Plain("cannot use type")))
  {
    assert ([n] + rest)[0] == n;
  }

  // Nothing is found without an expression or a node, nor in what is not JSON.
  lemma NothingIsFound(lib: Library, doc: string, expr: string)
    ensures FindPath(lib, doc, "") == FindResult("", None)
    ensures expr != "" ==>
              var text := if doc != "" && lib.unquote(doc).Some? then lib.unquote(doc).value else doc;
              if text == "" then FindPath(lib, doc, expr) == FindResult("", Some(Plain("empty document")))
              else match lib.jsonPath(text, expr)
                   case PathError(m) => FindPath(lib, doc, expr) == FindResult("", Some(Plain(m)))
                   case Nodes(nodes) => nodes == [] ==> FindPath(lib, doc, expr) == FindResult("", None)
  {
  }

  // findRuntimeVars: the declared names whose expression yields something.
  function Capture(lib: Library, runtime: Bindings, doc: string, declared: Bindings): Bindings {
    runtime + map k | k in declared && FindPath(lib, doc, declared[k]).found != "" ::
        FindPath(lib, doc, declared[k]).found
  }

  ghost predicate AgreeOn(e1: Bindings, e2: Bindings, parts: seq<Part>) {
    forall i :: 0 <= i < |parts| && parts[i].Variable? ==> Value(e1, parts[i].name) == Value(e2, parts[i].name)
  }

  // A rendering depends on the environment only through the names it mentions.
  lemma {:induction false} RenderCongruence(parts: seq<Part>, e1: Bindings, e2: Bindings)
    requires AgreeOn(e1, e2, parts)
    ensures Render(parts, e1) == Render(parts, e2)
  {
    if parts != [] {
      assert parts[0].Variable? ==> Value(e1, parts[0].name) == Value(e2, parts[0].name);
      forall i | 0 <= i < |parts[1..]| && parts[1..][i].Variable?
        ensures Value(e1, parts[1..][i].name) == Value(e2, parts[1..][i].name)
      {
        assert parts[1..][i] == parts[i + 1];
      }
      RenderCongruence(parts[1..], e1, e2);
    }
  }

  // A variables map may have been given captured values, which is harmless: they
  // are given to it again, in their newest form, before every use.
  ghost predicate SameBut(m: Bindings, declared: Bindings, runtime: Bindings) {
    m + runtime == declared + runtime
  }

  lemma MoreCaptures(m: Bindings, declared: Bindings, runtime: Bindings, runtime': Bindings)
    requires SameBut(m, declared, runtime) && runtime.Keys <= runtime'.Keys
    ensures SameBut(m, declared, runtime')
  {
    forall k | k in (m + runtime').Keys || k in (declared + runtime').Keys
      ensures k in m + runtime' && k in declared + runtime' && (m + runtime')[k] == (declared + runtime')[k]
    {
      if k !in runtime' {
        assert k in m + runtime <==> k in declared + runtime;
        assert k in m ==> (m + runtime)[k] == (declared + runtime)[k];
      }
    }
  }
}

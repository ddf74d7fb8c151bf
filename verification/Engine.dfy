// The seeding engine as mathematics: what one action does to the process, the
// captured variables and a REST server, for ANY server (seeder/rest.go,
// seeder/seederstrategies.go). The classes in SeederImpl.dfy are proved to
// compute these functions.
module Engine {
  import opened Wire
  import opened Text

  // The declarative part of an action.
  datatype Action = Action(
    name: string, strategy: string, order: Option<int>, endpoint: string,
    getSuffix: Option<string>, postSuffix: Option<string>, patchSuffix: Option<string>,
    putSuffix: Option<string>, deleteSuffix: Option<string>,
    findExpr: string, postIsPut: bool, payload: string, patchPayload: string,
    captures: Bindings, variables: Bindings)

  datatype Strategy =
    | GetPost | FindPost | FindPutPost | FindPatchPost | FindDeletePost
    | GetPutPost | PutOnly | PostOnly | PutPost

  // The registry filled by seeder.New; FIND/DELETE is declared but not registered.
  const REGISTRY: seq<(string, Strategy)> := [
    ("PUT", PutOnly), ("POST", PostOnly), ("PUT/POST", PutPost),
    ("GET/PUT/POST", GetPutPost), ("FIND/PUT/POST", FindPutPost), ("FIND/POST", FindPost),
    ("GET/POST", GetPost), ("FIND/DELETE/POST", FindDeletePost), ("FIND/PATCH/POST", FindPatchPost)]

  function Lookup(registry: seq<(string, Strategy)>, name: string): Option<Strategy> {
    if registry == [] then None
    else if registry[0].0 == name then Some(registry[0].1)
    else Lookup(registry[1..], name)
  }

  function Registered(name: string): Option<Strategy> {
    Lookup(REGISTRY, name)
  }

  predicate Finds(s: Strategy) {
    s.FindPost? || s.FindPutPost? || s.FindPatchPost? || s.FindDeletePost?
  }

  datatype Exchange = Exchange(request: Request, reply: Reply, captures: Bindings)

  // One call of TemplateWithVars, made when `sent` requests had been answered.
  datatype Call = Call(text: string, variables: Bindings, sent: nat, output: string)

  // Everything an action reads or changes. `log` and `calls` only record.
  datatype World<S> = World(
    server: S, log: seq<Exchange>, env: Bindings, runtime: Bindings,
    calls: seq<Call>, payload: string)

  // A server is any state machine: it sees the request and its own state.
  datatype Ctx<!S> = Ctx(lib: Library, serve: (S, Request) -> (S, Reply))

  function Fresh<S>(server: S, env: Bindings): World<S> {
    World(server, [], env, map[], [], "")
  }

  function TemplateWithVars<S>(lib: Library, w: World<S>, text: string, variables: Bindings): (World<S>, string) {
    var env := Export(w.env, variables + w.runtime);
    var output := Substitute(lib, text, env);
    (w.(env := env, calls := w.calls + [Call(text, variables, |w.log|, output)]), output)
  }

  function Retemplate<S>(lib: Library, w: World<S>, text: string, variables: Bindings): World<S> {
    var (w', output) := TemplateWithVars(lib, w, text, variables);
    w'.(payload := output)
  }

  function Suffix(a: Action, verb: Verb): string {
    var s := match verb
      case GET => a.getSuffix case POST => a.postSuffix case PUT => a.putSuffix
      case PATCH => a.patchSuffix case DELETE => a.deleteSuffix;
    match s case Some(t) => t case None => ""
  }

  function Endpoint(a: Action, verb: Verb, id: string): string {
    a.endpoint + Suffix(a, verb) +
    (if (verb.PUT? || verb.PATCH? || verb.DELETE?) && id != "" then "/" + id else "")
  }

  predicate CarriesPayload(verb: Verb) {
    verb.POST? || verb.PUT? || verb.PATCH?
  }

  // `do`: template the path, call the client, classify, capture on success.
  function Do<S>(x: Ctx<S>, a: Action, w: World<S>, verb: Verb, id: string): (World<S>, Sent) {
    var u := x.lib.url(Endpoint(a, verb, id));
    var (w1, path) := TemplateWithVars(x.lib, w, u.path, a.variables);
    var req := Request(verb, u.host, path, u.query, if CarriesPayload(verb) then w1.payload else "");
    var (server, reply) := x.serve(w1.server, req);
    var runtime := if Succeeded(reply) then Capture(x.lib, w1.runtime, reply.body, a.captures) else w1.runtime;
    (w1.(server := server, log := w1.log + [Exchange(req, reply, a.captures)], runtime := runtime),
     Classify(a.name, req, reply))
  }

  // get/post/put/patch/delete. Only `get` gives up on a request it cannot
  // build; FIND/PATCH/POST templates its second payload just before `patch`.
  function Send<S>(x: Ctx<S>, a: Action, w: World<S>, verb: Verb, id: string): (World<S>, Sent) {
    if verb.GET? && x.lib.unbuildable(Endpoint(a, GET, id)).Some? then
      (w, Failed(Plain(x.lib.unbuildable(Endpoint(a, GET, id)).value)))
    else if verb.PATCH? then
      Do(x, a, Retemplate(x.lib, w, a.patchPayload, a.variables), verb, id)
    else
      Do(x, a, w, verb, id)
  }

  // A strategy as a state machine over the results seen so far.
  datatype Decision = Issue(verb: Verb, id: string) | Return(err: Option<Error>)

  function ErrorOf(s: Sent): Option<Error> {
    match s case Body(_) => None case Failed(e) => Some(e)
  }

  predicate MayFallBack(s: Sent) {
    s.Failed? && s.error.Diagnosed? && s.error.d.proceedFallback
  }

  function TextOf(s: Sent): string {
    match s case Body(t) => t case Failed(_) => ""
  }

  // What a FIND strategy does once its GET has been let through.
  function AfterFind(lib: Library, s: Strategy, a: Action, doc: string): Decision {
    var f := FindPath(lib, doc, a.findExpr);
    if f.err.Some? then Return(f.err)
    else if f.found == "" then Issue(POST, "")
    else match s
      case FindPutPost => Issue(PUT, f.found)
      case FindPatchPost => Issue(PATCH, f.found)
      case FindDeletePost => Issue(DELETE, f.found)
      case _ => if a.postIsPut then Issue(POST, "") else Return(None)
  }

  function Decide(lib: Library, s: Strategy, a: Action, id: string, h: seq<Sent>): (r: Decision)
    ensures |h| >= 3 ==> r.Return?
  {
    if h == [] then
      (match s case PutOnly => Issue(PUT, id) case PutPost => Issue(PUT, id) case PostOnly => Issue(POST, "")
               case _ => Issue(GET, ""))
    else if |h| == 1 then
      (match s
       case PutOnly => Return(ErrorOf(h[0]))
       case PostOnly => Return(ErrorOf(h[0]))
       case PutPost =>
         if h[0].Body? || !h[0].error.Diagnosed? then Return(None)
         else if h[0].error.d.isFatal || !h[0].error.d.proceedFallback then Return(ErrorOf(h[0]))
         else Issue(POST, "")
       case GetPost =>
         if h[0].Failed? then Return(ErrorOf(h[0]))
         else if h[0].text == "" then Issue(POST, "") else Return(None)
       case GetPutPost =>
         if h[0].Failed? && !MayFallBack(h[0]) then Return(ErrorOf(h[0]))
         else if TextOf(h[0]) == "" then Issue(POST, "") else Issue(PUT, id)
       case FindDeletePost =>
         if h[0].Failed? && !MayFallBack(h[0]) then Return(ErrorOf(h[0]))
         else AfterFind(lib, s, a, TextOf(h[0]))
       case _ =>
         if h[0].Failed? then Return(ErrorOf(h[0])) else AfterFind(lib, s, a, h[0].text))
    else if |h| == 2 && s.FindDeletePost? && Decide(lib, s, a, id, h[..1]).Issue?
            && Decide(lib, s, a, id, h[..1]).verb.DELETE? && h[1].Body? then
      Issue(POST, "")
    else
      Return(ErrorOf(h[|h| - 1]))
  }

  // Let the strategy run against the server from where `h` has brought it.
  function Play<S>(x: Ctx<S>, s: Strategy, a: Action, id: string, w: World<S>, h: seq<Sent>): (World<S>, Option<Error>)
    requires |h| <= 3
    decreases 3 - |h|
  {
    match Decide(x.lib, s, a, id, h)
    case Return(e) => (w, e)
    case Issue(verb, i) =>
      var (w', r) := Send(x, a, w, verb, i);
      Play(x, s, a, id, w', h + [r])
  }

  // One strategy call on an action whose private id is `id`.
  function RunStrategy<S>(x: Ctx<S>, s: Strategy, a: Action, id: string, w: World<S>): (World<S>, Option<Error>) {
    Play(x, s, a, id, Retemplate(x.lib, w, a.payload, a.variables), [])
  }
}

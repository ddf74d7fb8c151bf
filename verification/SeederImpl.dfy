// The engine as the program has it: objects whose methods update the captured
// variables, the process environment, an action's private fields and the
// variables map that its copies share (seeder/rest.go,
// seeder/seederstrategies.go, seeder/diagnostic.go). Every method is proved to
// compute what Engine.dfy says.
module SeederImpl {
  import opened Wire
  import opened Text
  import opened Engine
  import Traces

  // How to authenticate, by the name that actions refer to.
  datatype AuthConfig = AuthConfig(name: string, settings: string)

  type AuthMap = map<string, AuthConfig>

  // The environment of the process.
  class Process {
    var env: Bindings

    constructor (env: Bindings)
      ensures this.env == env
    {
      this.env := env;
    }

    method Setenv(name: string, value: string)
      modifies this
      ensures env == if Settable(name, value) then old(env)[name := value] else old(env)
    {
      if Settable(name, value) {
        env := env[name := value];
      }
    }
  }

  // A KvMapVarsAny value: copies of an action share it.
  class VarMap {
    var m: Bindings

    constructor (m: Bindings)
      ensures this.m == m
    {
      this.m := m;
    }
  }

  function Contents(vars: VarMap?): Bindings
    reads vars
  {
    if vars == null then map[] else vars.m
  }

  class Diagnostic {
    var status: int
    var name: string
    var message: string
    var request: Request
    var proceedFallback: bool
    var isFatal: bool

    constructor (name: string, request: Request, proceedFallback: bool, isFatal: bool)
      ensures AsValue() == Diagnosis(0, name, "", request, proceedFallback, isFatal)
    {
      this.status := 0;
      this.name := name;
      this.message := "";
      this.request := request;
      this.proceedFallback := proceedFallback;
      this.isFatal := isFatal;
    }

    function AsValue(): Diagnosis
      reads this
    {
      Diagnosis(status, name, message, request, proceedFallback, isFatal)
    }

    method WithMessage(m: string)
      modifies this
      ensures AsValue() == old(AsValue()).(message := m)
    {
      message := m;
    }

    method WithStatus(s: int)
      modifies this
      ensures AsValue() == old(AsValue()).(status := s)
    {
      status := s;
    }

    method WithProceedFallback(v: bool)
      modifies this
      ensures AsValue() == old(AsValue()).(proceedFallback := v)
    {
      proceedFallback := v;
    }

    method WithIsFatal(v: bool)
      modifies this
      ensures AsValue() == old(AsValue()).(isFatal := v)
    {
      isFatal := v;
    }
  }

  // The injected client, together with the server behind it.
  class Client<!S> {
    var state: S
    const serve: (S, Request) -> (S, Reply)

    constructor (state: S, serve: (S, Request) -> (S, Reply))
      ensures this.state == state && this.serve == serve
    {
      this.state := state;
      this.serve := serve;
    }

    method Do(req: Request) returns (reply: Reply)
      modifies this
      ensures (state, reply) == serve(old(state), req)
    {
      var out := serve(state, req);
      state := out.0;
      reply := out.1;
    }
  }

  // The copy of a stored action that one run works on. `decl` is the action as
  // it was supplied; the code reads its variables from the shared map.
  class LiveAction {
    var decl: Action
    var variables: VarMap?
    var templatedPayload: string
    var foundId: string

    constructor (decl: Action, variables: VarMap?, templatedPayload: string, foundId: string)
      ensures this.decl == decl && this.variables == variables
      ensures this.templatedPayload == templatedPayload && this.foundId == foundId
    {
      this.decl := decl;
      this.variables := variables;
      this.templatedPayload := templatedPayload;
      this.foundId := foundId;
    }
  }

  function Outcome(resp: string, err: Option<Error>): Sent {
    match err case None => Body(resp) case Some(e) => Failed(e)
  }

  function Filtered(ok: (string, string) -> bool, m: Bindings): Bindings {
    map k | k in m && ok(k, m[k]) :: m[k]
  }

  lemma ExportIsFiltered(env: Bindings, m: Bindings)
    ensures Export(env, m) == env + Filtered(Settable, m)
  {
  }

  lemma FilteredOneMore(ok: (string, string) -> bool, env: Bindings, m: Bindings, todo: set<string>, k: string)
    requires k in todo && todo <= m.Keys
    ensures env + Filtered(ok, m - (todo - {k})) ==
            if ok(k, m[k]) then (env + Filtered(ok, m - todo))[k := m[k]] else env + Filtered(ok, m - todo)
  {
  }

  lemma OverlayOneMore(m: Bindings, over: Bindings, todo: set<string>, k: string)
    requires k in todo && todo <= over.Keys
    ensures m + (over - (todo - {k})) == (m + (over - todo))[k := over[k]]
  {
  }

  // The names for which a lookup yields something.
  function Hits(found: string -> string, names: set<string>): Bindings {
    map n | n in names && found(n) != "" :: found(n)
  }

  lemma HitsOneMore(found: string -> string, runtime: Bindings, names: set<string>, k: string)
    ensures runtime + Hits(found, names + {k})
            == if found(k) != "" then (runtime + Hits(found, names))[k := found(k)] else runtime + Hits(found, names)
    ensures runtime + Hits(found, {}) == runtime
  {
  }

  function Lookups(lib: Library, doc: string, declared: Bindings): string -> string {
    n => if n in declared then FindPath(lib, doc, declared[n]).found else ""
  }

  lemma CaptureIsHits(lib: Library, runtime: Bindings, doc: string, declared: Bindings)
    ensures Capture(lib, runtime, doc, declared) == runtime + Hits(Lookups(lib, doc, declared), declared.Keys)
  {
  }

  // A strategy that asks for something goes on with its answer.
  lemma GoesOn<S>(x: Ctx<S>, s: Strategy, a: Action, id: string, w: World<S>, h: seq<Sent>, verb: Verb, i: string)
    requires |h| <= 2 && Decide(x.lib, s, a, id, h) == Issue(verb, i)
    ensures var (w', r) := Send(x, a, w, verb, i);
            Play(x, s, a, id, w, h) == Play(x, s, a, id, w', h + [r])
  {
  }

  lemma GoesOnFromGet<S>(x: Ctx<S>, s: Strategy, a: Action, id: string, w: World<S>)
    requires Decide(x.lib, s, a, id, []) == Issue(GET, "")
    ensures var (w', r) := Send(x, a, w, GET, "");
            Play(x, s, a, id, w, []) == Play(x, s, a, id, w', [r])
  {
    GoesOn(x, s, a, id, w, [], GET, "");
    var r := Send(x, a, w, GET, "").1;
    assert [] + [r] == [r];
  }

  // The last request of a strategy decides its result.
  lemma EndsWith<S>(x: Ctx<S>, s: Strategy, a: Action, id: string, w: World<S>, h: seq<Sent>, verb: Verb, i: string)
    requires |h| <= 2 && Decide(x.lib, s, a, id, h) == Issue(verb, i)
    requires !verb.GET? && (h != [] ==> !verb.DELETE?) && (h == [] ==> !s.PutPost?)
    ensures var (w', r) := Send(x, a, w, verb, i);
            Play(x, s, a, id, w, h) == (w', ErrorOf(r))
  {
    GoesOn(x, s, a, id, w, h, verb, i);
    var r := Send(x, a, w, verb, i).1;
    var h' := h + [r];
    assert h'[|h|] == r;
    if h != [] {
      assert h'[..1] == [h[0]] && h == [h[0]] + h[1..];
    }
  }

  // FIND/POST, FIND/PUT/POST and FIND/PATCH/POST after their lookup.
  lemma AfterFinding<S>(x: Ctx<S>, s: Strategy, a: Action, id: string, w: World<S>, doc: string, found: string)
    requires s.FindPost? || s.FindPutPost? || s.FindPatchPost?
    requires FindPath(x.lib, doc, a.findExpr) == FindResult(found, None)
    ensures var verb := if found == "" || s.FindPost? then POST else if s.FindPutPost? then PUT else PATCH;
            var (w', r) := Send(x, a, w, verb, if verb.POST? then "" else found);
            Play(x, s, a, id, w, [Body(doc)]) ==
            if found != "" && s.FindPost? && !a.postIsPut then (w, None) else (w', ErrorOf(r))
  {
    if found == "" || (s.FindPost? && a.postIsPut) {
      EndsWith(x, s, a, id, w, [Body(doc)], POST, "");
    } else if !s.FindPost? {
      EndsWith(x, s, a, id, w, [Body(doc)], if s.FindPutPost? then PUT else PATCH, found);
    }
  }

  lemma StopsUnlessAllowed<S>(x: Ctx<S>, s: Strategy, a: Action, id: string, w: World<S>, r: Sent)
    requires (s.GetPutPost? || s.FindDeletePost?) && r.Failed?
    ensures !MayFallBack(r) ==> Play(x, s, a, id, w, [r]) == (w, Some(r.error))
  {
  }

  // PUT/POST: the PUT, and then the POST if it failed in a way that allows one.
  // The case of an error that is no Diagnostic does not occur.
  lemma PutThenPost<S>(x: Ctx<S>, a: Action, id: string, w: World<S>)
    ensures var (w1, r1) := Send(x, a, w, PUT, id);
            var (w2, r2) := Send(x, a, w1, POST, "");
            && (r1.Failed? ==> r1.error.Diagnosed? && (MayFallBack(r1) ==> !r1.error.d.isFatal))
            && Play(x, Strategy.PutPost, a, id, w, [])
               == if MayFallBack(r1) then (w2, ErrorOf(r2)) else (w1, ErrorOf(r1))
  {
    GoesOn(x, Strategy.PutPost, a, id, w, [], PUT, id);
    var (w1, r1) := Send(x, a, w, PUT, id);
    var e := w1.log[|w.log|];
    Traces.ClassifyFacts(a.name, e.request, e.reply);
    assert [] + [r1] == [r1];
    if MayFallBack(r1) {
      EndsWith(x, Strategy.PutPost, a, id, w1, [r1], POST, "");
    }
  }

  // FIND/DELETE/POST once it has found something: the DELETE, and then the
  // POST unless the DELETE failed.
  lemma DeleteThenPost<S>(x: Ctx<S>, a: Action, id: string, w: World<S>, r: Sent, found: string)
    requires r.Body? || MayFallBack(r)
    requires FindPath(x.lib, TextOf(r), a.findExpr) == FindResult(found, None) && found != ""
    ensures var (w1, r1) := Send(x, a, w, DELETE, found);
            var (w2, r2) := Send(x, a, w1, POST, "");
            Play(x, FindDeletePost, a, id, w, [r]) == if r1.Body? then (w2, ErrorOf(r2)) else (w1, ErrorOf(r1))
  {
    GoesOn(x, FindDeletePost, a, id, w, [r], DELETE, found);
    var (w1, r1) := Send(x, a, w, DELETE, found);
    assert [r] + [r1] == [r, r1] && [r, r1][..1] == [r];
    if r1.Body? {
      EndsWith(x, FindDeletePost, a, id, w1, [r, r1], POST, "");
    }
  }

  lemma AfterLookup<S>(x: Ctx<S>, a: Action, id: string, w: World<S>, r: Sent, f: FindResult)
    requires (r.Body? || MayFallBack(r)) && FindPath(x.lib, TextOf(r), a.findExpr) == f
    ensures var (w1, r1) := Send(x, a, w, DELETE, f.found);
            var (w2, r2) := Send(x, a, if f.found == "" then w else w1, POST, "");
            Play(x, FindDeletePost, a, id, w, [r]) ==
            if f.err.Some? then (w, f.err)
            else if f.found == "" || r1.Body? then (w2, ErrorOf(r2)) else (w1, ErrorOf(r1))
  {
    if f.err.None? {
      if f.found == "" {
        EndsWith(x, FindDeletePost, a, id, w, [r], POST, "");
      } else {
        DeleteThenPost(x, a, id, w, r, f.found);
      }
    }
  }

  class SeederImpl<!S> {
    const lib: Library
    const process: Process
    const client: Client<S>
    var runtimeVars: Bindings
    var auth: AuthMap
    ghost var log: seq<Exchange>
    ghost var calls: seq<Call>

    constructor (lib: Library, process: Process, client: Client<S>)
      ensures this.lib == lib && this.process == process && this.client == client
      ensures Now("") == Fresh(client.state, process.env)
    {
      this.lib := lib;
      this.process := process;
      this.client := client;
      this.runtimeVars := map[];
      this.auth := map[];
      this.log := [];
      this.calls := [];
    }

    // The state that Engine.dfy speaks of, with some action's payload.
    ghost function Now(payload: string): World<S>
      reads this, process, client
    {
      World(client.state, log, process.env, runtimeVars, calls, payload)
    }

    function Here(): Ctx<S> {
      Ctx(lib, client.serve)
    }

    ghost predicate Coherent(action: LiveAction)
      reads this, action, action.variables
    {
      if action.variables == null then action.decl.variables == map[]
      else SameBut(action.variables.m, action.decl.variables, runtimeVars)
    }

    method WithAuth(a: AuthMap)
      modifies this`auth
      ensures auth == a
    {
      auth := a;
    }

    method SetRuntimeVar(key: string, val: string)
      modifies this`runtimeVars
      ensures runtimeVars == old(runtimeVars)[key := val]
    {
      runtimeVars := runtimeVars[key := val];
    }

    // A copy, made key by key in any order.
    method RuntimeVars() returns (rv: Bindings)
      ensures rv == runtimeVars
    {
      rv := map[];
      var todo := runtimeVars.Keys;
      while todo != {}
        invariant todo <= runtimeVars.Keys
        invariant rv == runtimeVars - todo
      {
        var k :| k in todo;
        rv := rv[k := runtimeVars[k]];
        todo := todo - {k};
      }
    }

    // Writes the captured values into the caller's map, then templates.
    method TemplateWithVars(payload: string, vars: VarMap?, ghost declared: Bindings) returns (output: string)
      requires if vars == null then declared == map[] else SameBut(vars.m, declared, runtimeVars)
      modifies this`calls, process, vars
      ensures process.env == Export(old(process.env), declared + runtimeVars)
      ensures output == Substitute(lib, payload, process.env)
      ensures calls == old(calls) + [Call(payload, declared, |log|, output)]
      ensures vars != null ==> SameBut(vars.m, declared, runtimeVars)
      ensures vars != null ==> vars.m == old(vars.m) + runtimeVars
    {
      var local := new VarMap(map[]);
      if vars != null {
        local := vars;
      }
      ghost var given := local.m;
      var rv := RuntimeVars();
      var todo := rv.Keys;
      while todo != {}
        invariant todo <= rv.Keys
        invariant local.m == given + (rv - todo)
        invariant process.env == old(process.env) && calls == old(calls)
      {
        var k :| k in todo;
        OverlayOneMore(given, rv, todo, k);
        local.m := local.m[k := rv[k]];
        todo := todo - {k};
      }
      assert rv - {} == rv;
      assert local.m == declared + runtimeVars;
      output := TemplatePayload(payload, local);
      calls := calls + [Call(payload, declared, |log|, output)];
    }

    // Exports every variable, in any order, and substitutes.
    method TemplatePayload(payload: string, vars: VarMap) returns (output: string)
      modifies process
      ensures process.env == Export(old(process.env), vars.m)
      ensures output == Substitute(lib, payload, process.env)
    {
      var todo := vars.m.Keys;
      while todo != {}
        invariant todo <= vars.m.Keys
        invariant process.env == old(process.env) + Filtered(Settable, vars.m - todo)
      {
        var k :| k in todo;
        FilteredOneMore(Settable, old(process.env), vars.m, todo, k);
        process.Setenv(k, vars.m[k]);
        todo := todo - {k};
      }
      assert vars.m - {} == vars.m;
      ExportIsFiltered(old(process.env), vars.m);
      output := Substitute(lib, payload, process.env);
    }

    method FindPathByExpression(resp: string, expr: string) returns (found: string, err: Option<Error>)
      ensures FindResult(found, err) == FindPath(lib, resp, expr)
    {
      if expr == "" {
        return "", None;
      }
      var unescaped := resp;
      var unquoted := Unquote(lib, resp);
      if unquoted.Some? {
        unescaped := unquoted.value;
      }
      var result := JsonPath(lib, unescaped, expr);
      if result.PathError? {
        return "", Some(Plain(result.message));
      }
      for i := 0 to |result.nodes|
        invariant i == 0
      {
        match result.nodes[i]
        case StringNode(_, Some(s)) => return s, None;
        case StringNode(raw, None) => return raw, Some(Plain("invalid syntax"));
        case NumericNode(t) => return t, None;
        case OtherNode => return "", Some(Plain("cannot use type"));
      }
      return "", None;
    }

    // Looks up the declared names in a response, in any order.
    method FindRuntimeVars(resp: string, action: LiveAction)
      modifies this`runtimeVars
      ensures runtimeVars == Capture(lib, old(runtimeVars), resp, action.decl.captures)
    {
      var declared := action.decl.captures;
      ghost var found := Lookups(lib, resp, declared);
      ghost var done: set<string> := {};
      HitsOneMore(found, runtimeVars, done, "");
      var todo := declared.Keys;
      while todo != {}
        invariant todo !! done && todo + done == declared.Keys
        invariant runtimeVars == old(runtimeVars) + Hits(found, done)
      {
        var k :| k in todo;
        HitsOneMore(found, old(runtimeVars), done, k);
        var value := LookUp(resp, declared, k, found);
        if value != "" {
          SetRuntimeVar(k, value);
        }
        todo, done := todo - {k}, done + {k};
      }
      assert done == declared.Keys;
      CaptureIsHits(lib, old(runtimeVars), resp, declared);
    }

    // An error only means that nothing, or something unquoted, is captured.
    method LookUp(resp: string, declared: Bindings, k: string, ghost found: string -> string) returns (value: string)
      requires k in declared && found == Lookups(lib, resp, declared)
      ensures value == found(k)
    {
      var err;
      value, err := FindPathByExpression(resp, declared[k]);
    }

    // The part of `do` that fills in the diagnostic of a failed call.
    method Report(diag: Diagnostic, reply: Reply) returns (err: Option<Error>)
      requires !diag.proceedFallback && diag.isFatal
      modifies diag
      ensures err == if Succeeded(reply) then None
                     else Some(Diagnosed(Diagnose(old(diag.name), old(diag.request), reply)))
    {
      if reply.NetworkFailure? {
        diag.WithStatus(NETWORK_ERROR_STATUS);
        diag.WithMessage("failed to make network call: " + reply.message);
        return Some(Diagnosed(diag.AsValue()));
      }
      diag.WithStatus(reply.status);
      if reply.UnreadableBody? {
        diag.WithMessage("unable to read the body");
        return Some(Diagnosed(diag.AsValue()));
      }
      if reply.status > 299 {
        diag.WithMessage(reply.body);
        diag.WithProceedFallback(true);
        diag.WithIsFatal(false);
        if reply.status >= 500 {
          diag.WithProceedFallback(false);
        }
        return Some(Diagnosed(diag.AsValue()));
      }
      return None;
    }

    // do: template the path, call, classify, capture. The URL and the body are
    // those of the request that the verb method has built.
    method Do(verb: Verb, url: Url, body: string, action: LiveAction, ghost id: string)
        returns (resp: string, err: Option<Error>)
      requires Coherent(action)
      requires url == lib.url(Endpoint(action.decl, verb, id))
      requires body == if CarriesPayload(verb) then action.templatedPayload else ""
      modifies this`runtimeVars, this`log, this`calls, process, client, action.variables
      ensures (Now(action.templatedPayload), Outcome(resp, err))
           == Engine.Do(Here(), action.decl, old(Now(action.templatedPayload)), verb, id)
      ensures Coherent(action) && (err.Some? ==> resp == "")
    {
      ghost var w := Now(action.templatedPayload);
      var path := TemplateWithVars(url.path, action.variables, action.decl.variables);
      assert (Now(action.templatedPayload), path) == Engine.TemplateWithVars(lib, w, url.path, action.decl.variables);
      var req := Request(verb, url.host, path, url.query, body);
      var diag := new Diagnostic(action.decl.name, req, false, true);
      var reply := client.Do(req);
      log := log + [Exchange(req, reply, action.decl.captures)];
      err := Report(diag, reply);
      if err.Some? {
        return "", err;
      }
      ghost var runtime := runtimeVars;
      FindRuntimeVars(reply.body, action);
      if action.variables != null {
        MoreCaptures(action.variables.m, action.decl.variables, runtime, runtimeVars);
      }
      return reply.body, None;
    }

    method Get(action: LiveAction) returns (resp: string, err: Option<Error>)
      requires Coherent(action)
      modifies this`runtimeVars, this`log, this`calls, process, client, action.variables
      ensures forall id :: (Now(action.templatedPayload), Outcome(resp, err))
                        == Send(Here(), action.decl, old(Now(action.templatedPayload)), GET, id)
      ensures Coherent(action) && (err.Some? ==> resp == "")
    {
      var endpoint := action.decl.endpoint;
      if action.decl.getSuffix.Some? {
        endpoint := endpoint + action.decl.getSuffix.value;
      }
      assert endpoint == Endpoint(action.decl, GET, "");
      if lib.unbuildable(endpoint).Some? {
        return "", Some(Plain(lib.unbuildable(endpoint).value));
      }
      resp, err := Do(GET, lib.url(endpoint), "", action, "");
    }

    method Post(action: LiveAction) returns (err: Option<Error>)
      requires Coherent(action)
      modifies this`runtimeVars, this`log, this`calls, process, client, action.variables
      ensures Coherent(action) && Sends(action, POST, "", err)
    {
      var endpoint := action.decl.endpoint;
      if action.decl.postSuffix.Some? {
        endpoint := endpoint + action.decl.postSuffix.value;
      }
      assert endpoint == Endpoint(action.decl, POST, "");
      var resp;
      resp, err := Do(POST, lib.url(endpoint), action.templatedPayload, action, "");
    }

    // What a verb method other than `Get` does; its caller sees no body.
    twostate predicate Sends(action: LiveAction, verb: Verb, id: string, new err: Option<Error>)
      reads this, process, client, action
    {
      var (w', sent) := Engine.Do(Here(), action.decl, old(Now(action.templatedPayload)), verb, id);
      Now(action.templatedPayload) == w' && err == ErrorOf(sent)
    }

    method Put(action: LiveAction) returns (err: Option<Error>)
      requires Coherent(action)
      modifies this`runtimeVars, this`log, this`calls, process, client, action.variables
      ensures Coherent(action) && Sends(action, PUT, action.foundId, err)
    {
      var endpoint := action.decl.endpoint;
      if action.decl.putSuffix.Some? {
        endpoint := endpoint + action.decl.putSuffix.value;
      }
      if action.foundId != "" {
        endpoint := endpoint + "/" + action.foundId;
      }
      assert endpoint == Endpoint(action.decl, PUT, action.foundId);
      var resp;
      resp, err := Do(PUT, lib.url(endpoint), action.templatedPayload, action, action.foundId);
    }

    method Patch(action: LiveAction) returns (err: Option<Error>)
      requires Coherent(action)
      modifies this`runtimeVars, this`log, this`calls, process, client, action.variables
      ensures Coherent(action) && Sends(action, PATCH, action.foundId, err)
    {
      var endpoint := action.decl.endpoint;
      if action.decl.patchSuffix.Some? {
        endpoint := endpoint + action.decl.patchSuffix.value;
      }
      if action.foundId != "" {
        endpoint := endpoint + "/" + action.foundId;
      }
      assert endpoint == Endpoint(action.decl, PATCH, action.foundId);
      var resp;
      resp, err := Do(PATCH, lib.url(endpoint), action.templatedPayload, action, action.foundId);
    }

    method Delete(action: LiveAction) returns (err: Option<Error>)
      requires Coherent(action)
      modifies this`runtimeVars, this`log, this`calls, process, client, action.variables
      ensures Coherent(action) && Sends(action, DELETE, action.foundId, err)
    {
      var endpoint := action.decl.endpoint;
      if action.decl.deleteSuffix.Some? {
        endpoint := endpoint + action.decl.deleteSuffix.value;
      }
      if action.foundId != "" {
        endpoint := endpoint + "/" + action.foundId;
      }
      assert endpoint == Endpoint(action.decl, DELETE, action.foundId);
      var resp;
      resp, err := Do(DELETE, lib.url(endpoint), "", action, action.foundId);
    }

    // What a strategy does, given the action's private id when it began.
    twostate predicate Ran(s: Strategy, action: LiveAction, new err: Option<Error>)
      reads this, process, client, action, action.variables
    {
      && (Now(action.templatedPayload), err)
         == RunStrategy(Here(), s, action.decl, old(action.foundId), old(Now(action.templatedPayload)))
      && Coherent(action) && action.decl == old(action.decl) && action.variables == old(action.variables)
    }

    // The assignment to templatedPayload that begins every strategy.
    method TemplateInto(action: LiveAction, text: string)
      requires Coherent(action)
      modifies this`calls, process, action`templatedPayload, action.variables
      ensures Now(action.templatedPayload)
              == Retemplate(lib, old(Now(action.templatedPayload)), text, action.decl.variables)
      ensures Coherent(action)
    {
      action.templatedPayload := TemplateWithVars(text, action.variables, action.decl.variables);
    }

    method RunPut(action: LiveAction) returns (err: Option<Error>)
      requires Coherent(action)
      modifies this`runtimeVars, this`log, this`calls, process, client, action, action.variables
      ensures Ran(PutOnly, action, err)
    {
      TemplateInto(action, action.decl.payload);
      EndsWith(Here(), PutOnly, action.decl, action.foundId, Now(action.templatedPayload), [], PUT, action.foundId);
      err := Put(action);
    }

    method RunPost(action: LiveAction) returns (err: Option<Error>)
      requires Coherent(action)
      modifies this`runtimeVars, this`log, this`calls, process, client, action, action.variables
      ensures Ran(PostOnly, action, err)
    {
      TemplateInto(action, action.decl.payload);
      EndsWith(Here(), PostOnly, action.decl, action.foundId, Now(action.templatedPayload), [], POST, "");
      err := Post(action);
    }

    // How FindPost, FindPutPost and FindPatchPost begin: `doc` is what the GET
    // returned.
    method Find(action: LiveAction, ghost s: Strategy) returns (found: string, err: Option<Error>, ghost doc: string)
      requires Coherent(action) && (s.FindPost? || s.FindPutPost? || s.FindPatchPost?)
      modifies this`runtimeVars, this`log, this`calls, process, client, action`templatedPayload, action.variables
      ensures err.Some? ==> Ran(s, action, err)
      ensures err.None? ==>
                ComesTo(s, action, Body(doc)) && FindPath(lib, doc, action.decl.findExpr) == FindResult(found, None)
    {
      TemplateInto(action, action.decl.payload);
      GoesOnFromGet(Here(), s, action.decl, action.foundId, Now(action.templatedPayload));
      found := "";
      var resp;
      resp, err := Get(action);
      doc := resp;
      if err.Some? {
        return;
      }
      found, err := FindPathByExpression(resp, action.decl.findExpr);
    }

    // How GetPutPost and FindDeletePost begin: a failure that allows a fallback
    // counts as an empty response.
    method GetUnlessFallback(action: LiveAction, ghost s: Strategy)
        returns (resp: string, err: Option<Error>, ghost r: Sent)
      requires Coherent(action) && (s.GetPutPost? || s.FindDeletePost?)
      modifies this`runtimeVars, this`log, this`calls, process, client, action`templatedPayload, action.variables
      ensures err.Some? ==> Ran(s, action, err)
      ensures err.None? ==> ComesTo(s, action, r) && (r.Body? || MayFallBack(r)) && resp == TextOf(r)
    {
      TemplateInto(action, action.decl.payload);
      GoesOnFromGet(Here(), s, action.decl, action.foundId, Now(action.templatedPayload));
      resp, err := Get(action);
      r := Outcome(resp, err);
      if err.Some? {
        StopsUnlessAllowed(Here(), s, action.decl, action.foundId, Now(action.templatedPayload), r);
        if err.value.Diagnosed? {
          if !err.value.d.proceedFallback {
            return;
          }
        } else {
          return;
        }
      }
      err := None;
    }

    // The strategy has made its GET, which came back as `r`.
    twostate predicate ComesTo(s: Strategy, action: LiveAction, new r: Sent)
      reads this, process, client, action, action.variables
    {
      && RunStrategy(Here(), s, action.decl, old(action.foundId), old(Now(action.templatedPayload)))
         == Play(Here(), s, action.decl, old(action.foundId), Now(action.templatedPayload), [r])
      && Coherent(action) && action.decl == old(action.decl) && action.variables == old(action.variables)
    }

    method FindPutPost(action: LiveAction) returns (err: Option<Error>)
      requires Coherent(action)
      modifies this`runtimeVars, this`log, this`calls, process, client, action, action.variables
      ensures Ran(Strategy.FindPutPost, action, err)
    {
      ghost var id := action.foundId;
      var found;
      ghost var doc;
      found, err, doc := Find(action, Strategy.FindPutPost);
      if err.Some? {
        return;
      }
      AfterFinding(Here(), Strategy.FindPutPost, action.decl, id, Now(action.templatedPayload), doc, found);
      if found == "" {
        err := Post(action);
        return;
      }
      action.foundId := found;
      err := Put(action);
    }

    method FindPatchPost(action: LiveAction) returns (err: Option<Error>)
      requires Coherent(action)
      modifies this`runtimeVars, this`log, this`calls, process, client, action, action.variables
      ensures Ran(Strategy.FindPatchPost, action, err)
    {
      ghost var id := action.foundId;
      var found;
      ghost var doc;
      found, err, doc := Find(action, Strategy.FindPatchPost);
      if err.Some? {
        return;
      }
      AfterFinding(Here(), Strategy.FindPatchPost, action.decl, id, Now(action.templatedPayload), doc, found);
      if found == "" {
        err := Post(action);
        return;
      }
      action.foundId := found;
      ghost var w := Now(action.templatedPayload);
      TemplateInto(action, action.decl.patchPayload);
      err := Patch(action);
      ghost var (w', sent) := Send(Here(), action.decl, w, PATCH, found);
      assert (Now(action.templatedPayload), err) == (w', ErrorOf(sent));
    }

    method FindPost(action: LiveAction) returns (err: Option<Error>)
      requires Coherent(action)
      modifies this`runtimeVars, this`log, this`calls, process, client, action, action.variables
      ensures Ran(Strategy.FindPost, action, err)
    {
      ghost var id := action.foundId;
      var found;
      ghost var doc;
      found, err, doc := Find(action, Strategy.FindPost);
      if err.Some? {
        return;
      }
      AfterFinding(Here(), Strategy.FindPost, action.decl, id, Now(action.templatedPayload), doc, found);
      if found != "" && action.decl.postIsPut {
        err := Post(action);
        return;
      }
      if found == "" || action.decl.postIsPut {
        err := Post(action);
        return;
      }
      return None;
    }

    method GetPost(action: LiveAction) returns (err: Option<Error>)
      requires Coherent(action)
      modifies this`runtimeVars, this`log, this`calls, process, client, action, action.variables
      ensures Ran(Strategy.GetPost, action, err)
    {
      ghost var id := action.foundId;
      TemplateInto(action, action.decl.payload);
      GoesOnFromGet(Here(), Strategy.GetPost, action.decl, id, Now(action.templatedPayload));
      var resp;
      resp, err := Get(action);
      if err.Some? {
        return;
      }
      if resp == "" {
        EndsWith(Here(), Strategy.GetPost, action.decl, id, Now(action.templatedPayload), [Body(resp)], POST, "");
        err := Post(action);
        return;
      }
      return None;
    }

    method GetPutPost(action: LiveAction) returns (err: Option<Error>)
      requires Coherent(action)
      modifies this`runtimeVars, this`log, this`calls, process, client, action, action.variables
      ensures Ran(Strategy.GetPutPost, action, err)
    {
      ghost var id := action.foundId;
      var resp;
      ghost var r;
      resp, err, r := GetUnlessFallback(action, Strategy.GetPutPost);
      if err.Some? {
        return;
      }
      if resp == "" {
        EndsWith(Here(), Strategy.GetPutPost, action.decl, id, Now(action.templatedPayload), [r], POST, "");
        err := Post(action);
        return;
      }
      EndsWith(Here(), Strategy.GetPutPost, action.decl, id, Now(action.templatedPayload), [r], PUT, action.foundId);
      err := Put(action);
    }

    method FindDeletePost(action: LiveAction) returns (err: Option<Error>)
      requires Coherent(action)
      modifies this`runtimeVars, this`log, this`calls, process, client, action, action.variables
      ensures Ran(Strategy.FindDeletePost, action, err)
    {
      ghost var id := action.foundId;
      var resp;
      ghost var r;
      resp, err, r := GetUnlessFallback(action, Strategy.FindDeletePost);
      if err.Some? {
        return;
      }
      var found;
      found, err := FindPathByExpression(resp, action.decl.findExpr);
      AfterLookup(Here(), action.decl, id, Now(action.templatedPayload), r, FindResult(found, err));
      if err.Some? {
        return;
      }
      if found != "" {
        action.foundId := found;
        err := Delete(action);
        if err.Some? {
          return;
        }
        err := Post(action);
        return;
      }
      err := Post(action);
    }

    method PutPost(action: LiveAction) returns (err: Option<Error>)
      requires Coherent(action)
      modifies this`runtimeVars, this`log, this`calls, process, client, action, action.variables
      ensures Ran(Strategy.PutPost, action, err)
    {
      TemplateInto(action, action.decl.payload);
      PutThenPost(Here(), action.decl, action.foundId, Now(action.templatedPayload));
      err := Put(action);
      if err.Some? {
        if err.value.Diagnosed? {
          if err.value.d.isFatal || !err.value.d.proceedFallback {
            return;
          }
          err := Post(action);
          return;
        }
      }
      return None;
    }
  }
}

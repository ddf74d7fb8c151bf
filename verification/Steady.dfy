// What an action's requests depend on. An action is its strategy against the
// server alone, with requests that follow from what was bound and captured when
// it began and from its own replies. When no template mentions a name that
// another action binds or that any response captures, they are always the same.
module Steady {
  import opened Wire
  import opened Text
  import opened Engine
  import opened Runs
  import opened Traces

  // ---- The strategy against the server alone ----

  // The request that goes out when these results are in.
  type Requests = (seq<Sent>, Verb, string) -> Request

  // The environment that the next template is filled in from, and the captured
  // names, once the results `h` are in.
  function SeenAfter<S>(lib: Library, a: Action, w: World<S>, h: seq<Sent>): (Bindings, Bindings) {
    if h == [] then (Export(w.env, a.variables + w.runtime), w.runtime)
    else
      var (env, runtime) := SeenAfter(lib, a, w, h[..|h| - 1]);
      var runtime' := CapturedBy(lib, a, runtime, h[|h| - 1]);
      (Export(env, a.variables + runtime'), runtime')
  }

  function CapturedBy(lib: Library, a: Action, runtime: Bindings, r: Sent): Bindings {
    match r
    case Body(text) => Capture(lib, runtime, text, a.captures)
    case Failed(_) => runtime
  }

  // The payload has been filled in at the beginning (`first`).
  function Rendered(lib: Library, a: Action, first: Bindings, env: Bindings, verb: Verb, id: string): Request {
    var u := lib.url(Endpoint(a, verb, id));
    Request(verb, u.host, Substitute(lib, u.path, env), u.query,
            match verb
            case POST => Substitute(lib, a.payload, first)
            case PUT => Substitute(lib, a.payload, first)
            case PATCH => Substitute(lib, a.patchPayload, env)
            case _ => "")
  }

  // The requests of an action that begins in `w`.
  function RequestsAt<S>(lib: Library, a: Action, w: World<S>): Requests {
    (h, verb, id) => Rendered(lib, a, SeenAfter(lib, a, w, []).0, SeenAfter(lib, a, w, h).0, verb, id)
  }

  function Drive<S>(x: Ctx<S>, s: Strategy, a: Action, reqs: Requests, server: S, h: seq<Sent>): (S, Option<Error>)
    requires |h| <= 3
    decreases 3 - |h|
  {
    match Decide(x.lib, s, a, "", h)
    case Return(e) => (server, e)
    case Issue(verb, id) =>
      if !CanBuild(x, a, verb) then (server, Some(Plain(x.lib.unbuildable(Endpoint(a, GET, "")).value))) else
      var req := reqs(h, verb, id);
      var (server', reply) := x.serve(server, req);
      Drive(x, s, a, reqs, server', h + [Classify(a.name, req, reply)])
  }

  // The engine has come from `w0` to `w` with the results `h`.
  ghost predicate InTune<S>(lib: Library, a: Action, w0: World<S>, w: World<S>, h: seq<Sent>) {
    (Export(w.env, a.variables + w.runtime), w.runtime) == SeenAfter(lib, a, w0, h)
  }

  lemma DoInTune<S>(x: Ctx<S>, a: Action, w0: World<S>, w: World<S>, h: seq<Sent>, verb: Verb, id: string)
    requires InTune(x.lib, a, w0, w, h)
    requires CarriesPayload(verb) ==> w.payload == RequestsAt(x.lib, a, w0)(h, verb, id).body
    ensures var (w', r) := Do(x, a, w, verb, id);
            var req := RequestsAt(x.lib, a, w0)(h, verb, id);
            && w'.server == x.serve(w.server, req).0
            && r == Classify(a.name, req, x.serve(w.server, req).1)
            && w'.payload == w.payload
            && InTune(x.lib, a, w0, w', h + [r])
  {
    var (w', r) := Do(x, a, w, verb, id);
    assert (h + [r])[..|h|] == h;
    assert w'.env == SeenAfter(x.lib, a, w0, h).0;
    assert w'.runtime == CapturedBy(x.lib, a, w.runtime, r);
  }

  lemma RetemplateInTune<S>(lib: Library, a: Action, w0: World<S>, w: World<S>, h: seq<Sent>, text: string)
    requires InTune(lib, a, w0, w, h)
    ensures var w' := Retemplate(lib, w, text, a.variables);
            && InTune(lib, a, w0, w', h) && w'.server == w.server
            && w'.payload == Substitute(lib, text, SeenAfter(lib, a, w0, h).0)
  {
    ExportTwice(w.env, a.variables + w.runtime);
  }

  lemma SendInTune<S>(x: Ctx<S>, a: Action, w0: World<S>, w: World<S>, h: seq<Sent>, verb: Verb, id: string)
    requires InTune(x.lib, a, w0, w, h) && CanBuild(x, a, verb) && (verb.GET? ==> id == "")
    requires w.payload == Substitute(x.lib, a.payload, SeenAfter(x.lib, a, w0, []).0)
    ensures var (w', r) := Send(x, a, w, verb, id);
            var req := RequestsAt(x.lib, a, w0)(h, verb, id);
            && w'.server == x.serve(w.server, req).0
            && r == Classify(a.name, req, x.serve(w.server, req).1)
            && (verb.PATCH? || w'.payload == w.payload)
            && InTune(x.lib, a, w0, w', h + [r])
  {
    if verb.PATCH? {
      RetemplateInTune(x.lib, a, w0, w, h, a.patchPayload);
      DoInTune(x, a, w0, Retemplate(x.lib, w, a.patchPayload, a.variables), h, verb, id);
    } else {
      DoInTune(x, a, w0, w, h, verb, id);
    }
  }

  lemma NothingAfterPatch(lib: Library, s: Strategy, a: Action, id: string, h: seq<Sent>, r: Sent)
    requires Decide(lib, s, a, id, h).Issue? && Decide(lib, s, a, id, h).verb.PATCH?
    ensures Decide(lib, s, a, id, h + [r]) == Return(ErrorOf(r))
  {
    assert |h| == 1;
    assert (h + [r])[..1] == h && (h + [r])[1] == r;
  }

  lemma GetHasNoId(lib: Library, s: Strategy, a: Action, id: string, h: seq<Sent>)
    requires Decide(lib, s, a, id, h).Issue? && Decide(lib, s, a, id, h).verb.GET?
    ensures h == [] && Decide(lib, s, a, id, h).id == ""
  {
    if h != [] {
      OnlyTheFirstIsGet(lib, s, a, id, h);
    }
  }

  lemma UnbuildableSend<S>(x: Ctx<S>, s: Strategy, a: Action, w: World<S>, h: seq<Sent>)
    requires |h| < 3 && Decide(x.lib, s, a, "", h).Issue? && !CanBuild(x, a, Decide(x.lib, s, a, "", h).verb)
    ensures Play(x, s, a, "", w, h) == (w, Some(Plain(x.lib.unbuildable(Endpoint(a, GET, "")).value)))
  {
    GetHasNoId(x.lib, s, a, "", h);
    var r := Failed(Plain(x.lib.unbuildable(Endpoint(a, GET, "")).value));
    assert Send(x, a, w, GET, "") == (w, r);
    assert [] + [r] == [r];
    assert Decide(x.lib, s, a, "", [r]) == Return(Some(r.error));
  }

  lemma {:induction false} PlayIsDrive<S>(x: Ctx<S>, s: Strategy, a: Action, w0: World<S>, w: World<S>, h: seq<Sent>)
    requires |h| <= 3 && InTune(x.lib, a, w0, w, h)
    requires w.payload == Substitute(x.lib, a.payload, SeenAfter(x.lib, a, w0, []).0)
    ensures var (w', err) := Play(x, s, a, "", w, h);
            (w'.server, err) == Drive(x, s, a, RequestsAt(x.lib, a, w0), w.server, h)
    decreases 3 - |h|
  {
    match Decide(x.lib, s, a, "", h)
    case Return(_) =>
    case Issue(verb, id) =>
      if CanBuild(x, a, verb) {
        if verb.GET? {
          GetHasNoId(x.lib, s, a, "", h);
        }
        SendInTune(x, a, w0, w, h, verb, id);
        var (w', r) := Send(x, a, w, verb, id);
        if verb.PATCH? {
          NothingAfterPatch(x.lib, s, a, "", h, r);
        } else {
          PlayIsDrive(x, s, a, w0, w', h + [r]);
        }
      } else {
        UnbuildableSend(x, s, a, w, h);
      }
  }

  // An action's effect on the server and its errors are those of its strategy
  // against the server alone, with the requests that it has where it begins.
  lemma PerformIsDrive<S>(x: Ctx<S>, cm: Option<Manager>, s: Strategy, act: Action, w: World<S>)
    requires Registered(act.strategy) == Some(s)
    ensures var a := Effective(cm, act);
            var (w', raised) := Perform(x, cm, act, w);
            var (server', err) := Drive(x, s, a, RequestsAt(x.lib, a, w), w.server, []);
            w'.server == server' && raised == ReplaceErrors(cm, act) + AsList(err)
  {
    var a := Effective(cm, act);
    RetemplateInTune(x.lib, a, w, w, [], a.payload);
    PlayIsDrive(x, s, a, w, Retemplate(x.lib, w, a.payload, a.variables), []);
  }

  // ---- Names in templates ----

  ghost predicate MentionedIn(lib: Library, text: string, name: string) {
    lib.parse(text).Parts? && Variable(name) in lib.parse(text).parts
  }

  // The requests that a strategy can decide on. Only FIND strategies that change
  // what they find send an id.
  predicate MaySend(s: Strategy, verb: Verb, id: string) {
    match verb
    case GET => id == "" && !s.PutOnly? && !s.PostOnly? && !s.PutPost?
    case POST => id == "" && !s.PutOnly?
    case PUT => if id == "" then s.PutOnly? || s.PutPost? || s.GetPutPost? else s.FindPutPost?
    case PATCH => id != "" && s.FindPatchPost?
    case DELETE => id != "" && s.FindDeletePost?
  }

  // The ids that an action can find.
  type Finding = (Action, string) -> bool

  // The action can send this request, with an id that it can find.
  ghost predicate Sendable(ids: Finding, a: Action, verb: Verb, id: string) {
    && Registered(a.strategy).Some? && MaySend(Registered(a.strategy).value, verb, id)
    && (id != "" ==> ids(a, id))
  }

  // A text that the action can send mentions the name: a payload, or the path of
  // one of its requests, which may end in an id that it can find.
  ghost predicate Mentions(lib: Library, ids: Finding, a: Action, name: string) {
    || MentionedIn(lib, a.payload, name)
    || (Registered(a.strategy) == Some(FindPatchPost) && MentionedIn(lib, a.patchPayload, name))
    || exists verb, id :: Sendable(ids, a, verb, id) && MentionedIn(lib, lib.url(Endpoint(a, verb, id)).path, name)
  }

  // An id that is sent was found in what the GET returned.
  lemma IssuedId(lib: Library, s: Strategy, a: Action, h: seq<Sent>)
    requires Decide(lib, s, a, "", h).Issue?
    ensures var d := Decide(lib, s, a, "", h);
            && MaySend(s, d.verb, d.id)
            && (d.id != "" ==> |h| == 1 && h[0].Body? && d.id == FindPath(lib, h[0].text, a.findExpr).found)
  {
  }

  lemma SteadyRender(lib: Library, text: string, e1: Bindings, e2: Bindings)
    requires forall n: string :: MentionedIn(lib, text, n) ==> Value(e1, n) == Value(e2, n)
    ensures Substitute(lib, text, e1) == Substitute(lib, text, e2)
  {
    if lib.parse(text).Parts? {
      var parts := lib.parse(text).parts;
      forall i | 0 <= i < |parts| && parts[i].Variable? ensures Value(e1, parts[i].name) == Value(e2, parts[i].name) {
        assert parts[i] == Variable(parts[i].name) && MentionedIn(lib, text, parts[i].name);
      }
      RenderCongruence(parts, e1, e2);
    }
  }

  // ---- Templates that always read the same ----

  // Nothing that a template mentions is captured or bound by another action.
  ghost predicate Independent(lib: Library, ids: Finding, acts: set<Action>) {
    forall a, b, n: string :: a in acts && b in acts && Mentions(lib, ids, a, n) ==>
      && n !in b.captures
      && (n in a.variables ==> Settable(n, a.variables[n]))
      && (n !in a.variables ==> n !in b.variables)
  }

  // The names that templates mention still have the values they began with.
  ghost predicate Undisturbed<S>(lib: Library, ids: Finding, acts: set<Action>, init: Bindings, w: World<S>) {
    forall a, n: string :: a in acts && Mentions(lib, ids, a, n) ==>
      n !in w.runtime && (n !in a.variables ==> Value(w.env, n) == Value(init, n))
  }

  // The requests that an action makes whenever its templates read the same.
  function RequestsOf(lib: Library, a: Action, init: Bindings): Requests {
    (h, verb, id) => Rendered(lib, a, Export(init, a.variables), Export(init, a.variables), verb, id)
  }

  lemma StillUnread(lib: Library, a: Action, init: Bindings, env: Bindings, runtime: Bindings, n: string)
    requires n !in runtime && (n in a.variables ==> Settable(n, a.variables[n]))
    requires n !in a.variables ==> Value(env, n) == Value(init, n)
    ensures Value(Export(env, a.variables + runtime), n) == Value(Export(init, a.variables), n)
    ensures n !in a.variables ==> Value(Export(env, a.variables + runtime), n) == Value(init, n)
  {
  }

  lemma {:induction false} UndisturbedReading<S>(lib: Library, ids: Finding, acts: set<Action>, init: Bindings,
      a: Action, w: World<S>, h: seq<Sent>, n: string)
    requires Independent(lib, ids, acts) && Undisturbed(lib, ids, acts, init, w)
    requires a in acts && Mentions(lib, ids, a, n)
    ensures var (env, runtime) := SeenAfter(lib, a, w, h);
            && n !in runtime && Value(env, n) == Value(Export(init, a.variables), n)
            && (n !in a.variables ==> Value(env, n) == Value(init, n))
  {
    if h == [] {
      StillUnread(lib, a, init, w.env, w.runtime, n);
    } else {
      UndisturbedReading(lib, ids, acts, init, a, w, h[..|h| - 1], n);
      var (env, runtime) := SeenAfter(lib, a, w, h[..|h| - 1]);
      StillUnread(lib, a, init, env, CapturedBy(lib, a, runtime, h[|h| - 1]), n);
    }
  }

  lemma RenderedAlike(lib: Library, ids: Finding, a: Action, first1: Bindings, env1: Bindings, first2: Bindings,
      env2: Bindings, verb: Verb, id: string)
    requires Sendable(ids, a, verb, id)
    requires forall n: string :: Mentions(lib, ids, a, n) ==>
               Value(first1, n) == Value(first2, n) && Value(env1, n) == Value(env2, n)
    ensures Rendered(lib, a, first1, env1, verb, id) == Rendered(lib, a, first2, env2, verb, id)
  {
    SteadyRender(lib, lib.url(Endpoint(a, verb, id)).path, env1, env2);
    SteadyRender(lib, a.payload, first1, first2);
    if verb.PATCH? {
      SteadyRender(lib, a.patchPayload, env1, env2);
    }
  }

  // In an undisturbed world an action has the same requests as ever.
  lemma UndisturbedRequests<S>(lib: Library, ids: Finding, acts: set<Action>, init: Bindings, a: Action, w: World<S>,
      h: seq<Sent>, verb: Verb, id: string)
    requires Independent(lib, ids, acts) && Undisturbed(lib, ids, acts, init, w) && a in acts
    requires Sendable(ids, a, verb, id)
    ensures RequestsAt(lib, a, w)(h, verb, id) == RequestsOf(lib, a, init)(h, verb, id)
  {
    var first, env, fixed := SeenAfter(lib, a, w, []).0, SeenAfter(lib, a, w, h).0, Export(init, a.variables);
    forall n: string | Mentions(lib, ids, a, n)
      ensures Value(first, n) == Value(fixed, n) && Value(env, n) == Value(fixed, n)
    {
      UndisturbedReading(lib, ids, acts, init, a, w, [], n);
      UndisturbedReading(lib, ids, acts, init, a, w, h, n);
    }
    RenderedAlike(lib, ids, a, first, env, fixed, fixed, verb, id);
  }

  lemma TemplateDisturbsNothing<S>(lib: Library, ids: Finding, acts: set<Action>, init: Bindings, a: Action,
      w: World<S>, text: string)
    requires Independent(lib, ids, acts) && Undisturbed(lib, ids, acts, init, w) && a in acts
    ensures Undisturbed(lib, ids, acts, init, TemplateWithVars(lib, w, text, a.variables).0)
    ensures Undisturbed(lib, ids, acts, init, Retemplate(lib, w, text, a.variables))
  {
    var w1, w2 := TemplateWithVars(lib, w, text, a.variables).0, Retemplate(lib, w, text, a.variables);
    forall b, n: string | b in acts && Mentions(lib, ids, b, n)
      ensures n !in w1.runtime && (n !in b.variables ==> Value(w1.env, n) == Value(init, n))
      ensures n !in w2.runtime && (n !in b.variables ==> Value(w2.env, n) == Value(init, n))
    {
      assert n !in w.runtime && (n !in b.variables ==> n !in a.variables);
    }
  }

  lemma DoDisturbsNothing<S>(x: Ctx<S>, ids: Finding, acts: set<Action>, init: Bindings, a: Action, w: World<S>,
      verb: Verb, id: string)
    requires Independent(x.lib, ids, acts) && Undisturbed(x.lib, ids, acts, init, w) && a in acts
    ensures Undisturbed(x.lib, ids, acts, init, Do(x, a, w, verb, id).0)
  {
    var path := x.lib.url(Endpoint(a, verb, id)).path;
    TemplateDisturbsNothing(x.lib, ids, acts, init, a, w, path);
    var w1 := TemplateWithVars(x.lib, w, path, a.variables).0;
    var w' := Do(x, a, w, verb, id).0;
    forall b, n: string | b in acts && Mentions(x.lib, ids, b, n)
      ensures n !in w'.runtime && (n !in b.variables ==> Value(w'.env, n) == Value(init, n))
    {
      assert n !in w1.runtime && n !in a.captures;
    }
  }

  lemma SendDisturbsNothing<S>(x: Ctx<S>, ids: Finding, acts: set<Action>, init: Bindings, a: Action, w: World<S>,
      verb: Verb, id: string)
    requires Independent(x.lib, ids, acts) && Undisturbed(x.lib, ids, acts, init, w) && a in acts
    ensures Undisturbed(x.lib, ids, acts, init, Send(x, a, w, verb, id).0)
  {
    if verb.PATCH? {
      TemplateDisturbsNothing(x.lib, ids, acts, init, a, w, a.patchPayload);
      DoDisturbsNothing(x, ids, acts, init, a, Retemplate(x.lib, w, a.patchPayload, a.variables), verb, id);
    } else {
      DoDisturbsNothing(x, ids, acts, init, a, w, verb, id);
    }
  }

  lemma {:induction false} PlayDisturbsNothing<S>(x: Ctx<S>, ids: Finding, acts: set<Action>, init: Bindings,
      s: Strategy, a: Action, w: World<S>, h: seq<Sent>)
    requires |h| <= 3 && a in acts && Independent(x.lib, ids, acts) && Undisturbed(x.lib, ids, acts, init, w)
    ensures Undisturbed(x.lib, ids, acts, init, Play(x, s, a, "", w, h).0)
    decreases 3 - |h|
  {
    match Decide(x.lib, s, a, "", h)
    case Return(_) =>
    case Issue(verb, id) =>
      SendDisturbsNothing(x, ids, acts, init, a, w, verb, id);
      var (w', r) := Send(x, a, w, verb, id);
      PlayDisturbsNothing(x, ids, acts, init, s, a, w', h + [r]);
  }

  lemma PerformDisturbsNothing<S>(x: Ctx<S>, cm: Option<Manager>, ids: Finding, acts: set<Action>, init: Bindings,
      act: Action, w: World<S>)
    requires Effective(cm, act) in acts && Independent(x.lib, ids, acts) && Undisturbed(x.lib, ids, acts, init, w)
    ensures Undisturbed(x.lib, ids, acts, init, Perform(x, cm, act, w).0)
  {
    if Known(act) {
      var a := Effective(cm, act);
      TemplateDisturbsNothing(x.lib, ids, acts, init, a, w, a.payload);
      PlayDisturbsNothing(x, ids, acts, init, Registered(act.strategy).value, a,
          Retemplate(x.lib, w, a.payload, a.variables), []);
    }
  }

  // ---- Captured names in templates ----

  // What a name would read like in a template of the action.
  function Reading<S>(a: Action, w: World<S>, name: string): string {
    Value(Export(w.env, a.variables + w.runtime), name)
  }

  // The names that the action mentions read the same in both worlds.
  ghost predicate ReadAlike<S>(lib: Library, ids: Finding, a: Action, w1: World<S>, w2: World<S>) {
    forall n: string :: Mentions(lib, ids, a, n) ==> Reading(a, w1, n) == Reading(a, w2, n)
  }

  // The same requests and replies since the logs had `n1` and `n2` entries.
  ghost predicate Level<S(!new)>(n1: nat, n2: nat, w1: World<S>, w2: World<S>) {
    && n1 <= |w1.log| && n2 <= |w2.log| && w1.log[n1..] == w2.log[n2..]
    && w1.server == w2.server
  }

  lemma ReadingAfterTemplate<S>(lib: Library, a: Action, w: World<S>, text: string, n: string)
    ensures var u := TemplateWithVars(lib, w, text, a.variables).0;
            Value(u.env, n) == Reading(a, u, n) == Reading(a, w, n)
  {
    ExportTwice(w.env, a.variables + w.runtime);
  }

  lemma TemplatesReadAlike<S(!new)>(lib: Library, ids: Finding, a: Action, w1: World<S>, w2: World<S>, text: string)
    requires ReadAlike(lib, ids, a, w1, w2)
    requires forall n: string :: MentionedIn(lib, text, n) ==> Mentions(lib, ids, a, n)
    ensures var (u1, out1) := TemplateWithVars(lib, w1, text, a.variables);
            var (u2, out2) := TemplateWithVars(lib, w2, text, a.variables);
            out1 == out2 && ReadAlike(lib, ids, a, u1, u2)
  {
    var u1 := TemplateWithVars(lib, w1, text, a.variables).0;
    var u2 := TemplateWithVars(lib, w2, text, a.variables).0;
    forall n: string | Mentions(lib, ids, a, n)
      ensures Reading(a, u1, n) == Reading(a, u2, n) && Value(u1.env, n) == Value(u2.env, n)
    {
      ReadingAfterTemplate(lib, a, w1, text, n);
      ReadingAfterTemplate(lib, a, w2, text, n);
    }
    SteadyRender(lib, text, u1.env, u2.env);
  }

  // What a name reads like after some names have been captured.
  lemma ReadingAfterCapture(vars: Bindings, env: Bindings, runtime: Bindings, captured: Bindings, n: string)
    ensures Value(Export(Export(env, vars + runtime), vars + (runtime + captured)), n)
         == if n in captured && Settable(n, captured[n]) then captured[n] else Value(Export(env, vars + runtime), n)
  {
    var v, v' := vars + runtime, vars + (runtime + captured);
    if n !in captured {
      assert (n in v <==> n in v') && (n in v ==> v[n] == v'[n]);
    }
  }

  // What the action has captured from the last reply.
  function LastCaptured(lib: Library, a: Action, reply: Reply): Bindings {
    if Succeeded(reply) then Capture(lib, map[], reply.body, a.captures) else map[]
  }

  lemma CaptureAdds(lib: Library, runtime: Bindings, doc: string, declared: Bindings)
    ensures Capture(lib, runtime, doc, declared) == runtime + Capture(lib, map[], doc, declared)
  {
    var found := map k | k in declared && FindPath(lib, doc, declared[k]).found != "" ::
        FindPath(lib, doc, declared[k]).found;
    assert Capture(lib, map[], doc, declared) == map[] + found == found;
  }

  lemma DoCaptures<S>(x: Ctx<S>, a: Action, w: World<S>, verb: Verb, id: string)
    ensures var u := Do(x, a, w, verb, id).0;
            && |u.log| > |w.log|
            && u.env == TemplateWithVars(x.lib, w, x.lib.url(Endpoint(a, verb, id)).path, a.variables).0.env
            && u.runtime == w.runtime + LastCaptured(x.lib, a, u.log[|w.log|].reply)
  {
    var (w1, path) := TemplateWithVars(x.lib, w, x.lib.url(Endpoint(a, verb, id)).path, a.variables);
    var u := Do(x, a, w, verb, id).0;
    var e := u.log[|w.log|];
    assert u.log == w1.log + [e];
    if Succeeded(e.reply) {
      assert u.runtime == Capture(x.lib, w1.runtime, e.reply.body, a.captures);
      CaptureAdds(x.lib, w.runtime, e.reply.body, a.captures);
    } else {
      assert u.runtime == w.runtime;
    }
  }

  lemma ReadingAfterDo<S>(x: Ctx<S>, a: Action, w: World<S>, verb: Verb, id: string, n: string)
    ensures var u := Do(x, a, w, verb, id).0;
            && |u.log| > |w.log|
            && (var captured := LastCaptured(x.lib, a, u.log[|w.log|].reply);
                Reading(a, u, n) == if n in captured && Settable(n, captured[n]) then captured[n] else Reading(a, w, n))
  {
    DoCaptures(x, a, w, verb, id);
    var u := Do(x, a, w, verb, id).0;
    ReadingAfterCapture(a.variables, w.env, w.runtime, LastCaptured(x.lib, a, u.log[|w.log|].reply), n);
  }

  lemma DoIsAlike<S(!new)>(x: Ctx<S>, ids: Finding, a: Action, n1: nat, n2: nat, w1: World<S>, w2: World<S>, verb: Verb,
      id: string)
    requires Level(n1, n2, w1, w2) && ReadAlike(x.lib, ids, a, w1, w2) && w1.payload == w2.payload
    requires Sendable(ids, a, verb, id)
    ensures var (u1, r1) := Do(x, a, w1, verb, id);
            var (u2, r2) := Do(x, a, w2, verb, id);
            && Level(n1, n2, u1, u2) && r1 == r2 && u1.payload == u2.payload
            && u1.log[|w1.log|] == u2.log[|w2.log|]
  {
    TemplatesReadAlike(x.lib, ids, a, w1, w2, x.lib.url(Endpoint(a, verb, id)).path);
    var u1, u2 := Do(x, a, w1, verb, id).0, Do(x, a, w2, verb, id).0;
    var e := u1.log[|w1.log|];
    assert u1.log == w1.log + [e] && u2.log == w2.log + [e];
    assert u1.log[n1..] == w1.log[n1..] + [e] && u2.log[n2..] == w2.log[n2..] + [e];
  }

  lemma DoReadsAlike<S(!new)>(x: Ctx<S>, ids: Finding, a: Action, n1: nat, n2: nat, w1: World<S>, w2: World<S>,
      verb: Verb, id: string)
    requires Level(n1, n2, w1, w2) && ReadAlike(x.lib, ids, a, w1, w2) && w1.payload == w2.payload
    requires Sendable(ids, a, verb, id)
    ensures var (u1, r1) := Do(x, a, w1, verb, id);
            var (u2, r2) := Do(x, a, w2, verb, id);
            Level(n1, n2, u1, u2) && r1 == r2 && ReadAlike(x.lib, ids, a, u1, u2) && u1.payload == u2.payload
  {
    DoIsAlike(x, ids, a, n1, n2, w1, w2, verb, id);
    var u1, u2 := Do(x, a, w1, verb, id).0, Do(x, a, w2, verb, id).0;
    forall n: string | Mentions(x.lib, ids, a, n) ensures Reading(a, u1, n) == Reading(a, u2, n) {
      ReadingAfterDo(x, a, w1, verb, id, n);
      ReadingAfterDo(x, a, w2, verb, id, n);
    }
  }

  lemma RetemplateReadsAlike<S(!new)>(lib: Library, ids: Finding, a: Action, n1: nat, n2: nat, w1: World<S>,
      w2: World<S>, text: string)
    requires Level(n1, n2, w1, w2) && ReadAlike(lib, ids, a, w1, w2)
    requires forall n: string :: MentionedIn(lib, text, n) ==> Mentions(lib, ids, a, n)
    ensures var u1 := Retemplate(lib, w1, text, a.variables);
            var u2 := Retemplate(lib, w2, text, a.variables);
            Level(n1, n2, u1, u2) && ReadAlike(lib, ids, a, u1, u2) && u1.payload == u2.payload
  {
    TemplatesReadAlike(lib, ids, a, w1, w2, text);
    var t1, t2 := TemplateWithVars(lib, w1, text, a.variables).0, TemplateWithVars(lib, w2, text, a.variables).0;
    var u1, u2 := Retemplate(lib, w1, text, a.variables), Retemplate(lib, w2, text, a.variables);
    forall n: string | Mentions(lib, ids, a, n) ensures Reading(a, u1, n) == Reading(a, u2, n) {
      assert Reading(a, t1, n) == Reading(a, t2, n);
    }
  }

  lemma SendReadsAlike<S(!new)>(x: Ctx<S>, ids: Finding, a: Action, n1: nat, n2: nat, w1: World<S>, w2: World<S>,
      verb: Verb, id: string)
    requires Level(n1, n2, w1, w2) && ReadAlike(x.lib, ids, a, w1, w2) && w1.payload == w2.payload
    requires Sendable(ids, a, verb, id)
    ensures var (u1, r1) := Send(x, a, w1, verb, id);
            var (u2, r2) := Send(x, a, w2, verb, id);
            Level(n1, n2, u1, u2) && r1 == r2 && ReadAlike(x.lib, ids, a, u1, u2) && u1.payload == u2.payload
  {
    if verb.PATCH? {
      RetemplateReadsAlike(x.lib, ids, a, n1, n2, w1, w2, a.patchPayload);
      DoReadsAlike(x, ids, a, n1, n2, Retemplate(x.lib, w1, a.patchPayload, a.variables),
          Retemplate(x.lib, w2, a.patchPayload, a.variables), verb, id);
    } else {
      DoReadsAlike(x, ids, a, n1, n2, w1, w2, verb, id);
    }
  }

  // What the action finds in a result is one of its ids.
  ghost predicate Yields(lib: Library, ids: Finding, a: Action, r: Sent) {
    r.Body? && FindPath(lib, r.text, a.findExpr).found != "" ==> ids(a, FindPath(lib, r.text, a.findExpr).found)
  }

  lemma {:induction false} PlayReadsAlike<S(!new)>(x: Ctx<S>, ids: Finding, s: Strategy, a: Action, n1: nat, n2: nat,
      w1: World<S>, w2: World<S>, h: seq<Sent>)
    requires |h| <= 3 && Level(n1, n2, w1, w2) && ReadAlike(x.lib, ids, a, w1, w2) && w1.payload == w2.payload
    requires Registered(a.strategy) == Some(s)
    requires Finds(s) ==> Yields(x.lib, ids, a, if h == [] then Send(x, a, w1, GET, "").1 else h[0])
    ensures var (u1, err1) := Play(x, s, a, "", w1, h);
            var (u2, err2) := Play(x, s, a, "", w2, h);
            Level(n1, n2, u1, u2) && err1 == err2 && ReadAlike(x.lib, ids, a, u1, u2)
    decreases 3 - |h|
  {
    match Decide(x.lib, s, a, "", h)
    case Return(_) =>
    case Issue(verb, i) =>
      IssuedId(x.lib, s, a, h);
      SendReadsAlike(x, ids, a, n1, n2, w1, w2, verb, i);
      var (u1, r) := Send(x, a, w1, verb, i);
      PlayReadsAlike(x, ids, s, a, n1, n2, u1, Send(x, a, w2, verb, i).0, h + [r]);
  }

  // What the action's GET leads it to, as the server stands; nothing for an
  // action that looks for nothing.
  function FoundAt<S>(x: Ctx<S>, a: Action, w: World<S>): string {
    var reply := x.serve(w.server, RequestsAt(x.lib, a, w)([], GET, "")).1;
    if Succeeded(reply) then FindPath(x.lib, reply.body, a.findExpr).found else ""
  }

  lemma GetFinds<S(!new)>(x: Ctx<S>, ids: Finding, a: Action, w: World<S>)
    requires FoundAt(x, a, w) != "" ==> ids(a, FoundAt(x, a, w))
    ensures Yields(x.lib, ids, a, Send(x, a, Retemplate(x.lib, w, a.payload, a.variables), GET, "").1)
  {
    if CanBuild(x, a, GET) {
      RetemplateInTune(x.lib, a, w, w, [], a.payload);
      SendInTune(x, a, w, Retemplate(x.lib, w, a.payload, a.variables), [], GET, "");
    }
  }

  // Whatever its templates mention, and whatever it captures itself in between:
  // an action's requests, its effect on the server and its result depend on what
  // ran before only through what the names read like at its beginning that its
  // texts mention, among them the path with the id that it is about to find.
  lemma ReadingsDecide<S(!new)>(x: Ctx<S>, cm: Option<Manager>, ids: Finding, act: Action, w1: World<S>, w2: World<S>)
    requires w1.server == w2.server && ReadAlike(x.lib, ids, Effective(cm, act), w1, w2)
    requires var a := Effective(cm, act); FoundAt(x, a, w1) != "" ==> ids(a, FoundAt(x, a, w1))
    ensures var (u1, raised1) := Perform(x, cm, act, w1);
            var (u2, raised2) := Perform(x, cm, act, w2);
            raised1 == raised2 && Level(|w1.log|, |w2.log|, u1, u2) && ReadAlike(x.lib, ids, Effective(cm, act), u1, u2)
  {
    if Known(act) {
      var a := Effective(cm, act);
      GetFinds(x, ids, a, w1);
      RetemplateReadsAlike(x.lib, ids, a, |w1.log|, |w2.log|, w1, w2, a.payload);
      PlayReadsAlike(x, ids, Registered(act.strategy).value, a, |w1.log|, |w2.log|,
          Retemplate(x.lib, w1, a.payload, a.variables), Retemplate(x.lib, w2, a.payload, a.variables), []);
    }
  }
}

// Which request follows which answer, strategy by strategy and in the numerals
// of the source (seeder/seederstrategies.go, seeder/rest.go `do`). Everything
// here is about the exchanges of RunStrategy with an arbitrary server.
module Answers {
  import opened Wire
  import opened Text
  import opened Engine
  import opened Runs
  import opened Traces

  // One or more exchanges after which the strategy returned `err`.
  ghost predicate Over(lib: Library, s: Strategy, a: Action, id: string, t: seq<Exchange>, h: seq<Sent>,
      err: Option<Error>) {
    Follows(lib, s, a, id, t, h) && Decide(lib, s, a, id, h) == Return(err)
  }

  lemma Results(lib: Library, s: Strategy, a: Action, id: string, t: seq<Exchange>, h: seq<Sent>, err: Option<Error>)
    requires Over(lib, s, a, id, t, h, err)
    ensures 1 <= |t| == |h| <= 3
    ensures h[0] == Classify(a.name, t[0].request, t[0].reply)
    ensures Decide(lib, s, a, id, []).Issue? && Decide(lib, s, a, id, []).verb == t[0].request.verb
    ensures |h| == 1 ==> h == [h[0]] && Verbs(t) == [t[0].request.verb]
    ensures |h| >= 2 ==> Decide(lib, s, a, id, [h[0]]).Issue?
    ensures |h| >= 2 ==> Decide(lib, s, a, id, [h[0]]).verb == t[1].request.verb
    ensures |h| >= 2 ==> h[1] == Classify(a.name, t[1].request, t[1].reply)
    ensures |h| == 2 ==> h == [h[0], h[1]] && Verbs(t) == [t[0].request.verb, t[1].request.verb]
    ensures |h| == 3 ==> Decide(lib, s, a, id, [h[0], h[1]]).Issue?
    ensures |h| == 3 ==> Decide(lib, s, a, id, [h[0], h[1]]).verb == t[2].request.verb
    ensures |h| == 3 ==> h[2] == Classify(a.name, t[2].request, t[2].reply)
    ensures |h| == 3 ==> Verbs(t) == [t[0].request.verb, t[1].request.verb, t[2].request.verb]
    ensures |h| >= 2 ==> [h[0], h[1]][..1] == [h[0]]
  {
    AtMostThree(lib, s, a, id, t, h);
    assert h != [];
    assert h[..0] == [];
    if |h| == 1 {
      assert h == [h[0]] && Verbs(t) == [t[0].request.verb];
    } else {
      assert h[..1] == [h[0]];
      assert Decide(lib, s, a, id, h[..1]).Issue?;
      if |h| == 2 {
        assert h == [h[0], h[1]] && Verbs(t) == [t[0].request.verb, t[1].request.verb];
      } else {
        assert h[..2] == [h[0], h[1]];
        assert Decide(lib, s, a, id, h[..2]).Issue?;
        assert Verbs(t) == [t[0].request.verb, t[1].request.verb, t[2].request.verb];
      }
    }
  }

  // The exchanges of an action are over in this sense, unless its GET cannot be
  // built: then there are none.
  lemma Ends<S>(x: Ctx<S>, s: Strategy, a: Action, id: string, w: World<S>) returns (h: seq<Sent>)
    ensures var (w', err) := RunStrategy(x, s, a, id, w);
            && w.log <= w'.log
            && var t := Trace(w, w');
            if Decide(x.lib, s, a, id, []).verb.GET? && !CanBuild(x, a, GET) then
              t == [] && err == Some(Plain(x.lib.unbuildable(Endpoint(a, GET, "")).value))
            else
              Over(x.lib, s, a, id, t, h, err)
  {
    var w0 := Retemplate(x.lib, w, a.payload, a.variables);
    if CanBuild(x, a, Decide(x.lib, s, a, id, []).verb) {
      ExportTwice(w.env, a.variables + w.runtime);
      var t;
      t, h := Transcript(x, s, a, id, w, w0, [], []);
      assert Trace(w, RunStrategy(x, s, a, id, w).0) == t;
    } else {
      h := [];
      UnbuildableGet(x, s, a, id, w);
    }
  }

  // ---- Which word is spoken ----

  // No request is made when the GET that it would begin with cannot be built.
  lemma NothingIsSent<S>(x: Ctx<S>, s: Strategy, a: Action, id: string, w: World<S>)
    ensures var (w', err) := RunStrategy(x, s, a, id, w);
            && w.log <= w'.log
            && var why := x.lib.unbuildable(if a.getSuffix.Some? then a.endpoint + a.getSuffix.value else a.endpoint);
            && (Trace(w, w') == [] <==> s !in {PutOnly, PostOnly, PutPost} && why.Some?)
            && (Trace(w, w') == [] ==> err == Some(Plain(why.value)))
  {
    var h := Ends(x, s, a, id, w);
    assert a.endpoint + "" == a.endpoint;
    assert Endpoint(a, GET, "") == if a.getSuffix.Some? then a.endpoint + a.getSuffix.value else a.endpoint;
  }

  // PUT and POST make their one request.
  lemma OneRequest<S>(x: Ctx<S>, a: Action, id: string, w: World<S>)
    ensures var w' := RunStrategy(x, PutOnly, a, id, w).0;
            w.log <= w'.log && Verbs(Trace(w, w')) == [PUT]
    ensures var w' := RunStrategy(x, PostOnly, a, id, w).0;
            w.log <= w'.log && Verbs(Trace(w, w')) == [POST]
  {
    forall s | s == PutOnly || s == PostOnly
      ensures var w' := RunStrategy(x, s, a, id, w).0;
              w.log <= w'.log && Verbs(Trace(w, w')) == [if s.PutOnly? then PUT else POST]
    {
      var h := Ends(x, s, a, id, w);
      var (w', err) := RunStrategy(x, s, a, id, w);
      Results(x.lib, s, a, id, Trace(w, w'), h, err);
    }
  }

  // PUT/POST posts exactly after a 3xx or 4xx.
  lemma WhenPutPostPosts<S>(x: Ctx<S>, a: Action, id: string, w: World<S>)
    ensures var w' := RunStrategy(x, PutPost, a, id, w).0;
            && w.log <= w'.log
            && var t := Trace(w, w');
            && t != []
            && var r := t[0].reply;
            Verbs(t) == if r.Answer? && 300 <= r.status <= 499 then [PUT, POST] else [PUT]
  {
    var h := Ends(x, PutPost, a, id, w);
    var (w', err) := RunStrategy(x, PutPost, a, id, w);
    Results(x.lib, PutPost, a, id, Trace(w, w'), h, err);
  }

  // GET/POST posts exactly when its GET is answered well and with nothing.
  lemma WhenGetPostPosts<S>(x: Ctx<S>, a: Action, id: string, w: World<S>)
    ensures var w' := RunStrategy(x, GetPost, a, id, w).0;
            && w.log <= w'.log
            && var t := Trace(w, w');
            t != [] ==>
              var r := t[0].reply;
              Verbs(t) == if r.Answer? && r.status <= 299 && r.body == "" then [GET, POST] else [GET]
  {
    var h := Ends(x, GetPost, a, id, w);
    var (w', err) := RunStrategy(x, GetPost, a, id, w);
    if Trace(w, w') != [] {
      Results(x.lib, GetPost, a, id, Trace(w, w'), h, err);
    }
  }

  // GET/PUT/POST posts after a 3xx, a 4xx or an empty body, and puts after any
  // other good answer.
  lemma WhenGetPutPostWrites<S>(x: Ctx<S>, a: Action, id: string, w: World<S>)
    ensures var w' := RunStrategy(x, GetPutPost, a, id, w).0;
            && w.log <= w'.log
            && var t := Trace(w, w');
            t != [] ==>
              var r := t[0].reply;
              Verbs(t) ==
                if !r.Answer? || r.status >= 500 then [GET]
                else if r.status >= 300 || r.body == "" then [GET, POST]
                else [GET, PUT]
  {
    var h := Ends(x, GetPutPost, a, id, w);
    var (w', err) := RunStrategy(x, GetPutPost, a, id, w);
    if Trace(w, w') != [] {
      Results(x.lib, GetPutPost, a, id, Trace(w, w'), h, err);
    }
  }

  // FIND/POST posts unless the lookup fails, or finds something that a POST is
  // not meant to overwrite.
  lemma WhenFindPostPosts<S>(x: Ctx<S>, a: Action, id: string, w: World<S>)
    ensures var w' := RunStrategy(x, FindPost, a, id, w).0;
            && w.log <= w'.log
            && var t := Trace(w, w');
            t != [] ==>
              var r := t[0].reply;
              Verbs(t) ==
                if !r.Answer? || r.status >= 300 then [GET]
                else
                  var f := FindPath(x.lib, r.body, a.findExpr);
                  if f.err.None? && (f.found == "" || a.postIsPut) then [GET, POST] else [GET]
  {
    var h := Ends(x, FindPost, a, id, w);
    var (w', err) := RunStrategy(x, FindPost, a, id, w);
    if Trace(w, w') != [] {
      Results(x.lib, FindPost, a, id, Trace(w, w'), h, err);
    }
  }

  // FIND/PUT/POST and FIND/PATCH/POST change what is found and post if nothing is.
  lemma WhenFindersWrite<S>(x: Ctx<S>, s: Strategy, a: Action, id: string, w: World<S>)
    requires s == FindPutPost || s == FindPatchPost
    ensures var w' := RunStrategy(x, s, a, id, w).0;
            && w.log <= w'.log
            && var t := Trace(w, w');
            t != [] ==>
              var r := t[0].reply;
              Verbs(t) ==
                if !r.Answer? || r.status >= 300 then [GET]
                else
                  var f := FindPath(x.lib, r.body, a.findExpr);
                  if f.err.Some? then [GET]
                  else if f.found == "" then [GET, POST]
                  else if s == FindPutPost then [GET, PUT]
                  else [GET, PATCH]
  {
    var h := Ends(x, s, a, id, w);
    var (w', err) := RunStrategy(x, s, a, id, w);
    if Trace(w, w') != [] {
      Results(x.lib, s, a, id, Trace(w, w'), h, err);
    }
  }

  lemma FirstOfFindDeletePost(lib: Library, a: Action, id: string, req: Request, r: Reply)
    ensures var d := Decide(lib, FindDeletePost, a, id, [Classify(a.name, req, r)]);
            if !r.Answer? || r.status >= 500 then d.Return?
            else if r.status >= 300 then if a.findExpr == "" then d == Issue(POST, "") else d.Return?
            else
              var f := FindPath(lib, r.body, a.findExpr);
              if f.err.Some? then d.Return?
              else d == if f.found == "" then Issue(POST, "") else Issue(DELETE, f.found)
  {
  }

  lemma SecondOfFindDeletePost(lib: Library, a: Action, id: string, h: seq<Sent>)
    requires |h| == 2 && Decide(lib, FindDeletePost, a, id, h[..1]).Issue?
    ensures var first := Decide(lib, FindDeletePost, a, id, h[..1]);
            var d := Decide(lib, FindDeletePost, a, id, h);
            if first.verb.DELETE? && h[1].Body? then d == Issue(POST, "") else d.Return?
  {
  }

  // FIND/DELETE/POST takes a 3xx or 4xx for an empty document, in which only the
  // empty expression finds (nothing). It posts if nothing is found, and after a
  // DELETE that is answered well.
  lemma WhenFindDeletePostWrites<S>(x: Ctx<S>, a: Action, id: string, w: World<S>)
    ensures var w' := RunStrategy(x, FindDeletePost, a, id, w).0;
            && w.log <= w'.log
            && var t := Trace(w, w');
            t != [] ==>
              var r := t[0].reply;
              Verbs(t) ==
                if !r.Answer? || r.status >= 500 then [GET]
                else if r.status >= 300 then if a.findExpr == "" then [GET, POST] else [GET]
                else
                  var f := FindPath(x.lib, r.body, a.findExpr);
                  if f.err.Some? then [GET]
                  else if f.found == "" then [GET, POST]
                  else if |t| >= 2 && t[1].reply.Answer? && t[1].reply.status <= 299 then [GET, DELETE, POST]
                  else [GET, DELETE]
  {
    var h := Ends(x, FindDeletePost, a, id, w);
    var (w', err) := RunStrategy(x, FindDeletePost, a, id, w);
    var t := Trace(w, w');
    if t != [] {
      Results(x.lib, FindDeletePost, a, id, t, h, err);
      FirstOfFindDeletePost(x.lib, a, id, t[0].request, t[0].reply);
      if |t| >= 2 {
        SecondOfFindDeletePost(x.lib, a, id, [h[0], h[1]]);
      }
    }
  }

  // ---- Which error is returned ----

  // The error of the last answer, in the numerals of the source.
  ghost predicate IsErrorOf(e: Error, name: string, last: Exchange) {
    && e.Diagnosed?
    && e.d.name == name && e.d.request == last.request
    && match last.reply
       case NetworkFailure(m) =>
         e.d.status == 999 && e.d.message == "failed to make network call: " + m && e.d.isFatal && !e.d.proceedFallback
       case UnreadableBody(status) =>
         e.d.status == status && e.d.message == "unable to read the body" && e.d.isFatal && !e.d.proceedFallback
       case Answer(status, body) =>
         && status >= 300 && e.d.status == status && e.d.message == body
         && !e.d.isFatal && (e.d.proceedFallback <==> status <= 499)
  }

  // A lookup that failed: that of the GET's body, or of nothing if the strategy
  // let a refusal pass.
  ghost predicate IsErrorOfLookup(lib: Library, s: Strategy, a: Action, t: seq<Exchange>, err: Option<Error>) {
    && |t| == 1 && s in {FindPost, FindPutPost, FindPatchPost, FindDeletePost}
    && var r := t[0].reply;
    && r.Answer? && r.status <= (if s == FindDeletePost then 499 else 299)
    && err.Some? && err == FindPath(lib, if r.status <= 299 then r.body else "", a.findExpr).err
  }

  // No request follows an answer of 500 or more, nor one of 300 or more that is
  // not the first.
  ghost predicate StopsAtErrors(t: seq<Exchange>) {
    forall i :: 0 <= i < |t| - 1 ==> t[i].reply.Answer? && t[i].reply.status <= (if i == 0 then 499 else 299)
  }

  lemma StopsOver(lib: Library, s: Strategy, a: Action, id: string, t: seq<Exchange>, h: seq<Sent>, err: Option<Error>)
    requires Over(lib, s, a, id, t, h, err)
    ensures StopsAtErrors(t)
  {
    Results(lib, s, a, id, t, h, err);
  }

  lemma ReturnedOver(lib: Library, s: Strategy, a: Action, id: string, t: seq<Exchange>, h: seq<Sent>,
      err: Option<Error>)
    requires Over(lib, s, a, id, t, h, err)
    ensures t != [] && |t| == |h|
    ensures h[|h| - 1] == Classify(a.name, t[|t| - 1].request, t[|t| - 1].reply)
    ensures err == ErrorOf(h[|h| - 1]) || IsErrorOfLookup(lib, s, a, t, err)
  {
    Results(lib, s, a, id, t, h, err);
  }

  lemma ErrorFacts(name: string, e: Exchange)
    ensures match Classify(name, e.request, e.reply)
            case Body(text) => e.reply.Answer? && e.reply.status <= 299 && text == e.reply.body
            case Failed(error) => IsErrorOf(error, name, e)
  {
  }

  // A strategy ends well only with a last answer below 300. Otherwise its error
  // tells of the last answer or of the lookup.
  ghost predicate HasOutcome(lib: Library, s: Strategy, a: Action, t: seq<Exchange>, err: Option<Error>) {
    && StopsAtErrors(t)
    && (err.None? ==> t != [] && t[|t| - 1].reply.Answer? && t[|t| - 1].reply.status <= 299)
    && (err.Some? && t != [] ==> IsErrorOf(err.value, a.name, t[|t| - 1]) || IsErrorOfLookup(lib, s, a, t, err))
  }

  lemma OutcomeOver(lib: Library, s: Strategy, a: Action, id: string, t: seq<Exchange>, h: seq<Sent>,
      err: Option<Error>)
    requires Over(lib, s, a, id, t, h, err)
    ensures HasOutcome(lib, s, a, t, err)
  {
    StopsOver(lib, s, a, id, t, h, err);
    ReturnedOver(lib, s, a, id, t, h, err);
    ErrorFacts(a.name, t[|h| - 1]);
  }

  lemma OutcomeOfAnAction<S>(x: Ctx<S>, s: Strategy, a: Action, id: string, w: World<S>)
    ensures var (w', err) := RunStrategy(x, s, a, id, w);
            w.log <= w'.log && HasOutcome(x.lib, s, a, Trace(w, w'), err)
  {
    var h := Ends(x, s, a, id, w);
    var (w', err) := RunStrategy(x, s, a, id, w);
    if Over(x.lib, s, a, id, Trace(w, w'), h, err) {
      OutcomeOver(x.lib, s, a, id, Trace(w, w'), h, err);
    }
  }

  // ---- What is sent ----

  // The nine names that seeder.New registers, and no other.
  lemma RegisteredNames(name: string)
    ensures Registered(name) ==
              if name == "PUT" then Some(PutOnly)
              else if name == "POST" then Some(PostOnly)
              else if name == "PUT/POST" then Some(PutPost)
              else if name == "GET/POST" then Some(GetPost)
              else if name == "GET/PUT/POST" then Some(GetPutPost)
              else if name == "FIND/POST" then Some(FindPost)
              else if name == "FIND/PUT/POST" then Some(FindPutPost)
              else if name == "FIND/PATCH/POST" then Some(FindPatchPost)
              else if name == "FIND/DELETE/POST" then Some(FindDeletePost)
              else None
  {
    assert forall i :: 0 <= i <= |REGISTRY| ==>
      Lookup(REGISTRY[i..], name) ==
        if i == |REGISTRY| then None
        else if REGISTRY[i].0 == name then Some(REGISTRY[i].1) else Lookup(REGISTRY[i..][1..], name);
    assert forall i :: 0 <= i < |REGISTRY| ==> REGISTRY[i..][1..] == REGISTRY[i + 1..];
    assert REGISTRY[0..] == REGISTRY;
  }

  // What the config manager has made of an action's templates and variables.
  ghost predicate Replaces(cm: Option<Manager>, act: Action, payload: string, patch: string, vars: Bindings) {
    if cm.Some? && cm.value.replace(act).Some? then
      var r := cm.value.replace(act).value;
      payload == r.payload && patch == r.patchPayload && vars == r.variables
    else
      payload == act.payload && patch == act.patchPayload && vars == act.variables
  }

  // The body of a request: the first template as it reads when the action begins,
  // or the second as it reads when the GET has been answered.
  ghost predicate BodyIs<S>(lib: Library, act: Action, payload: string, patch: string, vars: Bindings, w: World<S>,
      got: Reply, req: Request) {
    var env := Export(w.env, vars + w.runtime);
    match req.verb
    case GET => req.body == ""
    case DELETE => req.body == ""
    case POST => req.body == Substitute(lib, payload, env)
    case PUT => req.body == Substitute(lib, payload, env)
    case PATCH =>
      && got.Answer? && got.status <= 299
      && req.body == Substitute(lib, patch, Export(env, vars + Capture(lib, w.runtime, got.body, act.captures)))
  }

  // Only a successful GET is followed by a PATCH.
  lemma PatchIsSecond(lib: Library, s: Strategy, a: Action, id: string, t: seq<Exchange>, h: seq<Sent>,
      err: Option<Error>, i: nat)
    requires Over(lib, s, a, id, t, h, err) && i < |t| && t[i].request.verb.PATCH?
    ensures i == 1 && t[0].reply.Answer? && t[0].reply.status <= 299
  {
    Results(lib, s, a, id, t, h, err);
  }

  lemma SeenAfterOne<S>(lib: Library, a: Action, w: World<S>, e: Exchange)
    requires e.reply.Answer? && e.reply.status <= 299
    ensures Seen(lib, a, w, [e]).0 ==
              Export(Export(w.env, a.variables + w.runtime),
                     a.variables + Capture(lib, w.runtime, e.reply.body, a.captures))
  {
    assert [e][..0] == [];
  }

  // The action as it is run.
  function WithTemplates(act: Action, payload: string, patch: string, vars: Bindings): Action {
    act.(payload := payload, patchPayload := patch, variables := vars)
  }

  ghost predicate BodiesAre<S>(lib: Library, act: Action, payload: string, patch: string, vars: Bindings, w: World<S>,
      t: seq<Exchange>) {
    forall i :: 0 <= i < |t| ==> BodyIs(lib, act, payload, patch, vars, w, t[0].reply, t[i].request)
  }

  lemma BodiesOver<S>(lib: Library, s: Strategy, act: Action, payload: string, patch: string, vars: Bindings,
      w: World<S>, t: seq<Exchange>, h: seq<Sent>, err: Option<Error>)
    requires var a := WithTemplates(act, payload, patch, vars);
             Over(lib, s, a, "", t, h, err) && AsExpected(lib, s, a, "", w, t)
    ensures BodiesAre(lib, act, payload, patch, vars, w, t)
  {
    var a := WithTemplates(act, payload, patch, vars);
    forall i | 0 <= i < |t| ensures BodyIs(lib, act, payload, patch, vars, w, t[0].reply, t[i].request) {
      if t[i].request.verb.PATCH? {
        PatchIsSecond(lib, s, a, "", t, h, err, i);
        assert t[..1] == [t[0]];
        SeenAfterOne(lib, a, w, t[0]);
      }
    }
  }

  lemma BodiesAreSent<S>(x: Ctx<S>, s: Strategy, act: Action, w: World<S>, payload: string, patch: string,
      vars: Bindings)
    ensures var w' := RunStrategy(x, s, WithTemplates(act, payload, patch, vars), "", w).0;
            w.log <= w'.log && BodiesAre(x.lib, act, payload, patch, vars, w, Trace(w, w'))
  {
    var a := WithTemplates(act, payload, patch, vars);
    var h := Ends(x, s, a, "", w);
    TraceOfAnAction(x, s, a, "", w);
    var (w', err) := RunStrategy(x, s, a, "", w);
    var t := Trace(w, w');
    if Over(x.lib, s, a, "", t, h, err) {
      BodiesOver(x.lib, s, act, payload, patch, vars, w, t, h, err);
    }
  }

  lemma PerformedAsReplaced<S>(x: Ctx<S>, cm: Option<Manager>, act: Action, w: World<S>, payload: string,
      patch: string, vars: Bindings)
    requires Known(act) && Replaces(cm, act, payload, patch, vars)
    ensures var (w', err) :=
              RunStrategy(x, Registered(act.strategy).value, WithTemplates(act, payload, patch, vars), "", w);
            Perform(x, cm, act, w) == (w', ReplaceErrors(cm, act) + AsList(err))
  {
    assert Effective(cm, act) == WithTemplates(act, payload, patch, vars);
  }

  // An action whose placeholders cannot be replaced is run as it is, and both
  // errors are raised, that of the replacement first.
  lemma RaisedErrors<S>(x: Ctx<S>, cm: Option<Manager>, act: Action, w: World<S>)
    requires Known(act) && cm.Some? && cm.value.replace(act).None?
    ensures var (w', err) := RunStrategy(x, Registered(act.strategy).value, act, "", w);
            var raised := Perform(x, cm, act, w).1;
            && raised != [] && raised[0] == Plain("Error while replacing secrets placeholders in actions")
            && (err.None? ==> |raised| == 1) && (err.Some? ==> raised[1..] == [err.value])
  {
    PerformedAsReplaced(x, cm, act, w, act.payload, act.patchPayload, act.variables);
    assert WithTemplates(act, act.payload, act.patchPayload, act.variables) == act;
  }

  // The requests of a performed action carry what its templates have been
  // replaced by, and nothing else of the action has been replaced.
  lemma ReplacedTemplatesAreSent<S>(x: Ctx<S>, cm: Option<Manager>, act: Action, w: World<S>, payload: string,
      patch: string, vars: Bindings)
    requires Known(act) && Replaces(cm, act, payload, patch, vars)
    ensures var w' := Perform(x, cm, act, w).0;
            && w.log <= w'.log
            && var t := Trace(w, w');
            && AsExpected(x.lib, Registered(act.strategy).value,
                 act.(payload := payload, patchPayload := patch, variables := vars), "", w, t)
            && BodiesAre(x.lib, act, payload, patch, vars, w, t)
  {
    var s, a := Registered(act.strategy).value, WithTemplates(act, payload, patch, vars);
    PerformedAsReplaced(x, cm, act, w, payload, patch, vars);
    BodiesAreSent(x, s, act, w, payload, patch, vars);
    TraceOfAnAction(x, s, a, "", w);
  }
}

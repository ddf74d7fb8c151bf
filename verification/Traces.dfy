// What any server can see: the requests of one action and how they relate to
// its outcome, whatever the server answers (seeder/seederstrategies.go).
module Traces {
  import opened Wire
  import opened Text
  import opened Engine

  // The requests an action has made, given the worlds around it.
  function Trace<S>(w: World<S>, w': World<S>): seq<Exchange>
    requires w.log <= w'.log
  {
    w'.log[|w.log|..]
  }

  function Verbs(t: seq<Exchange>): seq<Verb> {
    seq(|t|, i requires 0 <= i < |t| => t[i].request.verb)
  }

  // The request sequences of each strategy. The empty one occurs when the GET
  // cannot be built.
  function Language(s: Strategy): set<seq<Verb>> {
    match s
    case GetPost => {[], [GET], [GET, POST]}
    case FindPost => {[], [GET], [GET, POST]}
    case FindPutPost => {[], [GET], [GET, POST], [GET, PUT]}
    case FindPatchPost => {[], [GET], [GET, POST], [GET, PATCH]}
    case FindDeletePost => {[], [GET], [GET, POST], [GET, DELETE], [GET, DELETE, POST]}
    case GetPutPost => {[], [GET], [GET, POST], [GET, PUT]}
    case PutOnly => {[PUT]}
    case PostOnly => {[POST]}
    case PutPost => {[PUT], [PUT, POST]}
  }

  // At most three requests, of which at most one is a POST, and only the first
  // can be a GET.
  lemma ShortWords(s: Strategy, word: seq<Verb>)
    requires word in Language(s)
    ensures |word| <= 3 && multiset(word)[POST] <= 1 && multiset(word)[DELETE] <= 1
    ensures forall i :: 0 < i < |word| ==> word[i] != GET
  {
  }

  // The one kind of failure that is followed by another request.
  predicate Forgives(s: Strategy, a: Action) {
    s.GetPutPost? || s.PutPost? || (s.FindDeletePost? && a.findExpr == "")
  }

  // Every request but the last was answered in a way that lets it go on.
  ghost predicate Orderly(s: Strategy, a: Action, t: seq<Exchange>) {
    forall i :: 0 <= i < |t| - 1 ==>
      Succeeded(t[i].reply) || (i == 0 && Forgives(s, a) && AllowsFallback(t[i].reply))
  }

  predicate FindErred(lib: Library, s: Strategy, a: Action, t: seq<Exchange>) {
    Finds(s) && |t| == 1 && Succeeded(t[0].reply) && FindPath(lib, t[0].reply.body, a.findExpr).err.Some?
  }

  predicate EndsWell(lib: Library, s: Strategy, a: Action, t: seq<Exchange>) {
    t != [] && Succeeded(t[|t| - 1].reply) && !FindErred(lib, s, a, t)
  }

  // The environment and the captured names at the moment before request i.
  function Seen<S>(lib: Library, a: Action, w: World<S>, t: seq<Exchange>): (Bindings, Bindings) {
    if t == [] then (Export(w.env, a.variables + w.runtime), w.runtime)
    else
      var (env, rt) := Seen(lib, a, w, t[..|t| - 1]);
      var e := t[|t| - 1];
      var rt' := if Succeeded(e.reply) then Capture(lib, rt, e.reply.body, a.captures) else rt;
      (Export(env, a.variables + rt'), rt')
  }

  // The private id once the exchanges `t` are over: the one found in the body of
  // this action's own GET if its strategy looks for one, else the id that the
  // action came with.
  function IdAfter(lib: Library, s: Strategy, a: Action, id: string, t: seq<Exchange>): string {
    if Finds(s) then
      if t != [] && Succeeded(t[0].reply) then FindPath(lib, t[0].reply.body, a.findExpr).found else ""
    else id
  }

  function OrEmpty(suffix: Option<string>): string {
    if suffix.Some? then suffix.value else ""
  }

  // The request that follows the exchanges `t`, given its verb, as a function
  // of the world `w` before the action and of the answers in `t`. Each verb has
  // its own suffix, and those that change an item name it.
  function Expected<S>(lib: Library, s: Strategy, a: Action, id: string, w: World<S>, t: seq<Exchange>,
      verb: Verb): Request {
    var found := IdAfter(lib, s, a, id, t);
    var item := if found == "" then "" else "/" + found;
    var u := lib.url(
      match verb
      case GET => a.endpoint + OrEmpty(a.getSuffix)
      case POST => a.endpoint + OrEmpty(a.postSuffix)
      case PUT => a.endpoint + OrEmpty(a.putSuffix) + item
      case PATCH => a.endpoint + OrEmpty(a.patchSuffix) + item
      case DELETE => a.endpoint + OrEmpty(a.deleteSuffix) + item);
    var env := Seen(lib, a, w, t).0;
    Request(verb, u.host, Substitute(lib, u.path, env), u.query,
      match verb
      case POST => FirstPayload(lib, a, w)
      case PUT => FirstPayload(lib, a, w)
      case PATCH => Substitute(lib, a.patchPayload, env)
      case _ => "")
  }

  // The payload template as it reads before the action's first request.
  function FirstPayload<S>(lib: Library, a: Action, w: World<S>): string {
    Substitute(lib, a.payload, Export(w.env, a.variables + w.runtime))
  }

  // The results `h` are those of the exchanges `t`, and each request was the
  // one that the strategy had decided on.
  ghost predicate Follows(lib: Library, s: Strategy, a: Action, id: string, t: seq<Exchange>, h: seq<Sent>) {
    && |t| == |h|
    && forall i :: 0 <= i < |h| ==>
         && Decide(lib, s, a, id, h[..i]).Issue?
         && Decide(lib, s, a, id, h[..i]).verb == t[i].request.verb
         && h[i] == Classify(a.name, t[i].request, t[i].reply)
  }

  // Each request is the expected one.
  ghost predicate AsExpected<S>(lib: Library, s: Strategy, a: Action, id: string, w: World<S>, t: seq<Exchange>) {
    forall i :: 0 <= i < |t| ==> t[i].request == Expected(lib, s, a, id, w, t[..i], t[i].request.verb)
  }

  // The state of the engine after the exchanges `t` of an action begun in `w0`.
  ghost predicate InStep<S>(lib: Library, a: Action, w0: World<S>, w: World<S>, t: seq<Exchange>) {
    && w.log == w0.log + t
    && Seen(lib, a, w0, t) == (Export(w.env, a.variables + w.runtime), w.runtime)
  }

  // Until a PATCH is made, the payload is the one templated at the start.
  ghost predicate KeepsPayload<S>(lib: Library, a: Action, w0: World<S>, w: World<S>, t: seq<Exchange>) {
    (forall e <- t :: !e.request.verb.PATCH?) ==>
      w.payload == FirstPayload(lib, a, w0)
  }

  lemma ClassifyFacts(name: string, req: Request, r: Reply)
    ensures var c := Classify(name, req, r);
            && (c.Body? <==> Succeeded(r)) && (c.Body? ==> c.text == r.body)
            && (MayFallBack(c) <==> AllowsFallback(r))
            && (c.Failed? ==> c.error.Diagnosed? && (MayFallBack(c) ==> !c.error.d.isFatal))
  {
    if !Succeeded(r) {
      FallbackFlags(name, req, r);
    }
  }

  lemma ExportTwice(env: Bindings, vars: Bindings)
    ensures Export(Export(env, vars), vars) == Export(env, vars)
  {
  }

  // No request follows a PATCH, and the id of a request is the expected one.
  lemma DecisionFacts(lib: Library, s: Strategy, a: Action, id: string, t: seq<Exchange>, h: seq<Sent>)
    requires Follows(lib, s, a, id, t, h) && Decide(lib, s, a, id, h).Issue?
    ensures forall e <- t :: !e.request.verb.PATCH?
    ensures var d := Decide(lib, s, a, id, h);
            Endpoint(a, d.verb, d.id) == Endpoint(a, d.verb, IdAfter(lib, s, a, id, t))
  {
    if |h| >= 1 {
      assert h[..0] == [];
      ClassifyFacts(a.name, t[0].request, t[0].reply);
      assert |h| == 1 ==> h == [h[0]];
      if |h| == 2 {
        assert h == [h[0], h[1]] && h[..1] == [h[0]];
      }
    }
  }

  lemma ExpectedExtends<S>(lib: Library, s: Strategy, a: Action, id: string, w: World<S>, t: seq<Exchange>, e: Exchange)
    requires AsExpected(lib, s, a, id, w, t)
    requires e.request == Expected(lib, s, a, id, w, t, e.request.verb)
    ensures AsExpected(lib, s, a, id, w, t + [e])
  {
    var t' := t + [e];
    assert t'[..|t|] == t;
    forall i | 0 <= i < |t'| ensures t'[i].request == Expected(lib, s, a, id, w, t'[..i], t'[i].request.verb) {
      assert i < |t| ==> t'[..i] == t[..i];
    }
  }

  lemma DoIsExpected<S>(x: Ctx<S>, a: Action, w0: World<S>, w: World<S>, t: seq<Exchange>, verb: Verb, id: string)
    requires InStep(x.lib, a, w0, w, t)
    ensures var (w', r) := Do(x, a, w, verb, id);
            var e := w'.log[|w.log|];
            var u := x.lib.url(Endpoint(a, verb, id));
            && w'.log == w.log + [e] && r == Classify(a.name, e.request, e.reply)
            && e.request == Request(verb, u.host, Substitute(x.lib, u.path, Seen(x.lib, a, w0, t).0), u.query,
                                    if CarriesPayload(verb) then w.payload else "")
            && w'.payload == w.payload
            && Seen(x.lib, a, w0, t + [e]) == (Export(w'.env, a.variables + w'.runtime), w'.runtime)
  {
    var w' := Do(x, a, w, verb, id).0;
    var e := w'.log[|w.log|];
    assert (t + [e])[..|t|] == t;
    assert w'.env == Seen(x.lib, a, w0, t).0;
  }

  lemma EndpointText(a: Action, verb: Verb, id: string)
    ensures var item := if id == "" then "" else "/" + id;
            Endpoint(a, verb, id) ==
              match verb
              case GET => a.endpoint + OrEmpty(a.getSuffix)
              case POST => a.endpoint + OrEmpty(a.postSuffix)
              case PUT => a.endpoint + OrEmpty(a.putSuffix) + item
              case PATCH => a.endpoint + OrEmpty(a.patchSuffix) + item
              case DELETE => a.endpoint + OrEmpty(a.deleteSuffix) + item
  {
    assert a.endpoint + Suffix(a, verb) + "" == a.endpoint + Suffix(a, verb);
  }

  lemma SendIsExpected<S>(x: Ctx<S>, s: Strategy, a: Action, id: string, w0: World<S>, w: World<S>, t: seq<Exchange>,
      verb: Verb, i: string)
    requires InStep(x.lib, a, w0, w, t) && KeepsPayload(x.lib, a, w0, w, t)
    requires forall e <- t :: !e.request.verb.PATCH?
    requires Endpoint(a, verb, i) == Endpoint(a, verb, IdAfter(x.lib, s, a, id, t))
    requires verb.GET? ==> x.lib.unbuildable(Endpoint(a, GET, i)).None?
    ensures var (w', r) := Send(x, a, w, verb, i);
            |w'.log| == |w.log| + 1 &&
            var e := w'.log[|w.log|];
            && InStep(x.lib, a, w0, w', t + [e]) && KeepsPayload(x.lib, a, w0, w', t + [e])
            && e.request == Expected(x.lib, s, a, id, w0, t, verb) && r == Classify(a.name, e.request, e.reply)
  {
    var (w', r) := Send(x, a, w, verb, i);
    var w1 := if verb.PATCH? then Retemplate(x.lib, w, a.patchPayload, a.variables) else w;
    ExportTwice(w.env, a.variables + w.runtime);
    EndpointText(a, verb, IdAfter(x.lib, s, a, id, t));
    DoIsExpected(x, a, w0, w1, t, verb, i);
    assert (w', r) == Do(x, a, w1, verb, i);
    var e := w'.log[|w.log|];
    assert e in t + [e];
  }

  lemma FollowsExtends(lib: Library, s: Strategy, a: Action, id: string, t: seq<Exchange>, h: seq<Sent>, e: Exchange,
      r: Sent)
    requires Follows(lib, s, a, id, t, h) && Decide(lib, s, a, id, h).Issue?
    requires e.request.verb == Decide(lib, s, a, id, h).verb && r == Classify(a.name, e.request, e.reply)
    ensures Follows(lib, s, a, id, t + [e], h + [r])
  {
    var t', h' := t + [e], h + [r];
    forall i | 0 <= i < |h'|
      ensures Decide(lib, s, a, id, h'[..i]).Issue?
      ensures Decide(lib, s, a, id, h'[..i]).verb == t'[i].request.verb
      ensures h'[i] == Classify(a.name, t'[i].request, t'[i].reply)
    {
      assert h'[..i] == h[..i];
      assert i == |h| ==> h[..i] == h;
    }
  }

  // The engine has made the exchanges `t` with the results `h`, as it should.
  ghost predicate OnTrack<S>(lib: Library, s: Strategy, a: Action, id: string, w0: World<S>, w: World<S>,
      t: seq<Exchange>, h: seq<Sent>) {
    && InStep(lib, a, w0, w, t) && KeepsPayload(lib, a, w0, w, t)
    && Follows(lib, s, a, id, t, h) && AsExpected(lib, s, a, id, w0, t)
  }

  predicate CanBuild<S>(x: Ctx<S>, a: Action, verb: Verb) {
    verb.GET? ==> x.lib.unbuildable(Endpoint(a, GET, "")).None?
  }

  lemma StaysOnTrack<S>(x: Ctx<S>, s: Strategy, a: Action, id: string, w0: World<S>, w: World<S>, t: seq<Exchange>,
      h: seq<Sent>, verb: Verb, i: string)
    returns (e: Exchange)
    requires OnTrack(x.lib, s, a, id, w0, w, t, h)
    requires Decide(x.lib, s, a, id, h) == Issue(verb, i) && CanBuild(x, a, verb)
    ensures var (w', r) := Send(x, a, w, verb, i);
            OnTrack(x.lib, s, a, id, w0, w', t + [e], h + [r])
  {
    DecisionFacts(x.lib, s, a, id, t, h);
    SendIsExpected(x, s, a, id, w0, w, t, verb, i);
    var (w', r) := Send(x, a, w, verb, i);
    e := w'.log[|w.log|];
    ExpectedExtends(x.lib, s, a, id, w0, t, e);
    FollowsExtends(x.lib, s, a, id, t, h, e, r);
  }

  lemma OnlyTheFirstIsGet(lib: Library, s: Strategy, a: Action, id: string, h: seq<Sent>)
    requires Decide(lib, s, a, id, h).Issue? && h != []
    ensures !Decide(lib, s, a, id, h).verb.GET?
  {
  }

  // Every action whose GET can be built leaves a transcript that its strategy
  // has decided on, with exactly the expected requests.
  lemma {:induction false} Transcript<S>(x: Ctx<S>, s: Strategy, a: Action, id: string, w0: World<S>, w: World<S>,
      t: seq<Exchange>, h: seq<Sent>)
    returns (t': seq<Exchange>, h': seq<Sent>)
    requires OnTrack(x.lib, s, a, id, w0, w, t, h)
    requires |h| <= 3
    requires h == [] && Decide(x.lib, s, a, id, h).Issue? ==> CanBuild(x, a, Decide(x.lib, s, a, id, h).verb)
    ensures var (w', err) := Play(x, s, a, id, w, h);
            OnTrack(x.lib, s, a, id, w0, w', t', h') && Decide(x.lib, s, a, id, h') == Return(err)
    decreases 3 - |h|
  {
    match Decide(x.lib, s, a, id, h)
    case Return(_) =>
      t', h' := t, h;
    case Issue(verb, i) =>
      if h != [] {
        OnlyTheFirstIsGet(x.lib, s, a, id, h);
      }
      var e := StaysOnTrack(x, s, a, id, w0, w, t, h, verb, i);
      var (w', r) := Send(x, a, w, verb, i);
      t', h' := Transcript(x, s, a, id, w0, w', t + [e], h + [r]);
  }

  lemma AtMostThree(lib: Library, s: Strategy, a: Action, id: string, t: seq<Exchange>, h: seq<Sent>)
    requires Follows(lib, s, a, id, t, h)
    ensures |h| <= 3
  {
    var three := if |h| > 3 then h[..3] else [];
    assert |three| == 3 ==> Decide(lib, s, a, id, three).Return?;
  }

  // What a transcript can look like and how it decides the outcome.
  lemma TranscriptShape(lib: Library, s: Strategy, a: Action, id: string, t: seq<Exchange>, h: seq<Sent>)
    requires Follows(lib, s, a, id, t, h) && Decide(lib, s, a, id, h).Return?
    ensures Verbs(t) in Language(s)
    ensures Orderly(s, a, t)
    ensures Decide(lib, s, a, id, h).err.None? <==> EndsWell(lib, s, a, t)
  {
    AtMostThree(lib, s, a, id, t, h);
    assert h != [];
    assert h[..0] == [];
    ClassifyFacts(a.name, t[0].request, t[0].reply);
    if |h| == 1 {
      assert h == [h[0]] && Verbs(t) == [t[0].request.verb];
    } else {
      assert h[..1] == [h[0]];
      ClassifyFacts(a.name, t[1].request, t[1].reply);
      if |h| == 2 {
        assert h == [h[0], h[1]] && Verbs(t) == [t[0].request.verb, t[1].request.verb];
      } else {
        assert h[..2] == [h[0], h[1]] && [h[0], h[1]][..1] == [h[0]];
        ClassifyFacts(a.name, t[2].request, t[2].reply);
        assert Verbs(t) == [t[0].request.verb, t[1].request.verb, t[2].request.verb];
      }
    }
  }

  // Request language, outcome, payload timing and addressing of one action,
  // against any server.
  lemma TraceOfAnAction<S>(x: Ctx<S>, s: Strategy, a: Action, id: string, w: World<S>)
    ensures var (w', err) := RunStrategy(x, s, a, id, w);
            && w.log <= w'.log
            && Verbs(Trace(w, w')) in Language(s)
            && Orderly(s, a, Trace(w, w'))
            && (err.None? <==> EndsWell(x.lib, s, a, Trace(w, w')))
            && AsExpected(x.lib, s, a, id, w, Trace(w, w'))
  {
    var w0 := Retemplate(x.lib, w, a.payload, a.variables);
    var d := Decide(x.lib, s, a, id, []);
    if CanBuild(x, a, d.verb) {
      ExportTwice(w.env, a.variables + w.runtime);
      var t, h := Transcript(x, s, a, id, w, w0, [], []);
      assert Trace(w, RunStrategy(x, s, a, id, w).0) == t;
      TranscriptShape(x.lib, s, a, id, t, h);
    } else {
      UnbuildableGet(x, s, a, id, w);
    }
  }

  lemma UnbuildableGet<S>(x: Ctx<S>, s: Strategy, a: Action, id: string, w: World<S>)
    requires Decide(x.lib, s, a, id, []).verb.GET? && !CanBuild(x, a, GET)
    ensures var (w', err) := RunStrategy(x, s, a, id, w);
            w'.log == w.log && err == Some(Plain(x.lib.unbuildable(Endpoint(a, GET, "")).value))
    ensures Verbs([]) in Language(s)
  {
    var w0 := Retemplate(x.lib, w, a.payload, a.variables);
    var r := Failed(Plain(x.lib.unbuildable(Endpoint(a, GET, "")).value));
    assert Send(x, a, w0, GET, "") == (w0, r);
    assert [] + [r] == [r];
    assert Play(x, s, a, id, w0, []) == Play(x, s, a, id, w0, [r]);
    assert Verbs([]) == [];
  }
}

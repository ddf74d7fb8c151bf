// Where a template's values come from: the maps that the engine keeps
// (process environment, captured variables) say exactly what a lookup in the
// history of requests and templating calls says.
module History {
  import opened Wire
  import opened Text
  import opened Engine
  import opened Runs

  // The value captured last for a name: the newest successful response that
  // declared it and yielded something. Empty when there is none.
  function LastCapture(lib: Library, log: seq<Exchange>, name: string): string {
    if log == [] then "" else
    var e := log[|log| - 1];
    var found :=
      if Succeeded(e.reply) && name in e.captures then FindPath(lib, e.reply.body, e.captures[name]).found else "";
    if found != "" then found else LastCapture(lib, log[..|log| - 1], name)
  }

  // What one templating call exports for a name, if anything: the captured
  // value, else the action's own variable. An empty name, an equals sign in it
  // and a NUL in either are refused.
  function Exported(lib: Library, log: seq<Exchange>, c: Call, name: string): Option<string>
    requires c.sent <= |log|
  {
    var captured := LastCapture(lib, log[..c.sent], name);
    var given :=
      if captured != "" then Some(captured)
      else if name in c.variables then Some(c.variables[name])
      else None;
    if given.Some? && name != "" && '=' !in name && '\0' !in name && '\0' !in given.value then given else None
  }

  ghost predicate Dated(log: seq<Exchange>, calls: seq<Call>) {
    forall i :: 0 <= i < |calls| ==> calls[i].sent <= |log|
  }

  // The value of a name after some calls: exported by the newest call that
  // exports it, else from the initial environment, else empty.
  function Resolve(lib: Library, init: Bindings, log: seq<Exchange>, calls: seq<Call>, name: string): string
    requires Dated(log, calls)
  {
    if calls == [] then (if name in init then init[name] else "") else
    match Exported(lib, log, calls[|calls| - 1], name)
    case Some(v) => v
    case None => Resolve(lib, init, log, calls[..|calls| - 1], name)
  }

  function ResolvedText(lib: Library, init: Bindings, log: seq<Exchange>, calls: seq<Call>, parts: seq<Part>): string
    requires Dated(log, calls)
  {
    if parts == [] then ""
    else (match parts[0]
          case Literal(t) => t
          case Variable(n) => Resolve(lib, init, log, calls, n)) + ResolvedText(lib, init, log, calls, parts[1..])
  }

  // The output of a call is its text with every name looked up in history.
  ghost predicate Justified(lib: Library, init: Bindings, log: seq<Exchange>, calls: seq<Call>, c: Call)
    requires Dated(log, calls)
  {
    match lib.parse(c.text)
    case Malformed => c.output == ""
    case Parts(parts) => c.output == ResolvedText(lib, init, log, calls, parts)
  }

  // The captured variables are what the log says, no more and no less.
  ghost predicate CapturesMatch(lib: Library, log: seq<Exchange>, runtime: Bindings) {
    forall n: string ::
      && (n in runtime <==> LastCapture(lib, log, n) != "")
      && (n in runtime ==> runtime[n] == LastCapture(lib, log, n))
  }

  ghost predicate EnvMatches<S>(lib: Library, init: Bindings, w: World<S>)
    requires Dated(w.log, w.calls)
  {
    forall n: string :: Value(w.env, n) == Resolve(lib, init, w.log, w.calls, n)
  }

  ghost predicate Explained<S>(lib: Library, init: Bindings, w: World<S>) {
    && Dated(w.log, w.calls)
    && CapturesMatch(lib, w.log, w.runtime)
    && EnvMatches(lib, init, w)
    && forall i :: 0 <= i < |w.calls| ==> Justified(lib, init, w.log, w.calls[..i + 1], w.calls[i])
  }

  // Later requests do not change what an earlier call exported.
  lemma {:induction false} ResolveIsStable(lib: Library, init: Bindings, log: seq<Exchange>, e: Exchange,
      calls: seq<Call>, name: string)
    requires Dated(log, calls)
    ensures Dated(log + [e], calls)
    ensures Resolve(lib, init, log + [e], calls, name) == Resolve(lib, init, log, calls, name)
  {
    if calls != [] {
      var c := calls[|calls| - 1];
      assert (log + [e])[..c.sent] == log[..c.sent];
      ResolveIsStable(lib, init, log, e, calls[..|calls| - 1], name);
    }
  }

  lemma {:induction false} ResolvedTextIsStable(lib: Library, init: Bindings, log: seq<Exchange>, e: Exchange,
      calls: seq<Call>, parts: seq<Part>)
    requires Dated(log, calls)
    ensures Dated(log + [e], calls)
    ensures ResolvedText(lib, init, log + [e], calls, parts) == ResolvedText(lib, init, log, calls, parts)
  {
    if parts != [] {
      if parts[0].Variable? {
        ResolveIsStable(lib, init, log, e, calls, parts[0].name);
      }
      ResolvedTextIsStable(lib, init, log, e, calls, parts[1..]);
    }
  }

  lemma {:induction false} RenderIsResolvedText(lib: Library, init: Bindings, log: seq<Exchange>, calls: seq<Call>,
      parts: seq<Part>, env: Bindings)
    requires Dated(log, calls)
    requires forall n: string :: Value(env, n) == Resolve(lib, init, log, calls, n)
    ensures Render(parts, env) == ResolvedText(lib, init, log, calls, parts)
  {
    if parts != [] {
      RenderIsResolvedText(lib, init, log, calls, parts[1..], env);
    }
  }

  lemma ExportIsResolved(lib: Library, init: Bindings, log: seq<Exchange>, calls: seq<Call>, c: Call, env: Bindings,
      runtime: Bindings, name: string)
    requires Dated(log, calls) && c.sent == |log|
    requires name in runtime <==> LastCapture(lib, log, name) != ""
    requires name in runtime ==> runtime[name] == LastCapture(lib, log, name)
    requires Value(env, name) == Resolve(lib, init, log, calls, name)
    ensures Value(Export(env, c.variables + runtime), name) == Resolve(lib, init, log, calls + [c], name)
  {
    assert log[..|log|] == log;
    assert (calls + [c])[..|calls|] == calls;
    assert name in runtime ==> (c.variables + runtime)[name] == runtime[name];
  }

  lemma TemplatingIsExplained<S>(lib: Library, init: Bindings, w: World<S>, text: string, variables: Bindings)
    requires Explained(lib, init, w)
    ensures Explained(lib, init, TemplateWithVars(lib, w, text, variables).0)
  {
    var (w', output) := TemplateWithVars(lib, w, text, variables);
    var c := Call(text, variables, |w.log|, output);
    assert w'.calls == w.calls + [c];
    assert EnvMatches(lib, init, w') by {
      forall n: string ensures Value(w'.env, n) == Resolve(lib, init, w'.log, w'.calls, n) {
        assert n in w.runtime <==> LastCapture(lib, w.log, n) != "";
        assert Value(w.env, n) == Resolve(lib, init, w.log, w.calls, n);
        ExportIsResolved(lib, init, w.log, w.calls, c, w.env, w.runtime, n);
      }
    }
    forall i | 0 <= i < |w'.calls| ensures Justified(lib, init, w'.log, w'.calls[..i + 1], w'.calls[i]) {
      if i < |w.calls| {
        assert w'.calls[..i + 1] == w.calls[..i + 1];
      } else {
        assert w'.calls[..i + 1] == w'.calls;
        if lib.parse(text).Parts? {
          RenderIsResolvedText(lib, init, w'.log, w'.calls, lib.parse(text).parts, w'.env);
        }
      }
    }
  }

  lemma AnswerIsExplained<S>(lib: Library, init: Bindings, w: World<S>, w': World<S>, e: Exchange)
    requires Explained(lib, init, w)
    requires w'.log == w.log + [e] && w'.calls == w.calls && w'.env == w.env
    requires w'.runtime == if Succeeded(e.reply) then Capture(lib, w.runtime, e.reply.body, e.captures) else w.runtime
    ensures Explained(lib, init, w')
  {
    assert w'.log[..|w'.log| - 1] == w.log;
    forall n: string ensures Value(w'.env, n) == Resolve(lib, init, w'.log, w'.calls, n) {
      ResolveIsStable(lib, init, w.log, e, w.calls, n);
      assert Value(w.env, n) == Resolve(lib, init, w.log, w.calls, n);
    }
    forall n: string
      ensures n in w'.runtime <==> LastCapture(lib, w'.log, n) != ""
      ensures n in w'.runtime ==> w'.runtime[n] == LastCapture(lib, w'.log, n)
    {
      assert n in w.runtime <==> LastCapture(lib, w.log, n) != "";
    }
    forall i | 0 <= i < |w'.calls| ensures Justified(lib, init, w'.log, w'.calls[..i + 1], w'.calls[i]) {
      var parsed := lib.parse(w.calls[i].text);
      assert Justified(lib, init, w.log, w.calls[..i + 1], w.calls[i]);
      if parsed.Parts? {
        ResolvedTextIsStable(lib, init, w.log, e, w.calls[..i + 1], parsed.parts);
      }
    }
  }

  lemma DoIsExplained<S>(x: Ctx<S>, init: Bindings, a: Action, w: World<S>, verb: Verb, id: string)
    requires Explained(x.lib, init, w)
    ensures Explained(x.lib, init, Do(x, a, w, verb, id).0)
  {
    var u := x.lib.url(Endpoint(a, verb, id));
    TemplatingIsExplained(x.lib, init, w, u.path, a.variables);
    var w1 := TemplateWithVars(x.lib, w, u.path, a.variables).0;
    var w' := Do(x, a, w, verb, id).0;
    AnswerIsExplained(x.lib, init, w1, w', w'.log[|w1.log|]);
  }

  lemma RetemplateIsExplained<S>(lib: Library, init: Bindings, w: World<S>, text: string, variables: Bindings)
    requires Explained(lib, init, w)
    ensures Explained(lib, init, Retemplate(lib, w, text, variables))
  {
    TemplatingIsExplained(lib, init, w, text, variables);
    var w1 := TemplateWithVars(lib, w, text, variables).0;
    var w2 := Retemplate(lib, w, text, variables);
    assert w2.calls == w1.calls && w2.log == w1.log && w2.env == w1.env && w2.runtime == w1.runtime;
  }

  lemma SendIsExplained<S>(x: Ctx<S>, init: Bindings, a: Action, w: World<S>, verb: Verb, id: string)
    requires Explained(x.lib, init, w)
    ensures Explained(x.lib, init, Send(x, a, w, verb, id).0)
  {
    if verb.PATCH? {
      RetemplateIsExplained(x.lib, init, w, a.patchPayload, a.variables);
      DoIsExplained(x, init, a, Retemplate(x.lib, w, a.patchPayload, a.variables), verb, id);
    } else {
      DoIsExplained(x, init, a, w, verb, id);
    }
  }

  lemma {:induction false} PlayIsExplained<S>(x: Ctx<S>, init: Bindings, s: Strategy, a: Action, id: string,
      w: World<S>, h: seq<Sent>)
    requires |h| <= 3 && Explained(x.lib, init, w)
    ensures Explained(x.lib, init, Play(x, s, a, id, w, h).0)
    decreases 3 - |h|
  {
    match Decide(x.lib, s, a, id, h)
    case Return(_) =>
    case Issue(verb, i) =>
      SendIsExplained(x, init, a, w, verb, i);
      var (w', r) := Send(x, a, w, verb, i);
      PlayIsExplained(x, init, s, a, id, w', h + [r]);
  }

  lemma {:induction false} LoopIsExplained<S>(x: Ctx<S>, cm: Option<Manager>, init: Bindings, failFast: bool,
      acts: seq<Action>, w: World<S>, errs: seq<Error>)
    requires Explained(x.lib, init, w)
    ensures Explained(x.lib, init, Loop(Performer(x, cm), failFast, acts, w, errs).0)
    decreases |acts|
  {
    if acts == [] {
    } else if !Known(acts[0]) {
      LoopIsExplained(x, cm, init, failFast, acts[1..], w, errs);
    } else {
      var a := Effective(cm, acts[0]);
      var s := Registered(acts[0].strategy).value;
      RetemplateIsExplained(x.lib, init, w, a.payload, a.variables);
      PlayIsExplained(x, init, s, a, "", Retemplate(x.lib, w, a.payload, a.variables), []);
      var (w', raised) := Perform(x, cm, acts[0], w);
      var returned := errs + raised;
      if returned == [] {
        LoopIsExplained(x, cm, init, failFast, acts[1..], w', errs);
      } else if !failFast {
        LoopIsExplained(x, cm, init, failFast, acts[1..], w', errs + returned);
      }
    }
  }

  lemma {:induction false} ExecutionsAreExplained<S>(x: Ctx<S>, cm: Option<Manager>, init: Bindings, failFast: bool,
      runs: seq<seq<Action>>, w: World<S>)
    requires Explained(x.lib, init, w)
    ensures Explained(x.lib, init, Executions(x, cm, failFast, runs, w))
    decreases |runs|
  {
    if runs != [] {
      LoopIsExplained(x, cm, init, failFast, runs[0], w, []);
      ExecutionsAreExplained(x, cm, init, failFast, runs[1..], Execute(x, cm, failFast, runs[0], w).0);
    }
  }

  // Variable resolution and runtime capture, for any number of runs of a new
  // seeder against any server: each text that was templated is its template
  // with every name looked up in history, and the captured variables are those
  // of the log.
  lemma EveryValueIsExplained<S>(x: Ctx<S>, cm: Option<Manager>, failFast: bool, runs: seq<seq<Action>>, server: S,
      init: Bindings)
    ensures Explained(x.lib, init, Executions(x, cm, failFast, runs, Fresh(server, init)))
  {
    var w := Fresh(server, init);
    forall n: string ensures Value(w.env, n) == Resolve(x.lib, init, w.log, w.calls, n) {
    }
    ExecutionsAreExplained(x, cm, init, failFast, runs, w);
  }

  // A value, once captured, can only be replaced by a newer one: more requests
  // never make a name disappear, and only successful responses that declare
  // the name can change its value.
  lemma {:induction false} CapturesOnlyGrow(lib: Library, log: seq<Exchange>, more: seq<Exchange>, name: string)
    ensures LastCapture(lib, log, name) != "" ==> LastCapture(lib, log + more, name) != ""
    ensures LastCapture(lib, log + more, name) == LastCapture(lib, log, name)
            || exists e <- more ::
                 && Succeeded(e.reply) && name in e.captures
                 && LastCapture(lib, log + more, name) == FindPath(lib, e.reply.body, e.captures[name]).found
  {
    if more == [] {
      assert log + more == log;
    } else {
      var init, e := more[..|more| - 1], more[|more| - 1];
      assert (log + more)[..|log + more| - 1] == log + init;
      CapturesOnlyGrow(lib, log, init, name);
      assert e in more && forall d <- init :: d in more;
    }
  }
}

// The same seeder executed again: an action's variables map then also holds
// captured values from earlier runs, which makes no difference, because
// TemplateWithVars writes the newest captured values over it first
// (seeder/rest.go, TemplateWithVars).
module Stains {
  import opened Wire
  import opened Text
  import opened Engine
  import opened Runs

  // `b` is `a` with captured names added to its variables.
  ghost predicate Stained(a: Action, b: Action, runtime: Bindings) {
    b == a.(variables := b.variables) && SameBut(b.variables, a.variables, runtime)
  }

  ghost predicate AllStained(xs: seq<Action>, ys: seq<Action>, runtime: Bindings) {
    |xs| == |ys| && forall i :: 0 <= i < |xs| ==> Stained(xs[i], ys[i], runtime)
  }

  // Equal except for the record of templating calls, which names the maps.
  ghost predicate Alike<S(!new)>(w1: World<S>, w2: World<S>) {
    w1.(calls := []) == w2.(calls := [])
  }

  lemma StainsGrow(a: Action, b: Action, runtime: Bindings, runtime': Bindings)
    requires Stained(a, b, runtime) && runtime.Keys <= runtime'.Keys
    ensures Stained(a, b, runtime')
  {
    MoreCaptures(b.variables, a.variables, runtime, runtime');
  }

  lemma TemplatesAlike<S(!new)>(lib: Library, w1: World<S>, w2: World<S>, text: string, v1: Bindings, v2: Bindings)
    requires Alike(w1, w2) && v1 + w1.runtime == v2 + w1.runtime
    ensures var (u1, out1) := TemplateWithVars(lib, w1, text, v1);
            var (u2, out2) := TemplateWithVars(lib, w2, text, v2);
            Alike(u1, u2) && out1 == out2 && u1.runtime == w1.runtime
  {
  }

  lemma DoAlike<S(!new)>(x: Ctx<S>, a: Action, b: Action, w1: World<S>, w2: World<S>, verb: Verb, id: string)
    requires Alike(w1, w2) && Stained(a, b, w1.runtime)
    ensures var (u1, r1) := Do(x, a, w1, verb, id);
            var (u2, r2) := Do(x, b, w2, verb, id);
            Alike(u1, u2) && r1 == r2 && w1.runtime.Keys <= u1.runtime.Keys
  {
    TemplatesAlike(x.lib, w1, w2, x.lib.url(Endpoint(a, verb, id)).path, a.variables, b.variables);
  }

  lemma SendAlike<S(!new)>(x: Ctx<S>, a: Action, b: Action, w1: World<S>, w2: World<S>, verb: Verb, id: string)
    requires Alike(w1, w2) && Stained(a, b, w1.runtime)
    ensures var (u1, r1) := Send(x, a, w1, verb, id);
            var (u2, r2) := Send(x, b, w2, verb, id);
            Alike(u1, u2) && r1 == r2 && w1.runtime.Keys <= u1.runtime.Keys
  {
    if verb.PATCH? {
      TemplatesAlike(x.lib, w1, w2, a.patchPayload, a.variables, b.variables);
      DoAlike(x, a, b, Retemplate(x.lib, w1, a.patchPayload, a.variables),
          Retemplate(x.lib, w2, b.patchPayload, b.variables), verb, id);
    } else {
      DoAlike(x, a, b, w1, w2, verb, id);
    }
  }

  lemma {:induction false} PlayAlike<S(!new)>(x: Ctx<S>, s: Strategy, a: Action, b: Action, id: string, w1: World<S>,
      w2: World<S>, h: seq<Sent>)
    requires |h| <= 3 && Alike(w1, w2) && Stained(a, b, w1.runtime)
    ensures var (u1, e1) := Play(x, s, a, id, w1, h);
            var (u2, e2) := Play(x, s, b, id, w2, h);
            Alike(u1, u2) && e1 == e2 && w1.runtime.Keys <= u1.runtime.Keys
    decreases 3 - |h|
  {
    SameDecision(x.lib, s, a, b, id, h);
    match Decide(x.lib, s, a, id, h)
    case Return(_) =>
    case Issue(verb, i) =>
      SendAlike(x, a, b, w1, w2, verb, i);
      var (u1, r) := Send(x, a, w1, verb, i);
      var u2 := Send(x, b, w2, verb, i).0;
      StainsGrow(a, b, w1.runtime, u1.runtime);
      PlayAlike(x, s, a, b, id, u1, u2, h + [r]);
  }

  lemma SameDecision(lib: Library, s: Strategy, a: Action, b: Action, id: string, h: seq<Sent>)
    requires b == a.(variables := b.variables)
    ensures Decide(lib, s, a, id, h) == Decide(lib, s, b, id, h)
  {
  }

  // A configmanager that treats captured values in the variables as any others:
  // what it makes of two stained actions is stained likewise.
  ghost predicate Tolerant(cm: Option<Manager>) {
    cm.Some? ==> forall a, b, runtime: Bindings :: Stained(a, b, runtime) ==>
      && (cm.value.replace(a).None? <==> cm.value.replace(b).None?)
      && Stained(Effective(cm, a), Effective(cm, b), runtime)
  }

  lemma PerformAlike<S(!new)>(x: Ctx<S>, cm: Option<Manager>, a: Action, b: Action, w1: World<S>, w2: World<S>)
    requires Tolerant(cm) && Alike(w1, w2) && Stained(a, b, w1.runtime)
    ensures var (u1, e1) := Perform(x, cm, a, w1);
            var (u2, e2) := Perform(x, cm, b, w2);
            Alike(u1, u2) && e1 == e2 && w1.runtime.Keys <= u1.runtime.Keys
  {
    if Known(a) {
      var s := Registered(a.strategy).value;
      var c, d := Effective(cm, a), Effective(cm, b);
      assert Stained(c, d, w1.runtime);
      TemplatesAlike(x.lib, w1, w2, c.payload, c.variables, d.variables);
      PlayAlike(x, s, c, d, "", Retemplate(x.lib, w1, c.payload, c.variables),
          Retemplate(x.lib, w2, d.payload, d.variables), []);
    }
  }

  ghost predicate Indifferent<S(!new)>(perform: (Action, World<S>) -> (World<S>, seq<Error>)) {
    forall a, b, w1: World<S>, w2: World<S> :: Alike(w1, w2) && Stained(a, b, w1.runtime) ==>
      var (u1, e1) := perform(a, w1);
      var (u2, e2) := perform(b, w2);
      Alike(u1, u2) && e1 == e2 && w1.runtime.Keys <= u1.runtime.Keys
  }

  lemma {:induction false} LoopAlike<S(!new)>(perform: (Action, World<S>) -> (World<S>, seq<Error>), failFast: bool,
      xs: seq<Action>, ys: seq<Action>, w1: World<S>, w2: World<S>, errs: seq<Error>)
    requires Indifferent(perform) && Alike(w1, w2) && AllStained(xs, ys, w1.runtime)
    ensures var (u1, e1) := Loop(perform, failFast, xs, w1, errs);
            var (u2, e2) := Loop(perform, failFast, ys, w2, errs);
            Alike(u1, u2) && e1 == e2
    decreases |xs|
  {
    if xs != [] {
      assert Stained(xs[0], ys[0], w1.runtime);
      if !Known(xs[0]) {
        LoopAlike(perform, failFast, xs[1..], ys[1..], w1, w2, errs);
      } else {
        var (u1, raised) := perform(xs[0], w1);
        var u2 := perform(ys[0], w2).0;
        forall i | 0 <= i < |xs[1..]| ensures Stained(xs[1..][i], ys[1..][i], u1.runtime) {
          StainsGrow(xs[i + 1], ys[i + 1], w1.runtime, u1.runtime);
        }
        var returned := errs + raised;
        if returned == [] {
          LoopAlike(perform, failFast, xs[1..], ys[1..], u1, u2, errs);
        } else if !failFast {
          LoopAlike(perform, failFast, xs[1..], ys[1..], u1, u2, errs + returned);
        }
      }
    }
  }

  // Without configmanager, or with a tolerant one, a run of the stained actions is
  // the run of the original ones: same requests, same server, same errors.
  lemma StainsDoNotMatter<S(!new)>(x: Ctx<S>, cm: Option<Manager>, failFast: bool, xs: seq<Action>, ys: seq<Action>,
      w: World<S>)
    requires Tolerant(cm) && AllStained(xs, ys, w.runtime)
    ensures var (u1, errs1) := Execute(x, cm, failFast, xs, w);
            var (u2, errs2) := Execute(x, cm, failFast, ys, w);
            Alike(u1, u2) && errs1 == errs2
  {
    PerformerIsIndifferent(x, cm);
    LoopAlike(Performer(x, cm), failFast, xs, ys, w, w, []);
  }

  // ---- Actions that share a map ----

  lemma StainsAdd(a: Action, b: Action, c: Action, runtime: Bindings)
    requires Stained(a, b, runtime) && Stained(b, c, runtime)
    ensures Stained(a, c, runtime)
  {
  }

  // One round of the loop of Execute.
  function Round<S>(perform: (Action, World<S>) -> (World<S>, seq<Error>), a: Action, w: World<S>, errs: seq<Error>)
    : (World<S>, seq<Error>)
  {
    if !Known(a) then (w, errs)
    else
      var (w', raised) := perform(a, w);
      if errs + raised == [] then (w', errs) else (w', errs + (errs + raised))
  }

  predicate Stopped(failFast: bool, errs: seq<Error>) {
    failFast && errs != []
  }

  lemma {:induction false} LoopSnoc<S>(perform: (Action, World<S>) -> (World<S>, seq<Error>), failFast: bool,
      xs: seq<Action>, a: Action, w: World<S>, errs: seq<Error>)
    requires !Stopped(failFast, errs)
    ensures var (w1, errs1) := Loop(perform, failFast, xs, w, errs);
            Loop(perform, failFast, xs + [a], w, errs) ==
            if Stopped(failFast, errs1) then (w1, errs1) else Round(perform, a, w1, errs1)
    decreases |xs|
  {
    if xs == [] {
      assert xs + [a] == [a] && [a][1..] == [];
    } else {
      assert (xs + [a])[1..] == xs[1..] + [a];
      if !Known(xs[0]) {
        LoopSnoc(perform, failFast, xs[1..], a, w, errs);
      } else {
        var (w', raised) := perform(xs[0], w);
        var returned := errs + raised;
        if returned == [] {
          LoopSnoc(perform, failFast, xs[1..], a, w', errs);
        } else if !failFast {
          LoopSnoc(perform, failFast, xs[1..], a, w', errs + returned);
        }
      }
    }
  }

  // `ys` are the actions of `xs` as they stood when their turn came: captured
  // values may have been written to their maps in the meantime.
  ghost predicate InTurn<S(!new)>(perform: (Action, World<S>) -> (World<S>, seq<Error>), failFast: bool,
      xs: seq<Action>, ys: seq<Action>, w: World<S>) {
    |ys| <= |xs| && forall i :: 0 <= i < |ys| ==>
      Stained(xs[i], ys[i], Loop(perform, failFast, ys[..i], w, []).0.runtime)
  }

  // The loop has come to (now, errs) with the actions `ys`.
  ghost predicate Progress<S(!new)>(perform: (Action, World<S>) -> (World<S>, seq<Error>), failFast: bool,
      xs: seq<Action>, ys: seq<Action>, w: World<S>, now: World<S>, errs: seq<Error>) {
    (now, errs) == Loop(perform, failFast, ys, w, []) && InTurn(perform, failFast, xs, ys, w)
  }

  lemma ProgressOne<S(!new)>(perform: (Action, World<S>) -> (World<S>, seq<Error>), failFast: bool,
      xs: seq<Action>, ys: seq<Action>, w: World<S>, now: World<S>, errs: seq<Error>, a: Action)
    requires Progress(perform, failFast, xs, ys, w, now, errs) && |ys| < |xs| && !Stopped(failFast, errs)
    requires Stained(xs[|ys|], a, now.runtime)
    ensures var (now', errs') := Round(perform, a, now, errs);
            Progress(perform, failFast, xs, ys + [a], w, now', errs')
  {
    LoopSnoc(perform, failFast, ys, a, w, []);
    var zs := ys + [a];
    forall i | 0 <= i < |zs| ensures Stained(xs[i], zs[i], Loop(perform, failFast, zs[..i], w, []).0.runtime) {
      assert zs[..i] == ys[..i];
      assert i == |ys| ==> ys[..i] == ys;
    }
  }

  // After a stop the other actions do not matter.
  lemma {:induction false} ProgressRest<S(!new)>(perform: (Action, World<S>) -> (World<S>, seq<Error>), failFast: bool,
      xs: seq<Action>, ys: seq<Action>, w: World<S>, now: World<S>, errs: seq<Error>, rest: seq<Action>)
    requires Progress(perform, failFast, xs, ys, w, now, errs) && |ys| + |rest| <= |xs| && Stopped(failFast, errs)
    requires forall i :: 0 <= i < |rest| ==> Stained(xs[|ys| + i], rest[i], now.runtime)
    ensures Progress(perform, failFast, xs, ys + rest, w, now, errs)
    decreases |rest|
  {
    if rest == [] {
      assert ys + rest == ys;
    } else {
      var zs := ys + [rest[0]];
      LoopSnoc(perform, failFast, ys, rest[0], w, []);
      forall i | 0 <= i < |zs| ensures Stained(xs[i], zs[i], Loop(perform, failFast, zs[..i], w, []).0.runtime) {
        assert zs[..i] == ys[..i];
        assert i == |ys| ==> ys[..i] == ys;
      }
      assert ys + rest == zs + rest[1..];
      ProgressRest(perform, failFast, xs, zs, w, now, errs, rest[1..]);
    }
  }

  lemma {:induction false} TurnsUpTo<S(!new)>(perform: (Action, World<S>) -> (World<S>, seq<Error>), failFast: bool,
      xs: seq<Action>, ys: seq<Action>, w: World<S>, n: nat)
    requires Indifferent(perform) && InTurn(perform, failFast, xs, ys, w) && |xs| == |ys| && n <= |xs|
    ensures var (u1, e1) := Loop(perform, failFast, xs[..n], w, []);
            var (u2, e2) := Loop(perform, failFast, ys[..n], w, []);
            Alike(u1, u2) && e1 == e2
  {
    if n > 0 {
      TurnsUpTo(perform, failFast, xs, ys, w, n - 1);
      assert xs[..n] == xs[..n - 1] + [xs[n - 1]] && ys[..n] == ys[..n - 1] + [ys[n - 1]];
      LoopSnoc(perform, failFast, xs[..n - 1], xs[n - 1], w, []);
      LoopSnoc(perform, failFast, ys[..n - 1], ys[n - 1], w, []);
      var (u1, e1) := Loop(perform, failFast, xs[..n - 1], w, []);
      var (u2, e2) := Loop(perform, failFast, ys[..n - 1], w, []);
      assert Stained(xs[n - 1], ys[n - 1], u2.runtime) && u1.runtime == u2.runtime;
      RoundsAlike(perform, xs[n - 1], ys[n - 1], u1, u2, e1);
    }
  }

  lemma RoundsAlike<S(!new)>(perform: (Action, World<S>) -> (World<S>, seq<Error>), a: Action, b: Action,
      w1: World<S>, w2: World<S>, errs: seq<Error>)
    requires Indifferent(perform) && Alike(w1, w2) && Stained(a, b, w1.runtime)
    ensures var (u1, e1) := Round(perform, a, w1, errs);
            var (u2, e2) := Round(perform, b, w2, errs);
            Alike(u1, u2) && e1 == e2
  {
  }

  lemma PerformerIsIndifferent<S(!new)>(x: Ctx<S>, cm: Option<Manager>)
    requires Tolerant(cm)
    ensures Indifferent(Performer(x, cm))
  {
    forall a, b, w1: World<S>, w2: World<S> | Alike(w1, w2) && Stained(a, b, w1.runtime)
      ensures var (u1, e1) := Performer(x, cm)(a, w1);
              var (u2, e2) := Performer(x, cm)(b, w2);
              Alike(u1, u2) && e1 == e2 && w1.runtime.Keys <= u1.runtime.Keys
    {
      PerformAlike(x, cm, a, b, w1, w2);
    }
  }

  // And it makes no difference that actions share a map: the run of the actions
  // as they stand when their turn comes is the run of the actions as they stood
  // at the beginning.
  lemma TurnsDoNotMatter<S(!new)>(x: Ctx<S>, cm: Option<Manager>, failFast: bool, xs: seq<Action>, ys: seq<Action>,
      w: World<S>)
    requires Tolerant(cm) && InTurn(Performer(x, cm), failFast, xs, ys, w) && |xs| == |ys|
    ensures var (u1, errs1) := Execute(x, cm, failFast, xs, w);
            var (u2, errs2) := Execute(x, cm, failFast, ys, w);
            Alike(u1, u2) && errs1 == errs2
  {
    PerformerIsIndifferent(x, cm);
    TurnsUpTo(Performer(x, cm), failFast, xs, ys, w, |xs|);
    assert xs[..|xs|] == xs && ys[..|ys|] == ys;
  }

  // A manager that is not tolerant sees the difference: it may refuse, or change,
  // what a captured value has been written to.
  function Picky(): Manager {
    Manager((a: Action) => if "i" in a.variables then None else Some(Replaced(a.payload, a.patchPayload, a.variables)))
  }

  lemma PickyIsNotTolerant(a: Action)
    requires a.variables == map[]
    ensures var b, runtime := a.(variables := map["i" := "7"]), map["i" := "7"];
            && Stained(a, b, runtime)
            && ReplaceErrors(Some(Picky()), a) == [] && ReplaceErrors(Some(Picky()), b) != []
            && !Tolerant(Some(Picky()))
  {
    var b, runtime := a.(variables := map["i" := "7"]), map["i" := "7"];
    assert b.variables + runtime == a.variables + runtime;
    assert Stained(a, b, runtime);
  }
}

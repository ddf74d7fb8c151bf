// A whole run: the loop of `Execute` over an ordered list of actions
// (seeder/seeder.go).
module Runs {
  import opened Wire
  import opened Text
  import opened Engine

  // configmanager, applied to an action: new templates and variables, or an error.
  datatype Replaced = Replaced(payload: string, patchPayload: string, variables: Bindings)

  datatype Manager = Manager(replace: Action -> Option<Replaced>)

  function EffectiveOrder(a: Action): int {
    match a.order case Some(n) => n case None => 999
  }

  ghost predicate Sorted(acts: seq<Action>) {
    forall i, j :: 0 <= i < j < |acts| ==> EffectiveOrder(acts[i]) <= EffectiveOrder(acts[j])
  }

  // Which of two values of the field may come first: one below 999 comes before
  // an absent one, one above 999 after it.
  predicate MayPrecede(first: Option<int>, second: Option<int>) {
    match (first, second)
    case (Some(m), Some(n)) => m <= n
    case (Some(m), None) => m <= 999
    case (None, Some(n)) => 999 <= n
    case (None, None) => true
  }

  ghost predicate RespectsOrder(acts: seq<Action>) {
    forall i, j :: 0 <= i < j < |acts| ==> MayPrecede(acts[i].order, acts[j].order)
  }

  // The sorted lists are those that respect the field, in which an absent Order
  // and one of 999 are tied.
  lemma SortedByOrder(acts: seq<Action>)
    ensures Sorted(acts) <==> RespectsOrder(acts)
  {
    forall a: Action, b: Action
      ensures EffectiveOrder(a) <= EffectiveOrder(b) <==> MayPrecede(a.order, b.order)
    {
    }
    if RespectsOrder(acts) {
      forall i, j | 0 <= i < j < |acts| ensures EffectiveOrder(acts[i]) <= EffectiveOrder(acts[j]) {
        assert MayPrecede(acts[i].order, acts[j].order);
      }
    }
  }

  predicate Known(a: Action) {
    Registered(a.strategy).Some?
  }

  // configManagerReplaceAction: a failed replacement leaves the action as it is.
  function Effective(cm: Option<Manager>, a: Action): Action {
    match cm
    case None => a
    case Some(m) =>
      match m.replace(a)
      case None => a
      case Some(r) => a.(payload := r.payload, patchPayload := r.patchPayload, variables := r.variables)
  }

  function ReplaceErrors(cm: Option<Manager>, a: Action): seq<Error> {
    if cm.Some? && cm.value.replace(a).None? then [Plain("Error while replacing secrets placeholders in actions")]
    else []
  }

  function AsList(e: Option<Error>): seq<Error> {
    match e case None => [] case Some(x) => [x]
  }

  // performAction, without the errors that it is handed. The action is a copy
  // of the stored one, so its private id starts out empty.
  function Perform<S>(x: Ctx<S>, cm: Option<Manager>, a: Action, w: World<S>): (World<S>, seq<Error>) {
    match Registered(a.strategy)
    case None => (w, [])
    case Some(s) =>
      var (w', err) := RunStrategy(x, s, Effective(cm, a), "", w);
      (w', ReplaceErrors(cm, a) + AsList(err))
  }

  function Performer<S>(x: Ctx<S>, cm: Option<Manager>): (Action, World<S>) -> (World<S>, seq<Error>) {
    (a, w) => Perform(x, cm, a, w)
  }

  // The loop of Execute, with the list of errors so far, for any way of
  // performing an action.
  function Loop<W>(perform: (Action, W) -> (W, seq<Error>), failFast: bool, acts: seq<Action>, w: W,
      errs: seq<Error>): (W, seq<Error>) {
    if acts == [] then (w, errs)
    else if !Known(acts[0]) then Loop(perform, failFast, acts[1..], w, errs)
    else
      var (w', raised) := perform(acts[0], w);
      var returned := errs + raised;
      if returned == [] then Loop(perform, failFast, acts[1..], w', errs)
      else if failFast then (w', errs + returned)
      else Loop(perform, failFast, acts[1..], w', errs + returned)
  }

  // One performed action: the worlds around it and the errors it raised.
  datatype Deed<W> = Deed(action: Action, before: W, after: W, raised: seq<Error>)

  // The actions that a run performs, up to the one at which FailFast stops it.
  function Deeds<W>(perform: (Action, W) -> (W, seq<Error>), failFast: bool, acts: seq<Action>, w: W): seq<Deed<W>> {
    if acts == [] then []
    else if !Known(acts[0]) then Deeds(perform, failFast, acts[1..], w)
    else
      var (w', raised) := perform(acts[0], w);
      [Deed(acts[0], w, w', raised)] +
      (if raised != [] && failFast then [] else Deeds(perform, failFast, acts[1..], w'))
  }

  // Each action that a run performs finds what `ok` says of it and the world.
  ghost predicate Throughout<W>(ok: (Action, W) -> bool, perform: (Action, W) -> (W, seq<Error>), failFast: bool,
      acts: seq<Action>, w: W)
    decreases |acts|
  {
    acts != [] ==>
      if !Known(acts[0]) then Throughout(ok, perform, failFast, acts[1..], w)
      else
        ok(acts[0], w) &&
        var (w', raised) := perform(acts[0], w);
        (raised != [] && failFast) || Throughout(ok, perform, failFast, acts[1..], w')
  }

  function EndOf<W>(deeds: seq<Deed<W>>, w: W): W {
    if deeds == [] then w else deeds[|deeds| - 1].after
  }

  function Raised<W>(deeds: seq<Deed<W>>): seq<seq<Error>> {
    if deeds == [] then [] else [deeds[0].raised] + Raised(deeds[1..])
  }

  // A full Execute on an already ordered list; the result is nil iff no errors.
  function Execute<S>(x: Ctx<S>, cm: Option<Manager>, failFast: bool, acts: seq<Action>, w: World<S>): (World<S>,
      seq<Error>) {
    Loop(Performer(x, cm), failFast, acts, w, [])
  }

  // One Execute after another on the same seeder, each with its own order.
  function Executions<S>(x: Ctx<S>, cm: Option<Manager>, failFast: bool, runs: seq<seq<Action>>,
      w: World<S>): World<S> {
    if runs == [] then w
    else Executions(x, cm, failFast, runs[1..], Execute(x, cm, failFast, runs[0], w).0)
  }
}

// How runs stay on target. Either templates always read the same, or what they
// mention is captured earlier in the same run: then FailFast and an order that
// puts the capturing action first keep later actions from running without it.
module Guidance {
  import opened Wire
  import opened Engine
  import opened Text
  import opened Runs
  import opened Steady
  import opened Store
  import opened Attempts
  import opened Convergence
  import opened Confluence

  // The actions that must have been performed before this one in the same run.
  type Needs = Action -> set<Action>

  // What holds once these actions have returned nil in the current run.
  type Stage<!W> = (set<Action>, W) -> bool

  // An action whose needs are met finds what `ok` asks for. If it returns nil it
  // brings the next stage; if not, what holds at the beginning of a run remains.
  ghost predicate Guides<W(!new)>(ok: (Action, W) -> bool, perform: (Action, W) -> (W, seq<Error>),
      acts: set<Action>, needs: Needs, stage: Stage<W>) {
    && (forall done, w :: stage(done, w) ==> stage({}, w))
    && (forall act, done, w {:trigger perform(act, w), stage(done, w)} {:trigger ok(act, w), stage(done, w)} ::
          act in acts && needs(act) <= done && stage(done, w) ==>
          ok(act, w) && Advances(stage, act, done, perform(act, w)))
  }

  ghost predicate Advances<W>(stage: Stage<W>, act: Action, done: set<Action>, out: (W, seq<Error>)) {
    if out.1 == [] then stage(done + {act}, out.0) else stage({}, out.0)
  }

  // The known actions come from `acts`, each after those that it needs.
  ghost predicate NeedsMet(acts: set<Action>, needs: Needs, run: seq<Action>, done: set<Action>)
    decreases |run|
  {
    run != [] ==>
      if !Known(run[0]) then NeedsMet(acts, needs, run[1..], done)
      else run[0] in acts && needs(run[0]) <= done && NeedsMet(acts, needs, run[1..], done + {run[0]})
  }

  ghost predicate NeedNothing(acts: set<Action>, needs: Needs) {
    forall act <- acts :: needs(act) == {}
  }

  lemma {:induction false} NothingNeeded(acts: set<Action>, needs: Needs, run: seq<Action>, done: set<Action>,
      done': set<Action>)
    requires NeedNothing(acts, needs) && NeedsMet(acts, needs, run, done)
    ensures NeedsMet(acts, needs, run, done')
    decreases |run|
  {
    if run != [] {
      if Known(run[0]) {
        NothingNeeded(acts, needs, run[1..], done + {run[0]}, done' + {run[0]});
      } else {
        NothingNeeded(acts, needs, run[1..], done, done');
      }
    }
  }

  // With FailFast, or if nothing is needed, a run finds what it asks for all
  // along, whatever fails in it, and the next one can begin.
  lemma {:induction false} GuidedThroughout<W(!new)>(ok: (Action, W) -> bool,
      perform: (Action, W) -> (W, seq<Error>), acts: set<Action>, needs: Needs, stage: Stage<W>, failFast: bool,
      run: seq<Action>, w: W, errs: seq<Error>, done: set<Action>)
    requires Guides(ok, perform, acts, needs, stage) && stage(done, w)
    requires NeedsMet(acts, needs, run, done) && (failFast || NeedNothing(acts, needs))
    ensures Throughout(ok, perform, failFast, run, w) && stage({}, Loop(perform, failFast, run, w, errs).0)
    decreases |run|
  {
    if run == [] {
    } else if !Known(run[0]) {
      GuidedThroughout(ok, perform, acts, needs, stage, failFast, run[1..], w, errs, done);
    } else {
      var (w', raised) := perform(run[0], w);
      var done' := if raised == [] then done + {run[0]} else {};
      var errs' := if errs + raised == [] then errs else errs + (errs + raised);
      if raised == [] || !failFast {
        if raised != [] {
          NothingNeeded(acts, needs, run[1..], done + {run[0]}, {});
        }
        GuidedThroughout(ok, perform, acts, needs, stage, failFast, run[1..], w', errs', done');
      }
    }
  }

  // A run consists of planned actions and unknown ones.
  ghost predicate Planned(acts: set<Action>, run: seq<Action>) {
    forall act <- run :: Known(act) ==> act in acts
  }

  // Later in Order than what it needs.
  ghost predicate OrderedAfter(run: seq<Action>, a: Action, needed: set<Action>) {
    forall b <- needed :: Known(b) && b in run && EffectiveOrder(b) < EffectiveOrder(a)
  }

  // An action that comes later in Order than those it needs comes after them in
  // every sorted run.
  lemma {:induction false} OrderMeetsNeeds(acts: set<Action>, needs: Needs, run: seq<Action>, n: nat,
      done: set<Action>)
    requires Sorted(run) && n <= |run| && done == (set i | 0 <= i < n && Known(run[i]) :: run[i])
    requires Planned(acts, run)
    requires forall a <- acts :: OrderedAfter(run, a, needs(a))
    ensures NeedsMet(acts, needs, run[n..], done)
    decreases |run| - n
  {
    if n < |run| {
      assert run[n..][0] == run[n] && run[n..][1..] == run[n + 1..];
      if Known(run[n]) {
        assert run[n] in run && OrderedAfter(run, run[n], needs(run[n]));
        forall b | b in needs(run[n]) ensures b in done {
          var i :| 0 <= i < |run| && run[i] == b;
        }
        OrderMeetsNeeds(acts, needs, run, n + 1, done + {run[n]});
      } else {
        OrderMeetsNeeds(acts, needs, run, n + 1, done);
      }
    }
  }

  ghost predicate AllNeedsMet(acts: set<Action>, needs: Needs, runs: seq<seq<Action>>) {
    forall run <- runs :: NeedsMet(acts, needs, run, {})
  }

  // What every action finds and keeps.
  ghost predicate Keeps<W(!new)>(ok: (Action, W) -> bool, perform: (Action, W) -> (W, seq<Error>), acts: set<Action>,
      inv: W -> bool) {
    forall act, w :: act in acts && inv(w) ==> ok(act, w) && inv(perform(act, w).0)
  }

  // Without needs, and with one condition for all stages.
  lemma KeptGuides<W(!new)>(ok: (Action, W) -> bool, perform: (Action, W) -> (W, seq<Error>), acts: set<Action>,
      inv: W -> bool, stage: Stage<W>)
    requires Keeps(ok, perform, acts, inv) && forall done, w :: stage(done, w) <==> inv(w)
    ensures Guides(ok, perform, acts, NothingFor, stage)
  {
  }

  function NothingFor(act: Action): set<Action> {
    {}
  }

  lemma {:induction false} PlannedNeedsMet(acts: set<Action>, run: seq<Action>, done: set<Action>)
    requires Planned(acts, run)
    ensures NeedsMet(acts, NothingFor, run, done)
    decreases |run|
  {
    if run != [] {
      assert run[0] in run;
      PlannedNeedsMet(acts, run[1..], if Known(run[0]) then done + {run[0]} else done);
    }
  }

  // Any number of runs, whatever fails in them.
  lemma {:induction false} GuidedHistory(e: Setting, plan: Plan, faults: nat -> Fault, needs: Needs,
      stage: Stage<World<Backend>>, failFast: bool, runs: seq<seq<Action>>, w: World<Backend>)
    requires Guides(AimOf(e, plan), Doing(e, faults), plan.Keys, needs, stage) && stage({}, w)
    requires AllNeedsMet(plan.Keys, needs, runs) && (failFast || NeedNothing(plan.Keys, needs))
    ensures AllOnTarget(e, plan, faults, failFast, runs, w)
    ensures stage({}, Executions(Realm(e, faults), e.cm, failFast, runs, w))
    decreases |runs|
  {
    if runs != [] {
      assert runs[0] in runs && forall run <- runs[1..] :: run in runs;
      GuidedThroughout(AimOf(e, plan), Doing(e, faults), plan.Keys, needs, stage, failFast, runs[0], w, [], {});
      GuidedHistory(e, plan, faults, needs, stage, failFast, runs[1..],
          Execute(Realm(e, faults), e.cm, failFast, runs[0], w).0);
    }
  }

  lemma KeptHistory(e: Setting, plan: Plan, faults: nat -> Fault, inv: World<Backend> -> bool, failFast: bool,
      runs: seq<seq<Action>>, w: World<Backend>)
    requires Keeps(AimOf(e, plan), Doing(e, faults), plan.Keys, inv) && inv(w)
    requires forall run <- runs :: Planned(plan.Keys, run)
    ensures AllOnTarget(e, plan, faults, failFast, runs, w)
  {
    var stage: Stage<World<Backend>> := (done, w1) => inv(w1);
    KeptGuides(AimOf(e, plan), Doing(e, faults), plan.Keys, inv, stage);
    forall run | run in runs ensures NeedsMet(plan.Keys, NothingFor, run, {}) {
      PlannedNeedsMet(plan.Keys, run, {});
    }
    GuidedHistory(e, plan, faults, NothingFor, stage, failFast, runs, w);
  }

  lemma KeptRun<W(!new)>(ok: (Action, W) -> bool, perform: (Action, W) -> (W, seq<Error>), acts: set<Action>,
      inv: W -> bool, failFast: bool, run: seq<Action>, w: W)
    requires Keeps(ok, perform, acts, inv) && inv(w) && Planned(acts, run)
    ensures Throughout(ok, perform, failFast, run, w) && inv(Loop(perform, failFast, run, w, []).0)
  {
    var stage: Stage<W> := (done, w1) => inv(w1);
    KeptGuides(ok, perform, acts, inv, stage);
    PlannedNeedsMet(acts, run, {});
    GuidedThroughout(ok, perform, acts, NothingFor, stage, failFast, run, w, [], {});
  }

  // ---- Templates that always read the same ----

  function Ours(cm: Option<Manager>, plan: Plan): set<Action> {
    set act | act in plan :: Effective(cm, act)
  }

  // The ids that the planned actions can find.
  ghost function IdsOf(e: Setting, plan: Plan): Finding {
    (a, id) => exists act :: act in plan && Effective(e.cm, act) == a && Findable(e.service, plan[act], id)
  }

  // The same requests, as far as the action can send them.
  ghost predicate Same(v: Service, g: Target, reqs1: Requests, reqs2: Requests) {
    forall h: seq<Sent>, verb, id: string :: MaySend(g.strategy, verb, id) && (id != "" ==> Findable(v, g, id)) ==>
      reqs1(h, verb, id) == reqs2(h, verb, id)
  }

  lemma SameAddress(lib: Library, v: Service, g: Target, a: Action, reqs1: Requests, reqs2: Requests)
    requires Same(v, g, reqs1, reqs2) && Addressed(lib, v, g, a, reqs1)
    ensures Addressed(lib, v, g, a, reqs2)
  {
    if SendsGet(g.strategy) {
      assert reqs2([], GET, "") == reqs1([], GET, "");
    }
  }

  // The plan's actions, with the templates as they read from `init` alone, are
  // addressed to their targets.
  ghost predicate AddressedFrom(e: Setting, plan: Plan, init: Bindings) {
    forall act <- plan ::
      && Registered(act.strategy) == Some(plan[act].strategy)
      && var a := Effective(e.cm, act); Addressed(e.lib, e.service, plan[act], a, RequestsOf(e.lib, a, init))
  }

  lemma UndisturbedIsSame(e: Setting, plan: Plan, init: Bindings, act: Action, w: World<Backend>)
    requires act in plan && Registered(act.strategy) == Some(plan[act].strategy)
    requires Independent(e.lib, IdsOf(e, plan), Ours(e.cm, plan))
    requires Undisturbed(e.lib, IdsOf(e, plan), Ours(e.cm, plan), init, w)
    ensures var a := Effective(e.cm, act);
            Same(e.service, plan[act], RequestsOf(e.lib, a, init), RequestsAt(e.lib, a, w))
  {
    var a := Effective(e.cm, act);
    var reqs1, reqs2 := RequestsOf(e.lib, a, init), RequestsAt(e.lib, a, w);
    forall h: seq<Sent>, verb, id: string |
      MaySend(plan[act].strategy, verb, id) && (id != "" ==> Findable(e.service, plan[act], id))
      ensures reqs1(h, verb, id) == reqs2(h, verb, id)
    {
      UndisturbedRequests(e.lib, IdsOf(e, plan), Ours(e.cm, plan), init, a, w, h, verb, id);
    }
  }

  lemma UndisturbedIsOnTarget(e: Setting, plan: Plan, init: Bindings, act: Action, w: World<Backend>)
    requires AddressedFrom(e, plan, init) && Independent(e.lib, IdsOf(e, plan), Ours(e.cm, plan)) && act in plan
    requires Undisturbed(e.lib, IdsOf(e, plan), Ours(e.cm, plan), init, w)
    ensures AddressedAt(e, plan, act, w)
  {
    var a := Effective(e.cm, act);
    var reqs1, reqs2 := RequestsOf(e.lib, a, init), RequestsAt(e.lib, a, w);
    UndisturbedIsSame(e, plan, init, act, w);
    SameAddress(e.lib, e.service, plan[act], a, reqs1, reqs2);
  }

  // When no template mentions what another action binds or any response
  // captures, every history of runs is on target, with or without FailFast.
  lemma IndependentIsOnTarget(e: Setting, plan: Plan, init: Bindings, faults: nat -> Fault, failFast: bool,
      runs: seq<seq<Action>>, w: World<Backend>)
    requires Independent(e.lib, IdsOf(e, plan), Ours(e.cm, plan)) && AddressedFrom(e, plan, init)
    requires Undisturbed(e.lib, IdsOf(e, plan), Ours(e.cm, plan), init, w)
    requires forall run <- runs :: Planned(plan.Keys, run)
    ensures AllOnTarget(e, plan, faults, failFast, runs, w)
  {
    var inv: World<Backend> -> bool := w1 => Undisturbed(e.lib, IdsOf(e, plan), Ours(e.cm, plan), init, w1);
    assert Keeps(AimOf(e, plan), Doing(e, faults), plan.Keys, inv) by {
      forall act, w1 | act in plan && inv(w1) ensures AddressedAt(e, plan, act, w1) && inv(Doing(e, faults)(act, w1).0)
      {
        UndisturbedIsOnTarget(e, plan, init, act, w1);
        PerformDisturbsNothing(Realm(e, faults), e.cm, IdsOf(e, plan), Ours(e.cm, plan), init, act, w1);
      }
    }
    KeptHistory(e, plan, faults, inv, failFast, runs, w);
  }

  // ---- The same for services that derive ids from contents ----

  lemma SameStableAddress(lib: Library, v: Service, g: Target, a: Action, reqs1: Requests, reqs2: Requests)
    requires Same(v, g, reqs1, reqs2) && StablyAddressed(lib, v, g, a, reqs1)
    ensures StablyAddressed(lib, v, g, a, reqs2)
  {
    if SendsGet(g.strategy) {
      assert reqs2([], GET, "") == reqs1([], GET, "");
    }
  }

  ghost predicate StablyAddressedFrom(e: Setting, plan: Plan, init: Bindings) {
    forall act <- plan ::
      && Registered(act.strategy) == Some(plan[act].strategy)
      && var a := Effective(e.cm, act); StablyAddressed(e.lib, e.service, plan[act], a, RequestsOf(e.lib, a, init))
  }

  lemma UndisturbedIsStablyOnTarget(e: Setting, plan: Plan, init: Bindings, act: Action, w: World<Backend>)
    requires StablyAddressedFrom(e, plan, init) && Independent(e.lib, IdsOf(e, plan), Ours(e.cm, plan)) && act in plan
    requires Undisturbed(e.lib, IdsOf(e, plan), Ours(e.cm, plan), init, w)
    ensures StablyAddressedAt(e, plan, act, w)
  {
    var a := Effective(e.cm, act);
    var reqs1, reqs2 := RequestsOf(e.lib, a, init), RequestsAt(e.lib, a, w);
    UndisturbedIsSame(e, plan, init, act, w);
    SameStableAddress(e.lib, e.service, plan[act], a, reqs1, reqs2);
  }

  lemma IndependentIsStablyOnTarget(e: Setting, plan: Plan, init: Bindings, failFast: bool, run: seq<Action>,
      w: World<Backend>)
    requires Independent(e.lib, IdsOf(e, plan), Ours(e.cm, plan)) && StablyAddressedFrom(e, plan, init)
    requires Undisturbed(e.lib, IdsOf(e, plan), Ours(e.cm, plan), init, w)
    requires Planned(plan.Keys, run)
    ensures StablyOnTarget(e, plan, failFast, run, w)
  {
    var inv: World<Backend> -> bool := w1 => Undisturbed(e.lib, IdsOf(e, plan), Ours(e.cm, plan), init, w1);
    assert Keeps(StableAimOf(e, plan), Doing(e, NoFaults()), plan.Keys, inv) by {
      forall act, w1 | act in plan && inv(w1)
        ensures StablyAddressedAt(e, plan, act, w1) && inv(Doing(e, NoFaults())(act, w1).0)
      {
        UndisturbedIsStablyOnTarget(e, plan, init, act, w1);
        PerformDisturbsNothing(Realm(e, NoFaults()), e.cm, IdsOf(e, plan), Ours(e.cm, plan), init, act, w1);
      }
    }
    KeptRun(StableAimOf(e, plan), Doing(e, NoFaults()), plan.Keys, inv, failFast, run, w);
  }
}

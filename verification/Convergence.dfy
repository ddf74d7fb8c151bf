// Whole runs against a store whose requests may fail: repeating Execute until
// it returns nil does what one undisturbed run does, and from then on no
// further run changes anything.
module Convergence {
  import opened Wire
  import opened Text
  import opened Engine
  import opened Runs
  import opened Steady
  import opened Store
  import opened Attempts
  import opened Retry

  // The supplied actions with known strategies, and what each is for.
  type Plan = map<Action, Target>

  datatype Setting = Setting(lib: Library, service: Service, cm: Option<Manager>)

  function Realm(e: Setting, faults: nat -> Fault): Ctx<Backend> {
    Ctx(e.lib, Server(e.service, faults))
  }

  type Performing = (Action, World<Backend>) -> (World<Backend>, seq<Error>)

  function Doing(e: Setting, faults: nat -> Fault): Performing {
    Performer(Realm(e, faults), e.cm)
  }

  // The action, as its templates read in this world, is addressed to its target.
  ghost predicate AddressedAt(e: Setting, plan: Plan, act: Action, w: World<Backend>) {
    act in plan && Registered(act.strategy) == Some(plan[act].strategy) &&
    var a := Effective(e.cm, act);
    Addressed(e.lib, e.service, plan[act], a, RequestsAt(e.lib, a, w))
  }

  type Aim = (Action, World<Backend>) -> bool

  ghost function AimOf(e: Setting, plan: Plan): Aim {
    (act, w) => AddressedAt(e, plan, act, w)
  }

  // Every action that the run performs is addressed to its target when its turn
  // comes, whatever has been captured by then.
  ghost predicate OnTarget(e: Setting, plan: Plan, faults: nat -> Fault, failFast: bool, acts: seq<Action>,
      w: World<Backend>) {
    Throughout(AimOf(e, plan), Doing(e, faults), failFast, acts, w)
  }

  ghost predicate AllOnTarget(e: Setting, plan: Plan, faults: nat -> Fault, failFast: bool, runs: seq<seq<Action>>,
      w: World<Backend>)
    decreases |runs|
  {
    runs != [] ==>
      && OnTarget(e, plan, faults, failFast, runs[0], w)
      && AllOnTarget(e, plan, faults, failFast, runs[1..], Execute(Realm(e, faults), e.cm, failFast, runs[0], w).0)
  }

  // What the one writes does not come to belong to the other.
  ghost predicate LeavesAlone(v: Service, g: Target, h: Target) {
    && (ByKey(g.strategy) && g.claim.Exactly? ==> !Owns(v, h.claim, g.claim.key, g.content))
    && (g.posts || Finds(g.strategy) ==>
          forall id: string :: id != "" && g.assigns(id) ==> !Owns(v, h.claim, Key(CollOf(g.claim), id), g.content))
    && (Looks(g) && g.strategy.FindPutPost? ==>
          forall k, c :: Owns(v, g.claim, k, c) && !Owns(v, h.claim, k, c) ==> !Owns(v, h.claim, k, g.content))
    && (Looks(g) && g.strategy.FindPatchPost? ==>
          forall k, c :: Owns(v, g.claim, k, c) && !Owns(v, h.claim, k, c) ==>
              !Owns(v, h.claim, k, v.merge(c, g.patch)))
  }

  // Every action leaves the others' items alone.
  ghost predicate Sensible(e: Setting, plan: Plan) {
    && (forall act <- plan :: Registered(act.strategy) == Some(plan[act].strategy) && Proper(e.service, plan[act]))
    && (forall a1, a2 :: a1 in plan && a2 in plan && a1 != a2 ==> LeavesAlone(e.service, plan[a1], plan[a2]))
  }

  // No item belongs to two actions.
  ghost predicate SeparateIn(v: Service, c1: Claim, c2: Claim, s: Items) {
    forall k <- s :: !(Owns(v, c1, k, s[k]) && Owns(v, c2, k, s[k]))
  }

  ghost predicate Separate(e: Setting, plan: Plan, s: Items) {
    forall a1, a2 :: a1 in plan && a2 in plan && a1 != a2 ==> SeparateIn(e.service, plan[a1].claim, plan[a2].claim, s)
  }

  // All planned actions are run.
  ghost predicate Covers(plan: Plan, acts: seq<Action>) {
    forall act <- plan :: act in acts
  }

  function ZoneOf(e: Setting, plan: Plan, act: Action, s: Items): Items
    requires act in plan
  {
    Zone(e.service, plan[act].claim, s)
  }

  // The items that no action is responsible for.
  function Others(e: Setting, plan: Plan, s: Items): Items {
    map k | k in s && (forall act <- plan :: !Owns(e.service, plan[act].claim, k, s[k])) :: s[k]
  }

  // ---- What an attempt writes, and whose it is ----

  // An item of the zone after an attempt is as it was, or was written.
  ghost predicate WrittenBy(v: Service, g: Target, z: Items, k: Key, c: string) {
    || (ByKey(g.strategy) && g.claim.Exactly? && k == g.claim.key && c == g.content)
    || ((g.posts || Finds(g.strategy)) && k.coll == CollOf(g.claim) && k.id != "" && g.assigns(k.id) && c == g.content)
    || (Looks(g) && g.strategy.FindPutPost? && k in z && c == g.content)
    || (Looks(g) && g.strategy.FindPatchPost? && k in z && c == v.merge(z[k], g.patch))
  }

  lemma ZoneAfter(v: Service, g: Target, z: Items, z': Items, ok: bool, k: Key)
    requires Allowed(v, g, z, z', ok) && k in z'
    ensures (k in z && z'[k] == z[k]) || WrittenBy(v, g, z, k, z'[k])
  {
    if Created(g, z, z') {
      var id :| CreatedAs(g, z, z', id);
    } else if z != map[] && Created(g, z - {FirstKey(v, g.claim, z)}, z') {
      var id :| CreatedAs(g, z - {FirstKey(v, g.claim, z)}, z', id);
    }
  }

  // An item of the zone that has changed does not belong to another action.
  lemma ChangedIsOwn(v: Service, g: Target, h: Target, s: Items, s': Items, ok: bool, k: Key)
    requires Contained(v, g, s, s', ok) && LeavesAlone(v, g, h) && SeparateIn(v, g.claim, h.claim, s)
    requires k in s' && Owns(v, g.claim, k, s'[k])
    ensures (k in s && s'[k] == s[k]) || !Owns(v, h.claim, k, s'[k])
  {
    var z, z' := Zone(v, g.claim, s), Zone(v, g.claim, s');
    assert k in z';
    ZoneAfter(v, g, z, z', ok, k);
  }

  lemma StaysSeparate(v: Service, g: Target, h1: Target, h2: Target, s: Items, s': Items, ok: bool)
    requires Contained(v, g, s, s', ok) && LeavesAlone(v, g, h1) && SeparateIn(v, g.claim, h1.claim, s)
    requires SeparateIn(v, h1.claim, h2.claim, s)
    ensures SeparateIn(v, h1.claim, h2.claim, s')
  {
    forall k | k in s' ensures !(Owns(v, h1.claim, k, s'[k]) && Owns(v, h2.claim, k, s'[k])) {
      if Owns(v, g.claim, k, s'[k]) {
        ChangedIsOwn(v, g, h1, s, s', ok, k);
      } else {
        assert k in Outside(v, g.claim, s');
      }
    }
  }

  lemma OwnStaysSeparate(v: Service, g: Target, h: Target, s: Items, s': Items, ok: bool)
    requires Contained(v, g, s, s', ok) && LeavesAlone(v, g, h) && SeparateIn(v, g.claim, h.claim, s)
    ensures SeparateIn(v, g.claim, h.claim, s') && SeparateIn(v, h.claim, g.claim, s')
    ensures Zone(v, h.claim, s') == Zone(v, h.claim, s)
  {
    forall k | k in s' ensures !(Owns(v, g.claim, k, s'[k]) && Owns(v, h.claim, k, s'[k])) {
      if Owns(v, g.claim, k, s'[k]) {
        ChangedIsOwn(v, g, h, s, s', ok, k);
      }
    }
    SeparateZones(v, g.claim, h.claim, s, s');
  }

  // One performed action changes its own zone only, and completes it if it
  // raises nothing.
  ghost predicate ChangesOnly(e: Setting, plan: Plan, act: Action, s: Items, s': Items, ok: bool)
    requires act in plan
  {
    && Contained(e.service, plan[act], s, s', ok)
    && (forall other <- plan :: other != act ==> ZoneOf(e, plan, other, s') == ZoneOf(e, plan, other, s))
    && Others(e, plan, s') == Others(e, plan, s)
  }

  lemma PerformChangesOnly(e: Setting, plan: Plan, faults: nat -> Fault, act: Action, w: World<Backend>)
    requires Sensible(e, plan) && AddressedAt(e, plan, act, w) && Separate(e, plan, w.server.items)
    ensures var (w', raised) := Perform(Realm(e, faults), e.cm, act, w);
            && ChangesOnly(e, plan, act, w.server.items, w'.server.items, raised == [])
            && Separate(e, plan, w'.server.items)
  {
    var g, a := plan[act], Effective(e.cm, act);
    var reqs := RequestsAt(e.lib, a, w);
    PerformIsDrive(Realm(e, faults), e.cm, g.strategy, act, w);
    AttemptIsBounded(e.lib, e.service, faults, g, a, reqs, w.server);
    var (w', raised) := Perform(Realm(e, faults), e.cm, act, w);
    var out := Attempt(e.lib, e.service, faults, g, a, reqs, w.server);
    NilIsCompleted(e, g, w.server.items, w'.server.items, out.1, ReplaceErrors(e.cm, act), raised);
    OthersAreKept(e, plan, act, w.server.items, w'.server.items, raised == []);
    SeparateIsKept(e, plan, act, w.server.items, w'.server.items, raised == []);
  }

  // If a whole performance raises nothing, neither did the strategy.
  lemma NilIsCompleted(e: Setting, g: Target, s: Items, s': Items, err: Option<Error>, replaceErrors: seq<Error>,
      raised: seq<Error>)
    requires Contained(e.service, g, s, s', err.None?) && raised == replaceErrors + AsList(err)
    ensures Contained(e.service, g, s, s', raised == [])
  {
  }

  lemma SeparateIsKept(e: Setting, plan: Plan, act: Action, s: Items, s': Items, ok: bool)
    requires Sensible(e, plan) && act in plan && Separate(e, plan, s) && Contained(e.service, plan[act], s, s', ok)
    ensures Separate(e, plan, s')
  {
    var v, g := e.service, plan[act];
    forall a1, a2 | a1 in plan && a2 in plan && a1 != a2 ensures SeparateIn(v, plan[a1].claim, plan[a2].claim, s') {
      assert SeparateIn(v, plan[a1].claim, plan[a2].claim, s);
      if a1 == act {
        OwnStaysSeparate(v, g, plan[a2], s, s', ok);
      } else {
        assert SeparateIn(v, g.claim, plan[a1].claim, s);
        StaysSeparate(v, g, plan[a1], plan[a2], s, s', ok);
      }
    }
  }

  lemma OthersAreKept(e: Setting, plan: Plan, act: Action, s: Items, s': Items, ok: bool)
    requires Sensible(e, plan) && act in plan && Separate(e, plan, s) && Contained(e.service, plan[act], s, s', ok)
    ensures forall other <- plan :: other != act ==> ZoneOf(e, plan, other, s') == ZoneOf(e, plan, other, s)
    ensures Others(e, plan, s') == Others(e, plan, s)
  {
    forall other | other in plan && other != act ensures ZoneOf(e, plan, other, s') == ZoneOf(e, plan, other, s) {
      assert SeparateIn(e.service, plan[act].claim, plan[other].claim, s);
      OwnStaysSeparate(e.service, plan[act], plan[other], s, s', ok);
    }
    var o, o' := Outside(e.service, plan[act].claim, s), Outside(e.service, plan[act].claim, s');
    forall k | k in Others(e, plan, s) ensures k in Others(e, plan, s') && s'[k] == s[k] {
      assert k in o;
    }
    forall k | k in Others(e, plan, s') ensures k in Others(e, plan, s) {
      assert k in o';
    }
  }

  // What the runs below rely on: an action that is on target changes only its
  // own zone, and keeps the zones separate.
  ghost predicate Confined(e: Setting, plan: Plan, aim: Aim, perform: Performing) {
    forall act, w :: aim(act, w) && Separate(e, plan, w.server.items) ==>
      act in plan &&
      var (w', raised) := perform(act, w);
      ChangesOnly(e, plan, act, w.server.items, w'.server.items, raised == []) && Separate(e, plan, w'.server.items)
  }

  lemma SensibleIsConfined(e: Setting, plan: Plan, faults: nat -> Fault)
    requires Sensible(e, plan)
    ensures Confined(e, plan, AimOf(e, plan), Doing(e, faults))
  {
    forall act, w | AddressedAt(e, plan, act, w) && Separate(e, plan, w.server.items)
      ensures var (w', raised) := Doing(e, faults)(act, w);
              && ChangesOnly(e, plan, act, w.server.items, w'.server.items, raised == [])
              && Separate(e, plan, w'.server.items)
    {
      PerformChangesOnly(e, plan, faults, act, w);
    }
  }

  lemma {:induction false} ErrorsStay<W>(perform: (Action, W) -> (W, seq<Error>), failFast: bool, acts: seq<Action>,
      w: W, errs: seq<Error>)
    requires errs != []
    ensures Loop(perform, failFast, acts, w, errs).1 != []
    decreases |acts|
  {
    if acts != [] {
      if !Known(acts[0]) {
        ErrorsStay(perform, failFast, acts[1..], w, errs);
      } else if !failFast {
        var (w', raised) := perform(acts[0], w);
        ErrorsStay(perform, failFast, acts[1..], w', errs + (errs + raised));
      }
    }
  }

  // ---- What runs keep and establish, zone by zone ----

  type Judgement = (Action, Items) -> bool

  // Whatever an action does to its zone keeps `ok`, and completing it makes `fin` true.
  ghost predicate Inductive(e: Setting, plan: Plan, ok: Judgement, fin: Judgement) {
    forall act, z: Items, z': Items :: act in plan && ok(act, z) && Possible(e.service, plan[act], z, z') ==>
      ok(act, z') && (Completed(e.service, plan[act], z, z') ==> fin(act, z'))
  }

  // Every zone is ok, those of the actions in `done` are finished, and what no
  // action is responsible for is as it was in `s0`.
  ghost predicate Held(e: Setting, plan: Plan, ok: Judgement, fin: Judgement, s0: Items, s: Items, done: set<Action>) {
    && Others(e, plan, s) == Others(e, plan, s0)
    && (forall act <- plan :: ok(act, ZoneOf(e, plan, act, s)))
    && (forall act <- plan :: act in done ==> fin(act, ZoneOf(e, plan, act, s)))
  }

  function KnownIn(acts: seq<Action>): set<Action> {
    set act | act in acts && Known(act)
  }

  // One run, successful or not; a nil result finishes all of its known actions.
  lemma {:induction false} RunHolds(e: Setting, plan: Plan, ok: Judgement, fin: Judgement, aim: Aim,
      perform: Performing, failFast: bool, acts: seq<Action>, w: World<Backend>, errs: seq<Error>, s0: Items,
      done: set<Action>)
    requires Confined(e, plan, aim, perform) && Inductive(e, plan, ok, fin)
    requires Throughout(aim, perform, failFast, acts, w) && Separate(e, plan, w.server.items)
    requires Held(e, plan, ok, fin, s0, w.server.items, done)
    ensures var (w', errs') := Loop(perform, failFast, acts, w, errs);
            && Separate(e, plan, w'.server.items)
            && Held(e, plan, ok, fin, s0, w'.server.items, {})
            && (errs' == [] ==> Held(e, plan, ok, fin, s0, w'.server.items, done + KnownIn(acts)))
    decreases |acts|
  {
    if acts == [] {
      assert done + KnownIn(acts) == done;
    } else if !Known(acts[0]) {
      RunHolds(e, plan, ok, fin, aim, perform, failFast, acts[1..], w, errs, s0, done);
      assert KnownIn(acts) == KnownIn(acts[1..]);
    } else {
      var act := acts[0];
      var (w', raised) := perform(act, w);
      var done' := if raised == [] then done + {act} else done - {act};
      assert Held(e, plan, ok, fin, s0, w'.server.items, done');
      if errs + raised == [] {
        RunHolds(e, plan, ok, fin, aim, perform, failFast, acts[1..], w', errs, s0, done');
        assert done + KnownIn(acts) == done' + KnownIn(acts[1..]);
      } else if !failFast {
        var errs' := errs + (errs + raised);
        ErrorsStay(perform, failFast, acts[1..], w', errs');
        RunHolds(e, plan, ok, fin, aim, perform, failFast, acts[1..], w', errs', s0, done');
      }
    }
  }

  // Any number of runs, each in its own order.
  lemma {:induction false} RunsHold(e: Setting, plan: Plan, ok: Judgement, fin: Judgement, faults: nat -> Fault,
      failFast: bool, runs: seq<seq<Action>>, w: World<Backend>, s0: Items)
    requires Confined(e, plan, AimOf(e, plan), Doing(e, faults)) && Inductive(e, plan, ok, fin)
    requires AllOnTarget(e, plan, faults, failFast, runs, w) && Separate(e, plan, w.server.items)
    requires Held(e, plan, ok, fin, s0, w.server.items, {})
    ensures var w' := Executions(Realm(e, faults), e.cm, failFast, runs, w);
            Separate(e, plan, w'.server.items) && Held(e, plan, ok, fin, s0, w'.server.items, {})
    decreases |runs|
  {
    if runs != [] {
      RunHolds(e, plan, ok, fin, AimOf(e, plan), Doing(e, faults), failFast, runs[0], w, [], s0, {});
      RunsHold(e, plan, ok, fin, faults, failFast, runs[1..], Execute(Realm(e, faults), e.cm, failFast, runs[0], w).0,
          s0);
    }
  }

  // Every run of a history is on target.
  ghost predicate HistoryOnTarget(e: Setting, plan: Plan, faults: nat -> Fault, failFast: bool,
      runs: seq<seq<Action>>, last: seq<Action>, w: World<Backend>) {
    && AllOnTarget(e, plan, faults, failFast, runs, w)
    && OnTarget(e, plan, faults, failFast, last, Executions(Realm(e, faults), e.cm, failFast, runs, w))
  }

  // Any number of runs, then one of all actions that returns nil.
  lemma RunsThenSuccess(e: Setting, plan: Plan, ok: Judgement, fin: Judgement, faults: nat -> Fault, failFast: bool,
      runs: seq<seq<Action>>, last: seq<Action>, w: World<Backend>)
    requires Sensible(e, plan) && Inductive(e, plan, ok, fin) && Separate(e, plan, w.server.items)
    requires HistoryOnTarget(e, plan, faults, failFast, runs, last, w) && Covers(plan, last)
    requires forall act <- plan :: ok(act, ZoneOf(e, plan, act, w.server.items))
    ensures var w1 := Executions(Realm(e, faults), e.cm, failFast, runs, w);
            var (w2, errs) := Execute(Realm(e, faults), e.cm, failFast, last, w1);
            && Separate(e, plan, w2.server.items)
            && (errs == [] ==> Held(e, plan, ok, fin, w.server.items, w2.server.items, plan.Keys))
  {
    SensibleIsConfined(e, plan, faults);
    RunsHold(e, plan, ok, fin, faults, failFast, runs, w, w.server.items);
    var w1 := Executions(Realm(e, faults), e.cm, failFast, runs, w);
    RunHolds(e, plan, ok, fin, AimOf(e, plan), Doing(e, faults), failFast, last, w1, [], w.server.items, {});
    forall act | act in plan ensures act in KnownIn(last) {
      assert Registered(act.strategy) == Some(plan[act].strategy);
    }
  }

  // ---- Idempotent seeding ----

  ghost predicate RetryableFrom(e: Setting, plan: Plan, act: Action, s0: Items)
    requires act in plan
  {
    Retryable(e.service, plan[act], ZoneOf(e, plan, act, s0))
  }

  ghost predicate CompletedFrom(e: Setting, plan: Plan, act: Action, s0: Items, s: Items)
    requires act in plan
  {
    Completed(e.service, plan[act], ZoneOf(e, plan, act, s0), ZoneOf(e, plan, act, s))
  }

  // Every action that can be repeated is completed once, as seen from `s0`, and
  // what no action is responsible for is as it was.
  ghost predicate CompletedOnce(e: Setting, plan: Plan, s0: Items, s: Items) {
    && Others(e, plan, s) == Others(e, plan, s0)
    && forall act <- plan :: RetryableFrom(e, plan, act, s0) ==> CompletedFrom(e, plan, act, s0, s)
  }

  lemma PlannedFacts(e: Setting, plan: Plan, act: Action, s: Items)
    requires Sensible(e, plan) && act in plan
    ensures Proper(e.service, plan[act]) && InColl(plan[act], ZoneOf(e, plan, act, s))
  {
  }

  lemma PossibleIsInductive(e: Setting, plan: Plan, s0: Items, ok: Judgement, fin: Judgement)
    requires Sensible(e, plan)
    requires forall act, z: Items :: act in plan ==>
      (ok(act, z) <==> (RetryableFrom(e, plan, act, s0) ==>
          Possible(e.service, plan[act], ZoneOf(e, plan, act, s0), z)))
    requires forall act, z: Items :: act in plan ==>
      (fin(act, z) <==> (RetryableFrom(e, plan, act, s0) ==>
          Completed(e.service, plan[act], ZoneOf(e, plan, act, s0), z)))
    ensures Inductive(e, plan, ok, fin)
  {
    forall act, z: Items, z': Items | act in plan && ok(act, z) && Possible(e.service, plan[act], z, z')
      ensures ok(act, z') && (Completed(e.service, plan[act], z, z') ==> fin(act, z'))
    {
      if RetryableFrom(e, plan, act, s0) {
        PlannedFacts(e, plan, act, s0);
        Absorbed(e.service, plan[act], ZoneOf(e, plan, act, s0), z, z');
      }
    }
  }

  // Retry safety of whole runs: after any number of runs, failed or not, a run
  // of all actions that returns nil leaves every action that can be repeated
  // completed once, as seen from the store before the first run, and every item
  // that no action is responsible for as it was.
  lemma SeedingIsRetrySafe(e: Setting, plan: Plan, faults: nat -> Fault, failFast: bool, runs: seq<seq<Action>>,
      last: seq<Action>, w: World<Backend>)
    requires Sensible(e, plan) && Separate(e, plan, w.server.items)
    requires HistoryOnTarget(e, plan, faults, failFast, runs, last, w) && Covers(plan, last)
    ensures var w1 := Executions(Realm(e, faults), e.cm, failFast, runs, w);
            var (w2, errs) := Execute(Realm(e, faults), e.cm, failFast, last, w1);
            errs == [] ==> CompletedOnce(e, plan, w.server.items, w2.server.items)
  {
    var s0 := w.server.items;
    var ok: Judgement := (act, z) => act in plan ==>
      (RetryableFrom(e, plan, act, s0) ==> Possible(e.service, plan[act], ZoneOf(e, plan, act, s0), z));
    var fin: Judgement := (act, z) => act in plan ==>
      (RetryableFrom(e, plan, act, s0) ==> Completed(e.service, plan[act], ZoneOf(e, plan, act, s0), z));
    PossibleIsInductive(e, plan, s0, ok, fin);
    RunsThenSuccess(e, plan, ok, fin, faults, failFast, runs, last, w);
  }

  // Equal, or equal but for the id of one new item.
  ghost predicate SameUpToNewId(g: Target, z1: Items, z2: Items) {
    z1 == z2 || exists base: Items, i1: string, i2: string :: CreatedAs(g, base, z1, i1) && CreatedAs(g, base, z2, i2)
  }

  ghost predicate SameZone(e: Setting, plan: Plan, act: Action, s1: Items, s2: Items)
    requires act in plan
  {
    SameUpToNewId(plan[act], ZoneOf(e, plan, act, s1), ZoneOf(e, plan, act, s2))
  }

  lemma SuccessIsUnique(e: Setting, plan: Plan, act: Action, s0: Items, s1: Items, s2: Items)
    requires Sensible(e, plan) && act in plan
    requires CompletedFrom(e, plan, act, s0, s1) && CompletedFrom(e, plan, act, s0, s2)
    ensures SameZone(e, plan, act, s1, s2)
  {
    PlannedFacts(e, plan, act, s0);
    CompletedIsUnique(e.service, plan[act], ZoneOf(e, plan, act, s0), ZoneOf(e, plan, act, s1),
        ZoneOf(e, plan, act, s2));
  }

  // Two histories of runs, in any orders and with any failures, that end in a
  // run of all actions without errors have made the same of the same store, up
  // to the ids that the service chose.
  lemma SuccessfulHistoriesAgree(e: Setting, plan: Plan, faults1: nat -> Fault, faults2: nat -> Fault, failFast: bool,
      runs1: seq<seq<Action>>, last1: seq<Action>, runs2: seq<seq<Action>>, last2: seq<Action>, w: World<Backend>)
    requires Sensible(e, plan) && Separate(e, plan, w.server.items)
    requires HistoryOnTarget(e, plan, faults1, failFast, runs1, last1, w) && Covers(plan, last1)
    requires HistoryOnTarget(e, plan, faults2, failFast, runs2, last2, w) && Covers(plan, last2)
    ensures var w1 := Executions(Realm(e, faults1), e.cm, failFast, runs1, w);
            var w2 := Executions(Realm(e, faults2), e.cm, failFast, runs2, w);
            var (u1, errs1) := Execute(Realm(e, faults1), e.cm, failFast, last1, w1);
            var (u2, errs2) := Execute(Realm(e, faults2), e.cm, failFast, last2, w2);
            errs1 == [] && errs2 == [] ==>
              && Others(e, plan, u1.server.items) == Others(e, plan, u2.server.items)
              && forall act <- plan ::
                   RetryableFrom(e, plan, act, w.server.items) ==>
                     SameZone(e, plan, act, u1.server.items, u2.server.items)
  {
    SeedingIsRetrySafe(e, plan, faults1, failFast, runs1, last1, w);
    SeedingIsRetrySafe(e, plan, faults2, failFast, runs2, last2, w);
    var w1 := Executions(Realm(e, faults1), e.cm, failFast, runs1, w);
    var w2 := Executions(Realm(e, faults2), e.cm, failFast, runs2, w);
    var (u1, errs1) := Execute(Realm(e, faults1), e.cm, failFast, last1, w1);
    var (u2, errs2) := Execute(Realm(e, faults2), e.cm, failFast, last2, w2);
    if errs1 == [] && errs2 == [] {
      forall act | act in plan && RetryableFrom(e, plan, act, w.server.items)
        ensures SameZone(e, plan, act, u1.server.items, u2.server.items)
      {
        SuccessIsUnique(e, plan, act, w.server.items, u1.server.items, u2.server.items);
      }
    }
  }

  // ---- One run in any order ----

  ghost predicate NoRepeats(acts: seq<Action>) {
    forall i, j :: 0 <= i < j < |acts| ==> acts[i] != acts[j]
  }

  // The actions still to come have not been touched, the others are completed.
  ghost predicate HalfDone(e: Setting, plan: Plan, s0: Items, s: Items, todo: seq<Action>) {
    && Others(e, plan, s) == Others(e, plan, s0)
    && forall act <- plan ::
         if act in todo then ZoneOf(e, plan, act, s) == ZoneOf(e, plan, act, s0) else CompletedFrom(e, plan, act, s0, s)
  }

  lemma OneMoreDone(e: Setting, plan: Plan, s0: Items, s: Items, s': Items, todo: seq<Action>)
    requires todo != [] && todo[0] in plan && NoRepeats(todo) && HalfDone(e, plan, s0, s, todo)
    requires ChangesOnly(e, plan, todo[0], s, s', true)
    ensures HalfDone(e, plan, s0, s', todo[1..]) && NoRepeats(todo[1..])
  {
    forall act | act in plan
      ensures if act in todo[1..] then ZoneOf(e, plan, act, s') == ZoneOf(e, plan, act, s0)
              else CompletedFrom(e, plan, act, s0, s')
    {
      assert act in todo <==> act == todo[0] || act in todo[1..];
      assert act in todo[1..] ==> act != todo[0];
    }
  }

  lemma {:induction false} RunCompletes(e: Setting, plan: Plan, aim: Aim, perform: Performing, failFast: bool,
      acts: seq<Action>, w: World<Backend>, s0: Items)
    requires Sensible(e, plan) && Confined(e, plan, aim, perform) && Throughout(aim, perform, failFast, acts, w)
    requires NoRepeats(acts) && Separate(e, plan, w.server.items) && HalfDone(e, plan, s0, w.server.items, acts)
    ensures var (w', errs) := Loop(perform, failFast, acts, w, []);
            errs == [] ==> HalfDone(e, plan, s0, w'.server.items, [])
    decreases |acts|
  {
    if acts == [] {
    } else if !Known(acts[0]) {
      assert acts[0] !in plan;
      RunCompletes(e, plan, aim, perform, failFast, acts[1..], w, s0);
    } else {
      var (w', raised) := perform(acts[0], w);
      assert [] + raised == raised;
      if raised == [] {
        OneMoreDone(e, plan, s0, w.server.items, w'.server.items, acts);
        RunCompletes(e, plan, aim, perform, failFast, acts[1..], w', s0);
      } else if !failFast {
        ErrorsStay(perform, failFast, acts[1..], w', [] + ([] + raised));
      }
    }
  }

  // A run of all actions, each once, that returns nil completes every one of
  // them, from any store.
  lemma RunIsComplete(e: Setting, plan: Plan, faults: nat -> Fault, failFast: bool, acts: seq<Action>,
      w: World<Backend>)
    requires Sensible(e, plan) && Separate(e, plan, w.server.items) && OnTarget(e, plan, faults, failFast, acts, w)
    requires Covers(plan, acts) && NoRepeats(acts)
    ensures var (w', errs) := Execute(Realm(e, faults), e.cm, failFast, acts, w);
            errs == [] ==> HalfDone(e, plan, w.server.items, w'.server.items, [])
  {
    SensibleIsConfined(e, plan, faults);
    RunCompletes(e, plan, AimOf(e, plan), Doing(e, faults), failFast, acts, w, w.server.items);
  }

  // Any two runs of the same actions, in whatever orders, that return nil agree
  // on every item that no action is responsible for, and on each action's items
  // up to the id that the service chose.
  lemma RunsInAnyOrderAgree(e: Setting, plan: Plan, faults1: nat -> Fault, faults2: nat -> Fault, failFast1: bool,
      failFast2: bool, xs: seq<Action>, ys: seq<Action>, w: World<Backend>)
    requires Sensible(e, plan) && Separate(e, plan, w.server.items)
    requires OnTarget(e, plan, faults1, failFast1, xs, w) && OnTarget(e, plan, faults2, failFast2, ys, w)
    requires Covers(plan, xs) && NoRepeats(xs) && Covers(plan, ys) && NoRepeats(ys)
    ensures var (u1, errs1) := Execute(Realm(e, faults1), e.cm, failFast1, xs, w);
            var (u2, errs2) := Execute(Realm(e, faults2), e.cm, failFast2, ys, w);
            errs1 == [] && errs2 == [] ==>
              && Others(e, plan, u1.server.items) == Others(e, plan, u2.server.items)
              && forall act <- plan :: SameZone(e, plan, act, u1.server.items, u2.server.items)
  {
    RunIsComplete(e, plan, faults1, failFast1, xs, w);
    RunIsComplete(e, plan, faults2, failFast2, ys, w);
    var (u1, errs1) := Execute(Realm(e, faults1), e.cm, failFast1, xs, w);
    var (u2, errs2) := Execute(Realm(e, faults2), e.cm, failFast2, ys, w);
    if errs1 == [] && errs2 == [] {
      forall act | act in plan ensures SameZone(e, plan, act, u1.server.items, u2.server.items) {
        SuccessIsUnique(e, plan, act, w.server.items, u1.server.items, u2.server.items);
      }
    }
  }

  // ---- Runs without failures ----

  // PUT alone needs its item, unless PUT may create it.
  ghost predicate Ready(e: Setting, plan: Plan, s: Items) {
    forall act <- plan :: plan[act].strategy.PutOnly? ==> e.service.upserts || ZoneOf(e, plan, act, s) != map[]
  }

  // The replacement of placeholders succeeds for every action.
  ghost predicate Replaceable(e: Setting, plan: Plan) {
    forall act <- plan :: ReplaceErrors(e.cm, act) == []
  }

  ghost predicate Succeeds(e: Setting, plan: Plan, faults: nat -> Fault, aim: Aim, perform: Performing) {
    forall act, w ::
      && aim(act, w) && Separate(e, plan, w.server.items)
      && Calm(faults, w.server.clock) && Ready(e, plan, w.server.items) ==>
        var (w', raised) := perform(act, w);
        raised == [] && Calm(faults, w'.server.clock) && Ready(e, plan, w'.server.items)
  }

  lemma KeyIsThere(e: Setting, plan: Plan, act: Action, s: Items)
    requires act in plan && plan[act].claim.Exactly? && ZoneOf(e, plan, act, s) != map[]
    ensures plan[act].claim.key in s
  {
    var k :| k in ZoneOf(e, plan, act, s);
    assert k == plan[act].claim.key;
  }

  lemma StaysReady(e: Setting, plan: Plan, act: Action, s: Items, s': Items, ok: bool)
    requires act in plan && Ready(e, plan, s) && ChangesOnly(e, plan, act, s, s', ok)
    ensures Ready(e, plan, s')
  {
    forall other | other in plan && plan[other].strategy.PutOnly?
      ensures e.service.upserts || ZoneOf(e, plan, other, s') != map[]
    {
      if other == act {
        assert Possible(e.service, plan[act], ZoneOf(e, plan, act, s), ZoneOf(e, plan, act, s'));
      }
    }
  }

  lemma PerformSucceeds(e: Setting, plan: Plan, faults: nat -> Fault, act: Action, w: World<Backend>)
    requires Sensible(e, plan) && Replaceable(e, plan) && AddressedAt(e, plan, act, w)
    requires Separate(e, plan, w.server.items) && Calm(faults, w.server.clock) && Ready(e, plan, w.server.items)
    ensures var (w', raised) := Perform(Realm(e, faults), e.cm, act, w);
            raised == [] && Calm(faults, w'.server.clock) && Ready(e, plan, w'.server.items)
  {
    var g, a := plan[act], Effective(e.cm, act);
    var reqs := RequestsAt(e.lib, a, w);
    PerformIsDrive(Realm(e, faults), e.cm, g.strategy, act, w);
    AttemptIsBounded(e.lib, e.service, faults, g, a, reqs, w.server);
    TimePasses(e.lib, e.service, faults, g.strategy, a, reqs, w.server, []);
    PerformChangesOnly(e, plan, faults, act, w);
    var (w', raised) := Perform(Realm(e, faults), e.cm, act, w);
    if g.strategy.PutOnly? && ZoneOf(e, plan, act, w.server.items) != map[] {
      KeyIsThere(e, plan, act, w.server.items);
    }
    StaysReady(e, plan, act, w.server.items, w'.server.items, raised == []);
  }

  lemma {:induction false} LoopSucceeds(e: Setting, plan: Plan, faults: nat -> Fault, aim: Aim, perform: Performing,
      failFast: bool, acts: seq<Action>, w: World<Backend>)
    requires Confined(e, plan, aim, perform) && Succeeds(e, plan, faults, aim, perform)
    requires Throughout(aim, perform, failFast, acts, w) && Separate(e, plan, w.server.items)
    requires Calm(faults, w.server.clock) && Ready(e, plan, w.server.items)
    ensures Loop(perform, failFast, acts, w, []).1 == []
    decreases |acts|
  {
    if acts == [] {
    } else if !Known(acts[0]) {
      LoopSucceeds(e, plan, faults, aim, perform, failFast, acts[1..], w);
    } else {
      var (w', raised) := perform(acts[0], w);
      LoopSucceeds(e, plan, faults, aim, perform, failFast, acts[1..], w');
    }
  }

  // Without failures a run returns nil.
  lemma CalmRunSucceeds(e: Setting, plan: Plan, faults: nat -> Fault, failFast: bool, acts: seq<Action>,
      w: World<Backend>)
    requires Sensible(e, plan) && Replaceable(e, plan) && OnTarget(e, plan, faults, failFast, acts, w)
    requires Separate(e, plan, w.server.items) && Calm(faults, w.server.clock) && Ready(e, plan, w.server.items)
    ensures Execute(Realm(e, faults), e.cm, failFast, acts, w).1 == []
  {
    SensibleIsConfined(e, plan, faults);
    var perform := Doing(e, faults);
    forall act, w1 |
      && AddressedAt(e, plan, act, w1) && Separate(e, plan, w1.server.items)
      && Calm(faults, w1.server.clock) && Ready(e, plan, w1.server.items)
      ensures var (w', raised) := perform(act, w1);
              raised == [] && Calm(faults, w'.server.clock) && Ready(e, plan, w'.server.items)
    {
      PerformSucceeds(e, plan, faults, act, w1);
    }
    LoopSucceeds(e, plan, faults, AimOf(e, plan), perform, failFast, acts, w);
  }

  // ---- Fixpoint ----

  // The next attempt, however it goes, finds nothing left to change.
  ghost predicate Settled(v: Service, g: Target, z: Items) {
    forall z': Items :: Possible(v, g, z, z') ==> z' == z
  }

  lemma CompletedIsSettled(v: Service, g: Target, z: Items, z1: Items)
    requires Proper(v, g) && InColl(g, z) && Retryable(v, g, z) && !Renews(g)
    requires Completed(v, g, z, z1)
    ensures Settled(v, g, z1)
  {
    forall z2: Items | Possible(v, g, z1, z2) ensures z2 == z1 {
      if Completed(v, g, z1, z2) && Finds(g.strategy) {
        CompletedTwice(v, g, z, z1, z2);
      }
    }
  }

  // What no action is responsible for, and every settled zone, is as it was.
  ghost predicate Kept(e: Setting, plan: Plan, s0: Items, s: Items) {
    && Others(e, plan, s) == Others(e, plan, s0)
    && forall act <- plan ::
         Settled(e.service, plan[act], ZoneOf(e, plan, act, s0)) ==> ZoneOf(e, plan, act, s) == ZoneOf(e, plan, act, s0)
  }

  lemma {:induction false} LoopKeeps(e: Setting, plan: Plan, aim: Aim, perform: Performing, failFast: bool,
      acts: seq<Action>, w: World<Backend>, errs: seq<Error>, s0: Items)
    requires Confined(e, plan, aim, perform) && Throughout(aim, perform, failFast, acts, w)
    requires Separate(e, plan, w.server.items) && Kept(e, plan, s0, w.server.items)
    ensures var w' := Loop(perform, failFast, acts, w, errs).0;
            Kept(e, plan, s0, w'.server.items) && Separate(e, plan, w'.server.items)
    decreases |acts|
  {
    if acts == [] {
    } else if !Known(acts[0]) {
      LoopKeeps(e, plan, aim, perform, failFast, acts[1..], w, errs, s0);
    } else {
      var (w', raised) := perform(acts[0], w);
      assert Kept(e, plan, s0, w'.server.items);
      if errs + raised == [] {
        LoopKeeps(e, plan, aim, perform, failFast, acts[1..], w', errs, s0);
      } else if !failFast {
        LoopKeeps(e, plan, aim, perform, failFast, acts[1..], w', errs + (errs + raised), s0);
      }
    }
  }

  // Whatever fails in them, and whatever else the plan contains, further runs
  // leave settled zones as they are, item for item.
  lemma {:induction false} RunsKeep(e: Setting, plan: Plan, faults: nat -> Fault, failFast: bool,
      runs: seq<seq<Action>>, w: World<Backend>, s0: Items)
    requires Sensible(e, plan) && Separate(e, plan, w.server.items) && Kept(e, plan, s0, w.server.items)
    requires AllOnTarget(e, plan, faults, failFast, runs, w)
    ensures Kept(e, plan, s0, Executions(Realm(e, faults), e.cm, failFast, runs, w).server.items)
    decreases |runs|
  {
    if runs != [] {
      SensibleIsConfined(e, plan, faults);
      LoopKeeps(e, plan, AimOf(e, plan), Doing(e, faults), failFast, runs[0], w, [], s0);
      RunsKeep(e, plan, faults, failFast, runs[1..], Execute(Realm(e, faults), e.cm, failFast, runs[0], w).0, s0);
    }
  }

  // The action has reached its fixpoint, and further runs have left it there.
  ghost predicate AtRest(e: Setting, plan: Plan, act: Action, s1: Items, s2: Items)
    requires act in plan
  {
    Settled(e.service, plan[act], ZoneOf(e, plan, act, s1)) && ZoneOf(e, plan, act, s2) == ZoneOf(e, plan, act, s1)
  }

  // Convergence: once a run of all actions has returned nil, every action that
  // could be repeated, other than FIND/DELETE/POST, is at its fixpoint, and no
  // further run changes its items, nor those that belong to no action, whatever
  // fails in it and whatever else the plan contains.
  lemma SeedingConverges(e: Setting, plan: Plan, faults: nat -> Fault, failFast: bool, first: seq<Action>,
      more: seq<seq<Action>>, w: World<Backend>)
    requires Sensible(e, plan) && Separate(e, plan, w.server.items) && Covers(plan, first)
    requires AllOnTarget(e, plan, faults, failFast, [first] + more, w)
    ensures var (w1, errs) := Execute(Realm(e, faults), e.cm, failFast, first, w);
            var w2 := Executions(Realm(e, faults), e.cm, failFast, more, w1);
            errs == [] ==>
              && Others(e, plan, w2.server.items) == Others(e, plan, w.server.items)
              && forall act <- plan ::
                   !plan[act].strategy.FindDeletePost? && RetryableFrom(e, plan, act, w.server.items) ==>
                   AtRest(e, plan, act, w1.server.items, w2.server.items)
  {
    assert ([first] + more)[1..] == more;
    SeedingIsRetrySafe(e, plan, faults, failFast, [], first, w);
    var (w1, errs) := Execute(Realm(e, faults), e.cm, failFast, first, w);
    if errs == [] {
      RunStaysSeparate(e, plan, faults, failFast, first, w);
      RunsKeep(e, plan, faults, failFast, more, w1, w1.server.items);
      forall act | act in plan && !plan[act].strategy.FindDeletePost? && RetryableFrom(e, plan, act, w.server.items)
        ensures Settled(e.service, plan[act], ZoneOf(e, plan, act, w1.server.items))
      {
        PlannedFacts(e, plan, act, w.server.items);
        CompletedIsSettled(e.service, plan[act], ZoneOf(e, plan, act, w.server.items),
            ZoneOf(e, plan, act, w1.server.items));
      }
    }
  }

  lemma RunStaysSeparate(e: Setting, plan: Plan, faults: nat -> Fault, failFast: bool, acts: seq<Action>,
      w: World<Backend>)
    requires Sensible(e, plan) && Separate(e, plan, w.server.items) && OnTarget(e, plan, faults, failFast, acts, w)
    ensures Separate(e, plan, Execute(Realm(e, faults), e.cm, failFast, acts, w).0.server.items)
  {
    SensibleIsConfined(e, plan, faults);
    LoopKeeps(e, plan, AimOf(e, plan), Doing(e, faults), failFast, acts, w, [], w.server.items);
  }

  // Idempotence: where all actions could be repeated and none creates an item in
  // every run, the store is, item for item, what the first run without errors
  // has made of it, however many runs follow and whatever fails in them.
  lemma SeedingIsIdempotent(e: Setting, plan: Plan, faults: nat -> Fault, failFast: bool, first: seq<Action>,
      more: seq<seq<Action>>, w: World<Backend>)
    requires Sensible(e, plan) && Separate(e, plan, w.server.items) && Covers(plan, first)
    requires AllOnTarget(e, plan, faults, failFast, [first] + more, w)
    requires forall act <- plan ::
               !plan[act].strategy.FindDeletePost? && RetryableFrom(e, plan, act, w.server.items)
    ensures var (w1, errs) := Execute(Realm(e, faults), e.cm, failFast, first, w);
            errs == [] ==> Executions(Realm(e, faults), e.cm, failFast, more, w1).server.items == w1.server.items
  {
    SeedingConverges(e, plan, faults, failFast, first, more, w);
    SeedingIsRetrySafe(e, plan, faults, failFast, [], first, w);
    var (w1, errs) := Execute(Realm(e, faults), e.cm, failFast, first, w);
    if errs == [] {
      NothingHasChanged(e, plan, w1.server.items,
          Executions(Realm(e, faults), e.cm, failFast, more, w1).server.items);
    }
  }

  // FIND/PATCH/POST may create its item in the first run and patch it only in
  // the second, so two runs that return nil are needed when a run starts from
  // nothing; then every action that does not create an item in every run is at
  // its fixpoint, from any store at all.
  lemma SeedingConvergesAtTheSecondRun(e: Setting, plan: Plan, faults: nat -> Fault, failFast: bool,
      first: seq<Action>, second: seq<Action>, more: seq<seq<Action>>, w: World<Backend>)
    requires Sensible(e, plan) && Separate(e, plan, w.server.items) && Covers(plan, first) && Covers(plan, second)
    requires AllOnTarget(e, plan, faults, failFast, [first] + ([second] + more), w)
    ensures var (w1, errs1) := Execute(Realm(e, faults), e.cm, failFast, first, w);
            var (w2, errs2) := Execute(Realm(e, faults), e.cm, failFast, second, w1);
            var w3 := Executions(Realm(e, faults), e.cm, failFast, more, w2);
            errs1 == [] && errs2 == [] ==>
              && Others(e, plan, w3.server.items) == Others(e, plan, w1.server.items)
              && forall act <- plan :: !Renews(plan[act]) ==> AtRest(e, plan, act, w2.server.items, w3.server.items)
  {
    assert ([first] + ([second] + more))[1..] == [second] + more;
    FirstRunFills(e, plan, faults, failFast, first, w);
    var (w1, errs1) := Execute(Realm(e, faults), e.cm, failFast, first, w);
    if errs1 == [] {
      SeedingConverges(e, plan, faults, failFast, second, more, w1);
    }
  }

  // After a run that returns nil there is something to find for every action
  // that looks, and so only those that create in every run cannot be repeated.
  lemma FirstRunFills(e: Setting, plan: Plan, faults: nat -> Fault, failFast: bool, first: seq<Action>,
      w: World<Backend>)
    requires Sensible(e, plan) && Separate(e, plan, w.server.items) && Covers(plan, first)
    requires OnTarget(e, plan, faults, failFast, first, w)
    ensures var (w1, errs) := Execute(Realm(e, faults), e.cm, failFast, first, w);
            && Separate(e, plan, w1.server.items)
            && (errs == [] ==>
                  forall act <- plan :: !Renews(plan[act]) ==> RetryableFrom(e, plan, act, w1.server.items))
  {
    var ok: Judgement := (act, z) => act in plan ==> InColl(plan[act], z);
    var fin: Judgement := (act, z) => act in plan && Looks(plan[act]) ==> z != map[];
    FillingIsInductive(e, plan, ok, fin);
    forall act | act in plan ensures ok(act, ZoneOf(e, plan, act, w.server.items)) {
      PlannedFacts(e, plan, act, w.server.items);
    }
    RunsThenSuccess(e, plan, ok, fin, faults, failFast, [], first, w);
  }

  // Idempotence from any store: where no action creates an item in every run, the
  // store no longer changes once two runs have returned nil.
  lemma SeedingIsIdempotentFromTheSecondRun(e: Setting, plan: Plan, faults: nat -> Fault, failFast: bool,
      first: seq<Action>, second: seq<Action>, more: seq<seq<Action>>, w: World<Backend>)
    requires Sensible(e, plan) && Separate(e, plan, w.server.items) && Covers(plan, first) && Covers(plan, second)
    requires AllOnTarget(e, plan, faults, failFast, [first] + ([second] + more), w)
    requires forall act <- plan :: !Renews(plan[act])
    ensures var (w1, errs1) := Execute(Realm(e, faults), e.cm, failFast, first, w);
            var (w2, errs2) := Execute(Realm(e, faults), e.cm, failFast, second, w1);
            errs1 == [] && errs2 == [] ==>
              Executions(Realm(e, faults), e.cm, failFast, more, w2).server.items == w2.server.items
  {
    assert ([first] + ([second] + more))[1..] == [second] + more;
    FirstRunFills(e, plan, faults, failFast, first, w);
    var (w1, errs1) := Execute(Realm(e, faults), e.cm, failFast, first, w);
    if errs1 == [] {
      SeedingIsIdempotent(e, plan, faults, failFast, second, more, w1);
    }
  }

  lemma FillingIsInductive(e: Setting, plan: Plan, ok: Judgement, fin: Judgement)
    requires Sensible(e, plan)
    requires forall act, z: Items :: act in plan ==> (ok(act, z) <==> InColl(plan[act], z))
    requires forall act, z: Items :: act in plan ==> (fin(act, z) <==> (Looks(plan[act]) ==> z != map[]))
    ensures Inductive(e, plan, ok, fin)
  {
    forall act, z: Items, z': Items | act in plan && ok(act, z) && Possible(e.service, plan[act], z, z')
      ensures ok(act, z') && (Completed(e.service, plan[act], z, z') ==> fin(act, z'))
    {
      PlannedFacts(e, plan, act, map[]);
      if Completed(e.service, plan[act], z, z') && (plan[act].posts || Looks(plan[act])) {
        CompletedIsThere(e.service, plan[act], z, z');
      }
    }
  }

  // Zones and the rest make up the store: if all of them are as they were, so
  // is every item.
  lemma NothingHasChanged(e: Setting, plan: Plan, s1: Items, s2: Items)
    requires Others(e, plan, s1) == Others(e, plan, s2)
    requires forall act <- plan :: ZoneOf(e, plan, act, s1) == ZoneOf(e, plan, act, s2)
    ensures s1 == s2
  {
    forall k | k in s1 ensures k in s2 && s2[k] == s1[k] {
      SameItem(e, plan, s1, s2, k);
    }
    forall k | k in s2 ensures k in s1 {
      SameItem(e, plan, s2, s1, k);
    }
  }

  lemma SameItem(e: Setting, plan: Plan, s1: Items, s2: Items, k: Key)
    requires Others(e, plan, s1) == Others(e, plan, s2) && k in s1
    requires forall act <- plan :: ZoneOf(e, plan, act, s1) == ZoneOf(e, plan, act, s2)
    ensures k in s2 && s2[k] == s1[k]
  {
    if act :| act in plan && Owns(e.service, plan[act].claim, k, s1[k]) {
      assert k in ZoneOf(e, plan, act, s1);
    } else {
      assert k in Others(e, plan, s1);
    }
  }
}

// The seeder object: its list of actions, how it is filled, sorted and
// executed (seeder/seeder.go). Execute is proved to be Runs.Execute on the
// stored actions in an order that respects Order.
module Seeder {
  import opened Wire
  import opened Text
  import opened Engine
  import opened Runs
  import opened SeederImpl
  import opened Bags
  import Stains

  // A stored action. Its variables are in the map, which copies of it share;
  // `title` is the public name field, `decl.name` the private one.
  datatype Slot = Slot(title: string, decl: Action, variables: VarMap?, templatedPayload: string, foundId: string)

  datatype ConfigManager = ConfigManager(actions: Manager, auth: AuthMap -> Option<AuthMap>)

  // The action as it stands now.
  function Supplied(slot: Slot): Action
    reads slot.variables
  {
    slot.decl.(variables := Contents(slot.variables))
  }

  ghost function VarMaps(slots: seq<Slot>): set<VarMap?> {
    set i | 0 <= i < |slots| :: slots[i].variables
  }

  ghost function SuppliedAll(slots: seq<Slot>): (acts: seq<Action>)
    reads VarMaps(slots)
    ensures |acts| == |slots| && forall i :: 0 <= i < |slots| ==> acts[i] == Supplied(slots[i])
  {
    seq(|slots|,
        i requires 0 <= i < |slots| reads if 0 <= i < |slots| then {slots[i].variables} else {} => Supplied(slots[i]))
  }

  ghost predicate Apart(s1: Slot, s2: Slot) {
    s1.variables == null || s1.variables != s2.variables
  }

  // Different stored actions have different maps.
  ghost predicate Unshared(slots: seq<Slot>) {
    forall i, j :: 0 <= i < j < |slots| ==> Apart(slots[i], slots[j])
  }

  function Renamed(slot: Slot, name: string): Slot {
    slot.(decl := slot.decl.(name := name))
  }

  // Each given name once, except for those still to come.
  ghost predicate Listed(given: map<string, Slot>, names: seq<string>, todo: set<string>) {
    && (forall n <- names :: n in given)
    && multiset(names) == multiset(given.Keys - todo)
  }

  // Nothing has been found or templated in a stored action.
  predicate Clean(slot: Slot) {
    slot.templatedPayload == "" && slot.foundId == ""
  }

  ghost predicate AllClean(slots: seq<Slot>) {
    forall s <- slots :: Clean(s)
  }

  ghost predicate InOrder(slots: seq<Slot>) {
    forall i, j :: 0 <= i < j < |slots| ==> EffectiveOrder(slots[i].decl) <= EffectiveOrder(slots[j].decl)
  }

  function Insert(s: seq<Slot>, k: nat, x: Slot): seq<Slot>
    requires k <= |s|
  {
    s[..k] + [x] + s[k..]
  }

  lemma InsertKeeps(s: seq<Slot>, k: nat, x: Slot)
    requires k <= |s| && InOrder(s)
    requires forall i :: 0 <= i < k ==> EffectiveOrder(s[i].decl) <= EffectiveOrder(x.decl)
    requires forall i :: k <= i < |s| ==> EffectiveOrder(x.decl) <= EffectiveOrder(s[i].decl)
    ensures InOrder(Insert(s, k, x))
    ensures multiset(Insert(s, k, x)) == multiset(s) + multiset{x}
  {
    assert s == s[..k] + s[k..];
    var t := Insert(s, k, x);
    forall i, j | 0 <= i < j < |t| ensures EffectiveOrder(t[i].decl) <= EffectiveOrder(t[j].decl) {
      assert t[i] == if i < k then s[i] else if i == k then x else s[i - 1];
      assert t[j] == if j < k then s[j] else if j == k then x else s[j - 1];
    }
  }

  // Sharing does not depend on the order of a list.
  lemma UnsharedReordered(s: seq<Slot>, t: seq<Slot>)
    requires Unshared(s) && multiset(s) == multiset(t)
    ensures Unshared(t)
  {
    PairwiseReordered((a, b) => Apart(a, b), s, t);
  }

  // The given actions, in some order, as they are stored.
  function Added(given: map<string, Slot>, names: seq<string>): (slots: seq<Slot>)
    requires forall n <- names :: n in given
    ensures |slots| == |names| && forall i :: 0 <= i < |names| ==> slots[i] == Renamed(given[names[i]], names[i])
  {
    seq(|names|, i requires 0 <= i < |names| => Renamed(given[names[i]], names[i]))
  }

  lemma OneMoreName(given: map<string, Slot>, names: seq<string>, todo: set<string>, k: string)
    requires k in todo && todo <= given.Keys && Listed(given, names, todo)
    ensures Listed(given, names + [k], todo - {k})
    ensures Added(given, names + [k]) == Added(given, names) + [Renamed(given[k], k)]
  {
    assert given.Keys - (todo - {k}) == given.Keys - todo + {k};
  }

  // WithActions half way.
  ghost predicate Storing(before: seq<Slot>, slots: seq<Slot>, given: map<string, Slot>, names: seq<string>,
      todo: set<string>) {
    && todo <= given.Keys && AllClean(slots) && (forall k <- given :: Clean(given[k]))
    && Listed(given, names, todo) && slots == before + Added(given, names)
  }

  lemma StoringGoesOn(before: seq<Slot>, slots: seq<Slot>, given: map<string, Slot>, names: seq<string>,
      todo: set<string>, k: string)
    requires Storing(before, slots, given, names, todo) && k in todo
    ensures Storing(before, slots + [Renamed(given[k], k)], given, names + [k], todo - {k})
  {
    OneMoreName(given, names, todo, k);
  }

  lemma PayloadIsOverwritten<S>(x: Ctx<S>, s: Strategy, a: Action, id: string, w: World<S>, p: string)
    ensures RunStrategy(x, s, a, id, w) == RunStrategy(x, s, a, id, w.(payload := p))
  {
    assert Retemplate(x.lib, w, a.payload, a.variables) == Retemplate(x.lib, w.(payload := p), a.payload, a.variables);
  }

  lemma CapturesGrow<S(!new)>(x: Ctx<S>, s: Strategy, a: Action, id: string, w: World<S>)
    ensures w.runtime.Keys <= RunStrategy(x, s, a, id, w).0.runtime.Keys
  {
    var w0 := Retemplate(x.lib, w, a.payload, a.variables);
    Stains.PlayAlike(x, s, a, a, id, w0, w0, []);
  }

  // One more action has been performed: maps have gained captured values.
  lemma StainedMore(xs: seq<Action>, before: seq<Action>, after: seq<Action>, runtime: Bindings, runtime': Bindings)
    requires Stains.AllStained(xs, before, runtime) && runtime.Keys <= runtime'.Keys
    requires Stains.AllStained(before, after, runtime')
    ensures Stains.AllStained(xs, after, runtime')
  {
    forall j | 0 <= j < |xs| ensures Stains.Stained(xs[j], after[j], runtime') {
      Stains.StainsGrow(xs[j], before[j], runtime, runtime');
      Stains.StainsAdd(xs[j], before[j], after[j], runtime');
    }
  }

  // Names for what a strategy call and an action do, so that a method can
  // speak of them without going into them.
  type Runner<!S> = (Strategy, Action, string, World<S>) -> (World<S>, Option<Error>)

  type Performing<!S> = (Action, World<S>) -> (World<S>, seq<Error>)

  ghost predicate RunsFor<S(!new)>(run: Runner<S>, x: Ctx<S>) {
    forall s, a, id, w {:trigger RunStrategy(x, s, a, id, w)} :: run(s, a, id, w) == RunStrategy(x, s, a, id, w)
  }

  function RunnerOf<S>(x: Ctx<S>): Runner<S> {
    (s, a, id, w) => RunStrategy(x, s, a, id, w)
  }

  // One action in terms of its strategy call; the old payload does not matter.
  ghost predicate PerformsFor<S(!new)>(perform: Performing<S>, run: Runner<S>, cm: Option<Manager>) {
    forall act, w: World<S>, p
      {:trigger perform(act, w), run(Registered(act.strategy).value, Effective(cm, act), "", w.(payload := p))} ::
      Known(act) ==>
        var out := run(Registered(act.strategy).value, Effective(cm, act), "", w.(payload := p));
        perform(act, w) == (out.0, ReplaceErrors(cm, act) + AsList(out.1))
  }

  // How far the loop of Execute has come: `ys` have been performed as they stood,
  // and the stored actions now stand as `current`.
  ghost predicate Standing<S(!new)>(perform: Performing<S>, failFast: bool, given: seq<Action>, start: World<S>,
      alone: bool, ys: seq<Action>, now: World<S>, errs: seq<Error>, current: seq<Action>) {
    && Stains.Progress(perform, failFast, given, ys, start, now, errs)
    && Stains.AllStained(given, current, now.runtime)
    && (alone ==> ys == given[..|ys|] && current[|ys|..] == given[|ys|..])
  }

  type Progressing<!S> = (seq<Action>, World<S>, seq<Error>, seq<Action>) -> bool

  ghost predicate Tracks<S(!new)>(prog: Progressing<S>, perform: Performing<S>, failFast: bool, given: seq<Action>,
      start: World<S>, alone: bool) {
    forall ys, now, errs, current {:trigger Standing(perform, failFast, given, start, alone, ys, now, errs, current)} ::
      prog(ys, now, errs, current) <==> Standing(perform, failFast, given, start, alone, ys, now, errs, current)
  }

  ghost function ProgressOf<S(!new)>(perform: Performing<S>, failFast: bool, given: seq<Action>, start: World<S>,
      alone: bool): Progressing<S> {
    (ys, now, errs, current) => Standing(perform, failFast, given, start, alone, ys, now, errs, current)
  }

  // The names for one run: of the strategies, of the actions, of its progress;
  // what they depend on; the actions before the run, the world it begins in and
  // whether no two actions share a map.
  datatype Names<!S(!new)> = Names(
    run: Runner<S>, perform: Performing<S>, prog: Progressing<S>, cm: Option<Manager>, failFast: bool,
    given: seq<Action>, start: World<S>, alone: bool)

  ghost predicate Fit<S(!new)>(f: Names<S>, x: Ctx<S>) {
    && RunsFor(f.run, x) && PerformsFor(f.perform, f.run, f.cm)
    && Tracks(f.prog, f.perform, f.failFast, f.given, f.start, f.alone)
  }

  ghost function NamesOf<S(!new)>(x: Ctx<S>, cm: Option<Manager>, failFast: bool, given: seq<Action>, start: World<S>,
      alone: bool): Names<S> {
    var perform := Performer(x, cm);
    Names(RunnerOf(x), perform, ProgressOf(perform, failFast, given, start, alone), cm, failFast, given, start, alone)
  }

  lemma NamesFit<S(!new)>(x: Ctx<S>, cm: Option<Manager>, failFast: bool, given: seq<Action>, start: World<S>,
      alone: bool)
    ensures var f := NamesOf(x, cm, failFast, given, start, alone); Fit(f, x) && f.prog([], start, [], given)
  {
    PerformerFits(x, cm);
    assert given[..0] == [];
    assert Standing(Performer(x, cm), failFast, given, start, alone, [], start, [], given);
  }

  lemma NextStanding<S(!new)>(f: Names<S>, x: Ctx<S>, ys: seq<Action>, now: World<S>, errs: seq<Error>,
      current: seq<Action>, now': World<S>, errs': seq<Error>, current': seq<Action>)
    requires Fit(f, x) && f.prog(ys, now, errs, current) && !Stains.Stopped(f.failFast, errs)
    requires |ys| < |f.given| == |current| == |current'|
    requires (now', errs') == Stains.Round(f.perform, current[|ys|], now, errs)
    requires Stains.AllStained(f.given, current', now'.runtime)
    requires f.alone ==> current'[|ys| + 1..] == current[|ys| + 1..]
    ensures f.prog(ys + [current[|ys|]], now', errs', current')
  {
    var n, act := |ys|, current[|ys|];
    assert Standing(f.perform, f.failFast, f.given, f.start, f.alone, ys, now, errs, current);
    Stains.ProgressOne(f.perform, f.failFast, f.given, ys, f.start, now, errs, act);
    if f.alone {
      assert act == current[n..][0] == f.given[n];
      assert f.given[..n + 1] == f.given[..n] + [f.given[n]];
      assert current[n + 1..] == current[n..][1..] && f.given[n + 1..] == f.given[n..][1..];
    }
    assert Standing(f.perform, f.failFast, f.given, f.start, f.alone, ys + [act], now', errs', current');
  }

  lemma TheRestDoesNotMatter<S(!new)>(f: Names<S>, x: Ctx<S>, ys: seq<Action>, now: World<S>, errs: seq<Error>,
      current: seq<Action>)
    requires Fit(f, x) && f.prog(ys, now, errs, current) && |ys| <= |f.given|
    requires |ys| == |f.given| || Stains.Stopped(f.failFast, errs)
    ensures |current| == |f.given|
    ensures var acts := ys + current[|ys|..];
            && |acts| == |f.given| && Stains.Progress(f.perform, f.failFast, f.given, acts, f.start, now, errs)
            && Stains.AllStained(f.given, current, now.runtime) && (f.alone ==> acts == f.given)
  {
    assert Standing(f.perform, f.failFast, f.given, f.start, f.alone, ys, now, errs, current);
    var rest := current[|ys|..];
    if |ys| < |f.given| {
      Stains.ProgressRest(f.perform, f.failFast, f.given, ys, f.start, now, errs, rest);
    } else {
      assert ys + rest == ys;
    }
    if f.alone {
      assert f.given == f.given[..|ys|] + f.given[|ys|..];
    }
  }

  lemma PayloadDoesNotMatter<S>(x: Ctx<S>, cm: Option<Manager>, act: Action, w: World<S>, p: string)
    requires Known(act)
    ensures Perform(x, cm, act, w) == Perform(x, cm, act, w.(payload := p))
  {
    PayloadIsOverwritten(x, Registered(act.strategy).value, Effective(cm, act), "", w, p);
  }

  lemma PerformerFits<S(!new)>(x: Ctx<S>, cm: Option<Manager>)
    ensures RunsFor(RunnerOf(x), x) && PerformsFor(Performer(x, cm), RunnerOf(x), cm)
  {
    forall act, w: World<S>, p | Known(act)
      ensures var out := RunnerOf(x)(Registered(act.strategy).value, Effective(cm, act), "", w.(payload := p));
              Performer(x, cm)(act, w) == (out.0, ReplaceErrors(cm, act) + AsList(out.1))
    {
      PayloadDoesNotMatter(x, cm, act, w, p);
    }
  }

  lemma SameMaps(s: seq<Slot>, t: seq<Slot>)
    requires multiset(s) == multiset(t)
    ensures VarMaps(s) == VarMaps(t)
  {
    SameMembers(s, t);
    forall i | 0 <= i < |s| ensures s[i].variables in VarMaps(t) {
      assert s[i] in t;
    }
    forall i | 0 <= i < |t| ensures t[i].variables in VarMaps(s) {
      assert t[i] in s;
    }
  }

  // The same stored actions in another order supply the same actions.
  lemma {:induction false} SuppliedInOrder(s: seq<Slot>, t: seq<Slot>)
    requires multiset(s) == multiset(t)
    ensures multiset(SuppliedAll(t)) == multiset(SuppliedAll(s))
    decreases |s|
  {
    if s == [] {
      assert |multiset(t)| == 0;
    } else {
      var j := IndexOf(s, t);
      var others := t[..j] + t[j + 1..];
      RestsAgree(s, t, j);
      SuppliedInOrder(s[1..], others);
      InsertedBag(SuppliedAll(others), SuppliedAll(t), j);
      InsertedBag(SuppliedAll(s[1..]), SuppliedAll(s), 0);
    }
  }

  // No later one of the first `n` configurations has the same name.
  predicate LastNamed(ra: seq<AuthConfig>, n: nat, i: nat)
    requires i < n <= |ra|
  {
    forall j :: i < j < n ==> ra[j].name != ra[i].name
  }

  class StrategyRestSeeder<!S(!new)> {
    const rest: SeederImpl<S>
    var configManager: Option<ConfigManager>
    var actions: seq<Slot>
    var authInstructions: AuthMap
    var failFast: bool

    constructor (rest: SeederImpl<S>)
      ensures Valid() && this.rest == rest && actions == [] && configManager.None? && !failFast
      ensures authInstructions == map[]
    {
      this.rest := rest;
      this.configManager := None;
      this.actions := [];
      this.authInstructions := map[];
      this.failFast := false;
    }

    ghost predicate Valid()
      reads this
    {
      AllClean(actions)
    }

    ghost function Replacer(): Option<Manager>
      reads this
    {
      match configManager case None => None case Some(c) => Some(c.actions)
    }

    method WithAuth(ra: AuthMap)
      modifies this`authInstructions, rest`auth
      ensures authInstructions == ra && rest.auth == ra
    {
      authInstructions := ra;
      rest.WithAuth(ra);
    }

    // The last configuration of a name wins.
    method WithAuthFromList(ra: seq<AuthConfig>)
      modifies this`authInstructions, rest`auth
      ensures rest.auth == authInstructions
      ensures authInstructions.Keys == set i | 0 <= i < |ra| :: ra[i].name
      ensures forall i :: 0 <= i < |ra| && LastNamed(ra, |ra|, i) ==> authInstructions[ra[i].name] == ra[i]
    {
      var authMap: AuthMap := map[];
      for n := 0 to |ra|
        invariant authMap.Keys == set i | 0 <= i < n :: ra[i].name
        invariant forall i :: 0 <= i < n && LastNamed(ra, n, i) ==> authMap[ra[i].name] == ra[i]
      {
        forall i | 0 <= i < n && LastNamed(ra, n + 1, i) ensures LastNamed(ra, n, i) {
        }
        authMap := authMap[ra[n].name := ra[n]];
      }
      WithAuth(authMap);
    }

    // Adds an entry for each given action, in any order.
    method WithActions(given: map<string, Slot>) returns (ghost names: seq<string>)
      requires Valid() && forall k <- given :: Clean(given[k])
      modifies this`actions
      ensures Valid()
      ensures Listed(given, names, {}) && actions == old(actions) + Added(given, names)
    {
      names := [];
      var todo := given.Keys;
      assert given.Keys - todo == {};
      while todo != {}
        invariant Storing(old(actions), actions, given, names, todo)
      {
        var k :| k in todo;
        StoringGoesOn(old(actions), actions, given, names, todo, k);
        var a := given[k];
        actions := actions + [Renamed(a, k)];
        names := names + [k];
        todo := todo - {k};
      }
    }

    // The same for a list, whose entries carry their own names.
    method WithActionsList(given: seq<Slot>)
      requires Valid() && AllClean(given)
      modifies this`actions
      ensures Valid() && |actions| == |old(actions)| + |given| && actions[..|old(actions)|] == old(actions)
      ensures forall i :: 0 <= i < |given| ==> actions[|old(actions)| + i] == Renamed(given[i], given[i].title)
    {
      for n := 0 to |given|
        invariant |actions| == |old(actions)| + n && actions[..|old(actions)|] == old(actions)
        invariant forall i :: 0 <= i < n ==> actions[|old(actions)| + i] == Renamed(given[i], given[i].title)
      {
        actions := actions + [Renamed(given[n], given[n].title)];
      }
      forall i | 0 <= i < |actions| ensures Clean(actions[i]) {
        if i < |old(actions)| {
          assert actions[i] == actions[..|old(actions)|][i];
          assert old(actions)[i] in old(actions);
        } else {
          assert given[i - |old(actions)|] in given;
          var n := i - |old(actions)|;
          assert actions[|old(actions)| + n] == Renamed(given[n], given[n].title);
        }
      }
    }

    // The comparison writes the default only to its own copies.
    method Compare(a: Slot, b: Slot) returns (c: int)
      ensures c <= 0 <==> MayPrecede(a.decl.order, b.decl.order)
      ensures c >= 0 <==> MayPrecede(b.decl.order, a.decl.order)
      ensures c < 0 <==> EffectiveOrder(a.decl) < EffectiveOrder(b.decl)
      ensures c > 0 <==> EffectiveOrder(a.decl) > EffectiveOrder(b.decl)
    {
      var l, r := a.decl, b.decl;
      if l.order.None? {
        l := l.(order := Some(999));
      }
      if r.order.None? {
        r := r.(order := Some(999));
      }
      c := if l.order.value < r.order.value then -1 else if l.order.value > r.order.value then 1 else 0;
    }

    // Where an action belongs in a sorted list.
    method Place(sorted: seq<Slot>, x: Slot) returns (k: nat)
      requires InOrder(sorted)
      ensures k <= |sorted|
      ensures forall i :: 0 <= i < k ==> EffectiveOrder(sorted[i].decl) <= EffectiveOrder(x.decl)
      ensures forall i :: k <= i < |sorted| ==> EffectiveOrder(x.decl) <= EffectiveOrder(sorted[i].decl)
    {
      k := 0;
      while k < |sorted|
        invariant k <= |sorted|
        invariant forall i :: 0 <= i < k ==> EffectiveOrder(sorted[i].decl) <= EffectiveOrder(x.decl)
      {
        var c := Compare(sorted[k], x);
        if c >= 0 {
          break;
        }
        k := k + 1;
      }
    }

    // Any sorting will do: which order equal actions end up in is not said.
    method SortActions()
      requires Valid()
      modifies this`actions
      ensures Valid() && InOrder(actions) && multiset(actions) == multiset(old(actions))
      ensures forall i, j :: 0 <= i < j < |actions| ==>
          MayPrecede(actions[i].decl.order, actions[j].decl.order)
    {
      var given := actions;
      var sorted: seq<Slot> := [];
      for n := 0 to |given|
        invariant actions == given
        invariant InOrder(sorted) && multiset(sorted) == multiset(given[..n])
      {
        var k := Place(sorted, given[n]);
        InsertKeeps(sorted, k, given[n]);
        assert given[..n + 1] == given[..n] + [given[n]];
        sorted := Insert(sorted, k, given[n]);
      }
      assert given[..|given|] == given;
      forall s | s in sorted ensures Clean(s) {
        assert s in multiset(given);
      }
      actions := sorted;
    }

    // configManagerReplaceAction: only the two templates and the variables.
    method ReplaceAction(a: LiveAction, cm: ConfigManager) returns (err: Option<Error>)
      requires configManager == Some(cm) && a.decl.variables == Contents(a.variables)
      modifies a`decl, a`variables
      ensures a.decl == Effective(Replacer(), old(a.decl)) && a.decl.variables == Contents(a.variables)
      ensures AsList(err) == ReplaceErrors(Replacer(), old(a.decl))
      ensures a.variables == old(a.variables) || fresh(a.variables)
    {
      var replaced := cm.actions.replace(a.decl);
      match replaced
      case None => err := Some(Plain("Error while replacing secrets placeholders in actions"));
      case Some(ra) =>
        a.decl := a.decl.(payload := ra.payload, patchPayload := ra.patchPayload, variables := ra.variables);
        a.variables := new VarMap(ra.variables);
        err := None;
    }

    method CallStrategy(a: LiveAction, s: Strategy, ghost run: Runner<S>) returns (err: Option<Error>)
      requires rest.Coherent(a) && RunsFor(run, rest.Here())
      modifies rest`runtimeVars, rest`log, rest`calls, rest.process, rest.client, a, a.variables
      ensures (rest.Now(a.templatedPayload), err)
              == run(s, old(a.decl), old(a.foundId), old(rest.Now(a.templatedPayload)))
      ensures rest.Coherent(a) && a.decl == old(a.decl) && a.variables == old(a.variables)
      ensures old(rest.runtimeVars.Keys) <= rest.runtimeVars.Keys
    {
      CapturesGrow(rest.Here(), s, a.decl, a.foundId, rest.Now(a.templatedPayload));
      match s
      case GetPost => err := rest.GetPost(a);
      case FindPost => err := rest.FindPost(a);
      case FindPutPost => err := rest.FindPutPost(a);
      case FindPatchPost => err := rest.FindPatchPost(a);
      case FindDeletePost => err := rest.FindDeletePost(a);
      case GetPutPost => err := rest.GetPutPost(a);
      case PutOnly => err := rest.RunPut(a);
      case PostOnly => err := rest.RunPost(a);
      case PutPost => err := rest.PutPost(a);
    }

    // The first half of performAction.
    method ReplaceIfConfigured(a: LiveAction, errs: seq<Error>) returns (all: seq<Error>)
      requires a.decl.variables == Contents(a.variables)
      modifies a`decl, a`variables
      ensures a.decl == Effective(Replacer(), old(a.decl)) && a.decl.variables == Contents(a.variables)
      ensures all == errs + ReplaceErrors(Replacer(), old(a.decl))
      ensures a.variables == old(a.variables) || fresh(a.variables)
    {
      all := errs;
      if configManager.Some? {
        var err := ReplaceAction(a, configManager.value);
        if err.Some? {
          all := all + [err.value];
        }
      }
    }

    // Returns the errors it is handed together with its own.
    method PerformAction(a: LiveAction, s: Strategy, errs: seq<Error>, ghost run: Runner<S>) returns (all: seq<Error>)
      requires a.decl.variables == Contents(a.variables) && a.foundId == ""
      requires RunsFor(run, rest.Here())
      modifies rest`runtimeVars, rest`log, rest`calls, rest.process, rest.client, a, a.variables
      ensures var (w, err) := run(s, Effective(Replacer(), old(a.decl)), "", old(rest.Now(a.templatedPayload)));
              rest.Now(a.templatedPayload) == w && all == errs + (ReplaceErrors(Replacer(), old(a.decl)) + AsList(err))
      ensures old(rest.runtimeVars.Keys) <= rest.runtimeVars.Keys
      ensures SameBut(Contents(old(a.variables)), old(Contents(a.variables)), rest.runtimeVars)
    {
      all := ReplaceIfConfigured(a, errs);
      var err := CallStrategy(a, s, run);
      if err.Some? {
        all := all + [err.value];
      }
    }

    // A failed replacement of the auth configuration ends the run at once.
    method ReplaceAuthTokens() returns (err: Option<Error>)
      modifies rest`auth
      ensures err.Some? <==> AuthFails()
      ensures err.Some? <==>
                configManager.Some? && authInstructions != map[] && configManager.value.auth(authInstructions).None?
      ensures !AuthFails() && configManager.Some? && authInstructions != map[] ==>
          configManager.value.auth(authInstructions) == Some(rest.auth)
      ensures AuthFails() || configManager.None? || authInstructions == map[] ==> rest.auth == old(rest.auth)
    {
      if configManager.Some? && |authInstructions| > 0 {
        var replaced := configManager.value.auth(authInstructions);
        if replaced.None? {
          return Some(Plain("Error while replacing secrets placeholders in authmap"));
        }
        rest.WithAuth(replaced.value);
      }
      return None;
    }

    // It concerns neither the actions nor what a run looks at.
    method ReplaceAuth() returns (err: Option<Error>)
      requires Valid()
      modifies rest`auth
      ensures Valid() && (err.Some? <==> old(AuthFails()))
      ensures SuppliedAll(actions) == old(SuppliedAll(actions)) && rest.Now("") == old(rest.Now(""))
    {
      ghost var supplied := SuppliedAll(actions);
      err := ReplaceAuthTokens();
      assert forall i :: 0 <= i < |actions| ==> Supplied(actions[i]) == supplied[i];
    }

    predicate AuthFails()
      reads this`configManager, this`authInstructions
    {
      configManager.Some? && authInstructions != map[] && configManager.value.auth(authInstructions).None?
    }

    ghost predicate Apt(f: Names<S>)
      reads this
    {
      Fit(f, rest.Here()) && f.cm == Replacer() && f.failFast == failFast
    }

    // One stored action: it works on a copy, which shares the variables map.
    method PerformSlot(slot: Slot, s: Strategy, errs: seq<Error>, ghost f: Names<S>, ghost before: string)
      returns (all: seq<Error>, ghost after: string)
      requires Clean(slot) && Registered(slot.decl.strategy) == Some(s) && Apt(f)
      modifies rest`runtimeVars, rest`log, rest`calls, rest.process, rest.client, slot.variables
      ensures var (w, raised) := f.perform(old(Supplied(slot)), old(rest.Now(before)));
              rest.Now(after) == w && all == errs + raised
      ensures old(rest.runtimeVars.Keys) <= rest.runtimeVars.Keys
      ensures SameBut(Contents(slot.variables), old(Contents(slot.variables)), rest.runtimeVars)
    {
      ghost var act, w := Supplied(slot), rest.Now(before);
      var a := new LiveAction(Supplied(slot), slot.variables, slot.templatedPayload, slot.foundId);
      assert rest.Now(a.templatedPayload) == w.(payload := a.templatedPayload);
      all := PerformAction(a, s, errs, f.run);
      after := a.templatedPayload;
      assert Known(act) && Registered(act.strategy).value == s;
    }

    // One stored action in the loop of Execute.
    method PerformAt(order: seq<Slot>, i: nat, s: Strategy, errs: seq<Error>, ghost f: Names<S>, ghost before: string)
      returns (all: seq<Error>, ghost after: string)
      requires i < |order| && Clean(order[i]) && Registered(order[i].decl.strategy) == Some(s) && Apt(f)
      requires Stains.AllStained(f.given, SuppliedAll(order), rest.runtimeVars)
      modifies rest`runtimeVars, rest`log, rest`calls, rest.process, rest.client, order[i].variables
      ensures var (w, raised) := f.perform(old(Supplied(order[i])), old(rest.Now(before)));
              rest.Now(after) == w && all == errs + raised
      ensures Stains.AllStained(f.given, SuppliedAll(order), rest.runtimeVars)
      ensures forall j :: 0 <= j < |order| && Apart(order[j], order[i]) ==>
          Supplied(order[j]) == old(Supplied(order[j]))
    {
      ghost var supplied, runtime := SuppliedAll(order), rest.runtimeVars;
      all, after := PerformSlot(order[i], s, errs, f, before);
      assert forall j :: 0 <= j < |order| && Apart(order[j], order[i]) ==> Supplied(order[j]) == supplied[j];
      StainedMore(f.given, supplied, SuppliedAll(order), runtime, rest.runtimeVars);
    }

    // One round of the loop of Execute: an unknown strategy is skipped.
    method OneRound(order: seq<Slot>, i: nat, errs: seq<Error>, ghost f: Names<S>, ghost ys: seq<Action>,
        ghost before: string)
      returns (errs': seq<Error>, ghost after: string)
      requires i < |order| == |f.given| && Clean(order[i]) && |ys| == i && !Stains.Stopped(failFast, errs)
      requires Apt(f) && f.prog(ys, rest.Now(before), errs, SuppliedAll(order)) && (f.alone ==> Unshared(order))
      modifies rest`runtimeVars, rest`log, rest`calls, rest.process, rest.client, order[i].variables
      ensures f.prog(ys + [old(Supplied(order[i]))], rest.Now(after), errs', SuppliedAll(order))
    {
      errs', after := errs, before;
      ghost var now, current := rest.Now(before), SuppliedAll(order);
      assert Standing(f.perform, failFast, f.given, f.start, f.alone, ys, now, errs, current);
      var s := Registered(order[i].decl.strategy);
      if s.Some? {
        var all;
        all, after := PerformAt(order, i, s.value, errs, f, before);
        if all != [] {
          errs' := errs + all;
        }
      }
      assert f.alone ==> SuppliedAll(order)[i + 1..] == current[i + 1..];
      NextStanding(f, rest.Here(), ys, now, errs, current, rest.Now(after), errs', SuppliedAll(order));
    }

    // The loop of Execute over the sorted list, up to where FailFast stops it.
    method RunRounds(order: seq<Slot>, ghost f: Names<S>)
      returns (errs: seq<Error>, ghost ys: seq<Action>, ghost payload: string)
      requires AllClean(order) && |f.given| == |order| && f.start == rest.Now("")
      requires Apt(f) && f.prog([], f.start, [], SuppliedAll(order)) && (f.alone ==> Unshared(order))
      modifies rest`runtimeVars, rest`log, rest`calls, rest.process, rest.client, VarMaps(order)
      ensures |ys| <= |f.given| && (|ys| == |f.given| || Stains.Stopped(failFast, errs))
      ensures f.prog(ys, rest.Now(payload), errs, SuppliedAll(order))
    {
      payload := "";
      errs := [];
      ys := [];
      for i := 0 to |order|
        invariant |ys| == i && !Stains.Stopped(failFast, errs)
        invariant f.prog(ys, rest.Now(payload), errs, SuppliedAll(order))
      {
        assert order[i] in order;
        ghost var act := Supplied(order[i]);
        errs, payload := OneRound(order, i, errs, f, ys, payload);
        ys := ys + [act];
        if failFast && errs != [] {
          break;
        }
      }
    }

    // The actions whose turn does not come stay as they are.
    method RunActions(order: seq<Slot>, ghost f: Names<S>)
      returns (errs: seq<Error>, ghost acts: seq<Action>, ghost payload: string)
      requires AllClean(order) && |f.given| == |order| && f.start == rest.Now("")
      requires Apt(f) && f.prog([], f.start, [], SuppliedAll(order)) && (f.alone ==> Unshared(order))
      modifies rest`runtimeVars, rest`log, rest`calls, rest.process, rest.client, VarMaps(order)
      ensures |acts| == |f.given|
      ensures Stains.Progress(f.perform, failFast, f.given, acts, f.start, rest.Now(payload), errs)
      ensures Stains.AllStained(f.given, SuppliedAll(order), rest.runtimeVars)
      ensures f.alone ==> acts == f.given
    {
      ghost var ys;
      errs, ys, payload := RunRounds(order, f);
      TheRestDoesNotMatter(f, rest.Here(), ys, rest.Now(payload), errs, SuppliedAll(order));
      acts := ys + SuppliedAll(order)[|ys|..];
    }

    method RunNamed(ghost given: seq<Action>, ghost start: World<S>, ghost alone: bool)
      returns (errs: seq<Error>, ghost acts: seq<Action>, ghost payload: string)
      requires Valid() && given == SuppliedAll(actions) && start == rest.Now("") && (alone ==> Unshared(actions))
      modifies rest`runtimeVars, rest`log, rest`calls, rest.process, rest.client, VarMaps(actions)
      ensures |acts| == |given| && (alone ==> acts == given)
      ensures (rest.Now(payload), errs) == Runs.Execute(rest.Here(), Replacer(), failFast, acts, start)
      ensures Stains.InTurn(Performer(rest.Here(), Replacer()), failFast, given, acts, start)
      ensures Stains.AllStained(given, SuppliedAll(actions), rest.runtimeVars)
    {
      ghost var f := NamesOf(rest.Here(), Replacer(), failFast, given, start, alone);
      NamesFit(rest.Here(), Replacer(), failFast, given, start, alone);
      errs, acts, payload := RunActions(actions, f);
    }

    // SortActions, and what it means for the actions that are supplied.
    method Ordered() returns (ghost given: seq<Action>)
      requires Valid()
      modifies this`actions
      ensures Valid() && multiset(actions) == multiset(old(actions)) && VarMaps(actions) == old(VarMaps(actions))
      ensures given == SuppliedAll(actions) && Sorted(given)
      ensures multiset(given) == multiset(old(SuppliedAll(actions)))
      ensures Unshared(old(actions)) ==> Unshared(actions)
    {
      ghost var before := actions;
      SortActions();
      SameMaps(before, actions);
      SuppliedInOrder(before, actions);
      given := SuppliedAll(actions);
      if Unshared(before) {
        UnsharedReordered(before, actions);
      }
    }

    // The stored actions, which supplied `supplied`, have been run from the world
    // `start`: `given` in order, each as it stood when its turn came (`acts`).
    ghost predicate HasRun(supplied: seq<Action>, start: World<S>, alone: bool, given: seq<Action>, acts: seq<Action>,
        end: World<S>, errs: seq<Error>)
      reads this, rest, VarMaps(actions)
    {
      && multiset(given) == multiset(supplied) && Sorted(given)
      && |acts| == |given| && (alone ==> acts == given)
      && (end, errs) == Runs.Execute(rest.Here(), Replacer(), failFast, acts, start)
      && Stains.InTurn(Performer(rest.Here(), Replacer()), failFast, given, acts, start)
      && Stains.AllStained(given, SuppliedAll(actions), rest.runtimeVars)
    }

    // The actions are put in order and run.
    method SortAndRun(ghost supplied: seq<Action>, ghost start: World<S>, ghost alone: bool)
      returns (errs: seq<Error>, ghost given: seq<Action>, ghost acts: seq<Action>, ghost payload: string)
      requires Valid() && supplied == SuppliedAll(actions) && start == rest.Now("") && (alone ==> Unshared(actions))
      modifies this`actions, rest`runtimeVars, rest`log, rest`calls, rest.process, rest.client, VarMaps(actions)
      ensures Valid() && multiset(actions) == multiset(old(actions))
      ensures HasRun(supplied, start, alone, given, acts, rest.Now(payload), errs)
    {
      given := Ordered();
      errs, acts, payload := RunNamed(given, start, alone);
    }

    // One run. Unless the auth configuration cannot be replaced, it is the loop
    // of Runs.dfy on the stored actions, in some order that respects Order, with
    // their variables as they stand when their turn comes. Those are the
    // variables before the run (`given`), unless actions share a map; and then
    // it makes no difference without configmanager, or with a tolerant one. Nor
    // does what is left in the maps make a difference to the next run (Stains.dfy).
    method Execute()
      returns (errs: seq<Error>, ghost given: seq<Action>, ghost acts: seq<Action>, ghost payload: string)
      requires Valid()
      modifies this`actions, rest`auth, rest`runtimeVars, rest`log, rest`calls, rest.process, rest.client,
          VarMaps(actions)
      ensures Valid() && multiset(actions) == multiset(old(actions))
      ensures old(AuthFails()) ==> |errs| == 1 && actions == old(actions) && rest.Now(payload) == old(rest.Now(""))
      ensures !old(AuthFails()) ==>
                HasRun(old(SuppliedAll(actions)), old(rest.Now("")), Unshared(old(actions)), given, acts,
                    rest.Now(payload), errs)
      ensures !old(AuthFails()) ==> RespectsOrder(given)
    {
      ghost var supplied, start, alone := SuppliedAll(actions), rest.Now(""), Unshared(actions);
      var authErr := ReplaceAuth();
      if authErr.Some? {
        return [authErr.value], [], [], "";
      }
      errs, given, acts, payload := SortAndRun(supplied, start, alone);
      SortedByOrder(given);
    }
  }
}

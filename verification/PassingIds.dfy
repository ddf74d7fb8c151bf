// A plan in which one action's response yields the id that the next action's
// path needs. With FailFast every history of runs is on target; without it, a
// failure of the first action sends the second one astray, and no later run
// makes up for it.
module PassingIds {
  import opened Wire
  import opened Text
  import opened Engine
  import opened Runs
  import opened Steady
  import opened Store
  import opened Attempts
  import opened Retry
  import opened Convergence
  import opened Guidance

  // ---- PUT, as a world sees it ----

  lemma PutPlays<S>(x: Ctx<S>, act: Action, w: World<S>, r: Sent, w': World<S>)
    requires (w', r) == Send(x, act, w, PUT, "")
    ensures Play(x, PutOnly, act, "", w, []) == (w', ErrorOf(r))
  {
    assert [] + [r] == [r];
    assert Decide(x.lib, PutOnly, act, "", [r]) == Return(ErrorOf(r));
  }

  lemma SeenAfterOne<S>(lib: Library, a: Action, w: World<S>, r: Sent)
    ensures SeenAfter(lib, a, w, [r]).1 == CapturedBy(lib, a, w.runtime, r)
  {
    assert [r][..0] == [];
  }

  // One PUT: the server it leaves, the names it captures and when it returns nil.
  lemma PutOutcome(e: Setting, faults: nat -> Fault, act: Action, w: World<Backend>) returns (r: Sent)
    requires e.cm.None? && Registered(act.strategy) == Some(PutOnly)
    ensures var (w', raised) := Perform(Realm(e, faults), None, act, w);
            var req := RequestsAt(e.lib, act, w)([], PUT, "");
            var (server', reply) := Serve(e.service, faults, w.server, req);
            && w'.server == server' && r == Classify(act.name, req, reply) && (raised == [] <==> Succeeded(reply))
            && w'.runtime == CapturedBy(e.lib, act, w.runtime, r) && InTune(e.lib, act, w, w', [r])
  {
    var x := Realm(e, faults);
    var w0 := Retemplate(e.lib, w, act.payload, act.variables);
    RetemplateInTune(e.lib, act, w, w, [], act.payload);
    SendInTune(x, act, w, w0, [], PUT, "");
    var (w', sent) := Send(x, act, w0, PUT, "");
    r := sent;
    assert [] + [r] == [r];
    PutPlays(x, act, w0, r, w');
    SeenAfterOne(e.lib, act, w, r);
  }

  // ---- The service and the plan ----

  const NAME := "i"

  const ID := "7"

  // One text is a template with a variable in it.
  function Lib(): Library {
    Library((text: string) => Parts(if text == "c/$" then [Literal("c/"), Variable(NAME)] else [Literal(text)]),
            (text: string) => None, (doc: string, expr: string) => Nodes([NumericNode(doc)]),
            (endpoint: string) => Url("", endpoint, ""), (endpoint: string) => None)
  }

  function KeyAt(path: string): Key {
    Key("c", if |path| >= 2 then path[2..] else "")
  }

  function Route(req: Request): Op {
    if req.verb.PUT? then Replace(KeyAt(req.path), req.body) else Unrouted
  }

  // Every document that it returns shows the same id.
  function Registry(): Service {
    Service((req: Request) => Route(req), (items: Items, clock: nat, coll: string, content: string) => "",
            (ids: set<string>) => [], (expr: string, id: string, content: string) => false,
            (items: Items, coll: string) => "", (content: string) => ID, (old_: string, patch: string) => patch, true)
  }

  function Here(): Setting {
    Setting(Lib(), Registry(), None)
  }

  function Putting(name: string, endpoint: string, order: int, captures: Bindings): Action {
    Action(name, "PUT", Some(order), endpoint, None, None, None, None, None, "", false, name, "", captures, map[])
  }

  function Owner(): Action {
    Putting("a", "c/k", 1, map[NAME := "id"])
  }

  function User(): Action {
    Putting("b", "c/$", 2, map[])
  }

  function Aim(id: string, content: string): Target {
    Target(PutOnly, Exactly(Key("c", id)), content, "", (id: string) => false, false)
  }

  function Pair(): Plan {
    map[Owner() := Aim("k", "a"), User() := Aim(ID, "b")]
  }

  predicate IsPair(act: Action) {
    act == Owner() || act == User()
  }

  function Needed(act: Action): set<Action> {
    if act == User() then {Owner()} else {}
  }

  const CAPTURED: Bindings := map[NAME := ID]

  predicate Knows(done: set<Action>, w: World<Backend>) {
    (w.runtime == map[] || w.runtime == CAPTURED) && (Owner() in done ==> w.runtime == CAPTURED)
  }

  lemma LiteralText(text: string, env: Bindings)
    requires text != "c/$"
    ensures Substitute(Lib(), text, env) == text
  {
    var parts: seq<Part> := [Literal(text)];
    assert parts[1..] == [];
    assert Render(parts, env) == text + Render(parts[1..], env);
  }

  lemma TemplateText(env: Bindings)
    ensures Substitute(Lib(), "c/$", env) == "c/" + Value(env, NAME)
  {
    var parts: seq<Part> := [Literal("c/"), Variable(NAME)];
    assert parts[1..] == [Variable(NAME)] && parts[2..] == [] && parts[1..][1..] == [];
    assert Render(parts, env) == "c/" + Render(parts[1..], env);
    assert Render(parts[1..], env) == Value(env, NAME) + Render([], env);
  }

  lemma Endpoints(act: Action)
    requires IsPair(act)
    ensures Endpoint(act, PUT, "") == act.endpoint
  {
    assert act.endpoint + "" + "" == act.endpoint;
  }

  lemma OwnerRequest(w: World<Backend>, h: seq<Sent>)
    ensures var req := RequestsAt(Lib(), Owner(), w)(h, PUT, "");
            req.verb == PUT && req.path == "c/k" && req.body == "a"
  {
    Endpoints(Owner());
    LiteralText("c/k", SeenAfter(Lib(), Owner(), w, h).0);
    LiteralText("a", SeenAfter(Lib(), Owner(), w, []).0);
  }

  // The second action captures nothing, so its requests depend on `w` alone.
  lemma {:induction false} UserSees(w: World<Backend>, h: seq<Sent>)
    requires w.runtime == CAPTURED || (w.runtime == map[] && w.env == map[])
    ensures var (env, runtime) := SeenAfter(Lib(), User(), w, h);
            runtime == w.runtime && Value(env, NAME) == Value(w.runtime, NAME)
    decreases |h|
  {
    if h != [] {
      UserSees(w, h[..|h| - 1]);
      var runtime := SeenAfter(Lib(), User(), w, h[..|h| - 1]).1;
      assert CapturedBy(Lib(), User(), runtime, h[|h| - 1]) == runtime;
    }
  }

  lemma UserRequest(w: World<Backend>, h: seq<Sent>)
    requires w.runtime == CAPTURED || (w.runtime == map[] && w.env == map[])
    ensures var req := RequestsAt(Lib(), User(), w)(h, PUT, "");
            req.verb == PUT && req.path == "c/" + Value(w.runtime, NAME) && req.body == "b"
  {
    Endpoints(User());
    UserSees(w, h);
    TemplateText(SeenAfter(Lib(), User(), w, h).0);
    LiteralText("b", SeenAfter(Lib(), User(), w, []).0);
  }

  lemma KeysAt()
    ensures KeyAt("c/k") == Key("c", "k") && KeyAt("c/" + ID) == Key("c", ID) && KeyAt("c/" + "") == Key("c", "")
  {
    assert ("c/" + ID)[2..] == ID && ("c/" + "")[2..] == "";
  }

  lemma PairIsOnTarget(act: Action, w: World<Backend>)
    requires act == Owner() || (act == User() && w.runtime == CAPTURED)
    ensures AddressedAt(Here(), Pair(), act, w)
  {
    KeysAt();
    var reqs := RequestsAt(Lib(), act, w);
    forall h: seq<Sent> ensures Route(reqs(h, PUT, "")) == Replace(Pair()[act].claim.key, Pair()[act].content) {
      if act == Owner() {
        OwnerRequest(w, h);
      } else {
        UserRequest(w, h);
      }
    }
  }

  lemma Captures(runtime: Bindings, act: Action)
    requires IsPair(act) && (runtime == map[] || runtime == CAPTURED)
    ensures Capture(Lib(), runtime, ID, act.captures) == if act == Owner() then CAPTURED else runtime
  {
    assert FindPath(Lib(), ID, "id").found == ID;
  }

  // Every document shows the same id.
  lemma ShowsTheId(faults: nat -> Fault, b: Backend, req: Request, key: Key, content: string)
    requires Route(req) == Replace(key, content)
    ensures var (b', reply) := Serve(Registry(), faults, b, req);
            && (Succeeded(reply) ==> reply.body == ID)
            && (Succeeded(reply) <==> faults(b.clock).Sound?)
            && b'.clock == b.clock + 1
            && (faults(b.clock).Sound? ==> b'.items == b.items[key := content])
            && (faults(b.clock).Broken? && !faults(b.clock).applied ==> b'.items == b.items)
            && b.items.Keys <= b'.items.Keys
  {
  }

  // Where an action of the plan writes, as its template reads.
  function KeyNow(act: Action, w: World<Backend>): Key {
    if act == Owner() then Key("c", "k") else Key("c", Value(w.runtime, NAME))
  }

  predicate Plain(act: Action, w: World<Backend>) {
    (act == Owner() && w.runtime == map[]) || w.runtime == CAPTURED || (w.runtime == map[] && w.env == map[])
  }

  lemma PairRequest(act: Action, w: World<Backend>)
    requires IsPair(act) && Plain(act, w)
    ensures Route(RequestsAt(Lib(), act, w)([], PUT, "")) == Replace(KeyNow(act, w), act.payload)
  {
    KeysAt();
    if act == Owner() {
      OwnerRequest(w, []);
    } else {
      UserRequest(w, []);
    }
  }

  // What a PUT of the plan does.
  lemma PairOutcome(faults: nat -> Fault, act: Action, w: World<Backend>)
    requires IsPair(act) && Plain(act, w)
    ensures var (w', raised) := Perform(Realm(Here(), faults), None, act, w);
            var fault := faults(w.server.clock);
            && (raised == [] <==> fault.Sound?)
            && w'.runtime == (if raised == [] && act == Owner() then CAPTURED else w.runtime)
            && w'.server.clock == w.server.clock + 1
            && (fault.Sound? ==> w'.server.items == w.server.items[KeyNow(act, w) := act.payload])
            && (fault.Broken? && !fault.applied ==> w'.server.items == w.server.items)
            && w.server.items.Keys <= w'.server.items.Keys
  {
    var r := PutOutcome(Here(), faults, act, w);
    PairRequest(act, w);
    ShowsTheId(faults, w.server, RequestsAt(Lib(), act, w)([], PUT, ""), KeyNow(act, w), act.payload);
    Captures(w.runtime, act);
  }

  // ---- With FailFast ----

  lemma PairIsProper(act: Action)
    requires IsPair(act)
    ensures Registered(act.strategy) == Some(Pair()[act].strategy) && Proper(Registry(), Pair()[act])
  {
  }

  lemma PairLeavesAlone(a1: Action, a2: Action)
    requires IsPair(a1) && IsPair(a2) && a1 != a2
    ensures LeavesAlone(Registry(), Pair()[a1], Pair()[a2])
  {
    assert "k" != ID;
  }

  lemma PairIsSensible()
    ensures Sensible(Here(), Pair())
  {
    forall act | act in Pair()
      ensures Registered(act.strategy) == Some(Pair()[act].strategy) && Proper(Registry(), Pair()[act])
    {
      PairIsProper(act);
    }
    forall a1, a2 | a1 in Pair() && a2 in Pair() && a1 != a2 ensures LeavesAlone(Registry(), Pair()[a1], Pair()[a2]) {
      PairLeavesAlone(a1, a2);
    }
  }

  lemma NextStage(faults: nat -> Fault, act: Action, done: set<Action>, w: World<Backend>)
    requires act in Pair() && Needed(act) <= done && Knows(done, w)
    ensures AddressedAt(Here(), Pair(), act, w)
    ensures var (w', raised) := Perform(Realm(Here(), faults), None, act, w);
            if raised == [] then Knows(done + {act}, w') else Knows({}, w')
  {
    assert IsPair(act);
    PairIsOnTarget(act, w);
    PairOutcome(faults, act, w);
  }

  // Names for what an action finds, does and brings about, so that a lemma can
  // speak of them without going into them.
  ghost predicate Names(faults: nat -> Fault, aim: Aim, perform: Performing, needs: Needs,
      stage: Stage<World<Backend>>) {
    && (forall act, w {:trigger AddressedAt(Here(), Pair(), act, w)} ::
          aim(act, w) <==> AddressedAt(Here(), Pair(), act, w))
    && (forall act, w {:trigger Perform(Realm(Here(), faults), None, act, w)} ::
          perform(act, w) == Perform(Realm(Here(), faults), None, act, w))
    && (forall act {:trigger Needed(act)} :: needs(act) == Needed(act))
    && (forall done, w {:trigger Knows(done, w)} :: stage(done, w) <==> Knows(done, w))
  }

  lemma NextStageNamed(faults: nat -> Fault, aim: Aim, perform: Performing, needs: Needs,
      stage: Stage<World<Backend>>, act: Action, done: set<Action>, w: World<Backend>)
    requires Names(faults, aim, perform, needs, stage) && act in Pair() && needs(act) <= done && stage(done, w)
    ensures aim(act, w) && Advances(stage, act, done, perform(act, w))
  {
    assert Needed(act) <= done && Knows(done, w);
    NextStage(faults, act, done, w);
    var (w', raised) := Perform(Realm(Here(), faults), None, act, w);
    assert if raised == [] then Knows(done + {act}, w') else Knows({}, w');
  }

  lemma BackToBegin(faults: nat -> Fault, aim: Aim, perform: Performing, needs: Needs,
      stage: Stage<World<Backend>>, done: set<Action>, w: World<Backend>)
    requires Names(faults, aim, perform, needs, stage) && stage(done, w)
    ensures stage({}, w)
  {
    assert Knows(done, w) && Knows({}, w);
  }

  lemma PairIsGuided(faults: nat -> Fault, aim: Aim, perform: Performing, acts: set<Action>, needs: Needs,
      stage: Stage<World<Backend>>)
    requires Names(faults, aim, perform, needs, stage) && acts == Pair().Keys
    ensures Guides(aim, perform, acts, needs, stage)
  {
    forall done, w | stage(done, w) ensures stage({}, w) {
      BackToBegin(faults, aim, perform, needs, stage, done, w);
    }
    forall act, done: set<Action>, w: World<Backend>
      {:trigger perform(act, w), stage(done, w)} {:trigger aim(act, w), stage(done, w)} |
      act in acts && needs(act) <= done && stage(done, w)
      ensures aim(act, w) && Advances(stage, act, done, perform(act, w))
    {
      NextStageNamed(faults, aim, perform, needs, stage, act, done, w);
    }
  }

  // The plan's actions, each at least once, in an order that respects Order.
  ghost predicate WholeRun(run: seq<Action>) {
    Sorted(run) && Covers(Pair(), run) && Planned(Pair().Keys, run)
  }

  lemma WholeRunMeetsNeeds(run: seq<Action>)
    requires WholeRun(run)
    ensures NeedsMet(Pair().Keys, Needed, run, {})
  {
    assert run[0..] == run;
    OrderMeetsNeeds(Pair().Keys, Needed, run, 0, {});
  }

  predicate Begun(w: World<Backend>) {
    w.runtime == map[] || w.runtime == CAPTURED
  }

  // With FailFast every history of runs that respect Order is on target, from
  // any store and with any failures: the theorems about whole runs apply.
  lemma PassingIdsWithFailFast(faults: nat -> Fault, runs: seq<seq<Action>>, w: World<Backend>)
    requires Begun(w) && forall run <- runs :: WholeRun(run)
    ensures Sensible(Here(), Pair()) && AllOnTarget(Here(), Pair(), faults, true, runs, w)
    ensures Begun(Executions(Realm(Here(), faults), None, true, runs, w))
  {
    var stage: Stage<World<Backend>> := (done, w1) => Knows(done, w1);
    PairIsGuided(faults, AimOf(Here(), Pair()), Doing(Here(), faults), Pair().Keys, Needed, stage);
    forall run | run in runs ensures NeedsMet(Pair().Keys, Needed, run, {}) {
      WholeRunMeetsNeeds(run);
    }
    GuidedHistory(Here(), Pair(), faults, Needed, stage, true, runs, w);
    PairIsSensible();
  }

  // ---- Without FailFast ----

  function Begin(): World<Backend> {
    Fresh(Backend(map[], 0), map[])
  }

  lemma TwoActions<W>(perform: (Action, W) -> (W, seq<Error>), a: Action, b: Action, w: W)
    requires Known(a) && Known(b)
    ensures var (w1, raised1) := perform(a, w);
            var (w2, raised2) := perform(b, w1);
            var (w', errs) := Loop(perform, false, [a, b], w, []);
            w' == w2 && (errs == [] <==> raised1 == [] && raised2 == [])
  {
    var (w1, raised1) := perform(a, w);
    assert [a, b][1..] == [b] && [b][1..] == [];
    assert [] + raised1 == raised1;
    var errs := if raised1 == [] then [] else [] + raised1;
    assert Loop(perform, false, [a, b], w, []) == Loop(perform, false, [b], w1, errs);
    var (w2, raised2) := perform(b, w1);
    assert Loop(perform, false, [b], w1, errs) == Loop(perform, false, [], w2,
        if errs + raised2 == [] then errs else errs + (errs + raised2));
  }

  // The name has been captured, or it is nowhere.
  predicate Unspoilt(w: World<Backend>) {
    w.runtime == CAPTURED || (w.runtime == map[] && w.env == map[])
  }

  lemma EmptyStaysEmpty(act: Action, w: World<Backend>, w': World<Backend>, r: Sent)
    requires InTune(Lib(), act, w, w', [r]) && act.variables == map[]
    requires w.env == map[] && w.runtime == map[] && w'.runtime == map[]
    ensures w'.env == map[]
  {
    assert [r][..0] == [];
    assert SeenAfter(Lib(), act, w, []).0 == map[];
    assert Export(w'.env, map[]) == w'.env;
  }

  lemma StaysUnspoilt(faults: nat -> Fault, act: Action, w: World<Backend>)
    requires IsPair(act) && Unspoilt(w)
    ensures Unspoilt(Perform(Realm(Here(), faults), None, act, w).0)
  {
    PairOutcome(faults, act, w);
    var w' := Perform(Realm(Here(), faults), None, act, w).0;
    if w'.runtime != CAPTURED {
      var r := PutOutcome(Here(), faults, act, w);
      EmptyStaysEmpty(act, w, w', r);
    }
  }

  const STRAY := Key("c", "")

  // There is an item without an id.
  predicate Strayed(w: World<Backend>) {
    Unspoilt(w) && STRAY in w.server.items
  }

  // No action of the plan removes it.
  lemma {:induction false} StrayStays(faults: nat -> Fault, failFast: bool, runs: seq<seq<Action>>, w: World<Backend>)
    requires Strayed(w) && forall run <- runs :: Planned(Pair().Keys, run)
    ensures Strayed(Executions(Realm(Here(), faults), None, failFast, runs, w))
    decreases |runs|
  {
    if runs != [] {
      assert runs[0] in runs && forall run <- runs[1..] :: run in runs;
      var inv: World<Backend> -> bool := w1 => Strayed(w1);
      var ok: Aim := (act, w1) => true;
      assert Keeps(ok, Doing(Here(), faults), Pair().Keys, inv) by {
        forall act, w1 | act in Pair() && inv(w1) ensures inv(Doing(Here(), faults)(act, w1).0) {
          assert IsPair(act);
          StaysUnspoilt(faults, act, w1);
          PairOutcome(faults, act, w1);
        }
      }
      KeptRun(ok, Doing(Here(), faults), Pair().Keys, inv, failFast, runs[0], w);
      StrayStays(faults, failFast, runs[1..], Execute(Realm(Here(), faults), None, failFast, runs[0], w).0);
    }
  }

  // The first request of all fails, without having been carried out, and the next
  // three do not.
  predicate Unlucky(faults: nat -> Fault) {
    faults(0).Broken? && !faults(0).applied && faults(1).Sound? && faults(2).Sound? && faults(3).Sound?
  }

  // The first run: the second action is sent to a path without an id.
  lemma FirstRun(faults: nat -> Fault, w: World<Backend>)
    requires Unlucky(faults) && w == Begin()
    ensures var w1 := Execute(Realm(Here(), faults), None, false, [Owner(), User()], w).0;
            w1.runtime == map[] && w1.server == Backend(map[STRAY := "b"], 2) && Strayed(w1)
  {
    var perform := Performer(Realm(Here(), faults), None);
    TwoActions(perform, Owner(), User(), w);
    PairOutcome(faults, Owner(), w);
    StaysUnspoilt(faults, Owner(), w);
    PairOutcome(faults, User(), perform(Owner(), w).0);
    StaysUnspoilt(faults, User(), perform(Owner(), w).0);
  }

  lemma SecondRun(faults: nat -> Fault, w: World<Backend>)
    requires Unlucky(faults) && w.runtime == map[] && w.server == Backend(map[STRAY := "b"], 2)
    ensures var (w2, errs) := Execute(Realm(Here(), faults), None, false, [Owner(), User()], w);
            && errs == [] && Strayed(w2)
            && w2.server.items == map[STRAY := "b", Key("c", "k") := "a", Key("c", ID) := "b"]
  {
    var perform := Performer(Realm(Here(), faults), None);
    TwoActions(perform, Owner(), User(), w);
    PairOutcome(faults, Owner(), w);
    PairOutcome(faults, User(), perform(Owner(), w).0);
  }

  lemma StrayIsOwnedByNone(w: World<Backend>)
    requires Strayed(w)
    ensures STRAY in Others(Here(), Pair(), w.server.items) && !CompletedOnce(Here(), Pair(), map[], w.server.items)
  {
    assert STRAY !in Others(Here(), Pair(), map[]);
  }

  // After the failed first run a second one returns nil, and still there is an item
  // without an id, which no action owns. It is there after any number of further
  // runs, whatever fails in them.
  lemma PassingIdsWithoutFailFast(faults: nat -> Fault, more: seq<seq<Action>>)
    requires Unlucky(faults) && forall run <- more :: Planned(Pair().Keys, run)
    ensures var run := [Owner(), User()];
            var w1 := Executions(Realm(Here(), faults), None, false, [run], Begin());
            var (w2, errs) := Execute(Realm(Here(), faults), None, false, run, w1);
            var w3 := Executions(Realm(Here(), faults), None, false, more, w2);
            && WholeRun(run) && errs == [] && !CompletedOnce(Here(), Pair(), map[], w2.server.items)
            && STRAY in Others(Here(), Pair(), w3.server.items)
            && !CompletedOnce(Here(), Pair(), map[], w3.server.items)
  {
    var run := [Owner(), User()];
    FirstRun(faults, Begin());
    var w1 := Execute(Realm(Here(), faults), None, false, run, Begin()).0;
    assert [run][0] == run && [run][1..] == [];
    assert Executions(Realm(Here(), faults), None, false, [run], Begin()) == w1;
    SecondRun(faults, w1);
    var w2 := Execute(Realm(Here(), faults), None, false, run, w1).0;
    StrayIsOwnedByNone(w2);
    StrayStays(faults, false, more, w2);
    StrayIsOwnedByNone(Executions(Realm(Here(), faults), None, false, more, w2));
  }

  // ---- Exactly with FailFast ----

  // A history that ends in a run without errors has done what one run would do.
  ghost predicate EndsRight(failFast: bool, faults: nat -> Fault, runs: seq<seq<Action>>, last: seq<Action>,
      w: World<Backend>) {
    var w1 := Executions(Realm(Here(), faults), None, failFast, runs, w);
    var (w2, errs) := Execute(Realm(Here(), faults), None, failFast, last, w1);
    errs == [] ==> CompletedOnce(Here(), Pair(), w.server.items, w2.server.items)
  }

  // Runs of all actions that respect Order, and a world that they can begin in.
  ghost predicate ProperHistory(runs: seq<seq<Action>>, last: seq<Action>, w: World<Backend>) {
    Begun(w) && WholeRun(last) && forall run <- runs :: WholeRun(run)
  }

  // Whatever fails, and from any store, before the name has been captured or after.
  ghost predicate RetrySafePair(failFast: bool) {
    forall faults: nat -> Fault, runs: seq<seq<Action>>, last, w: World<Backend> ::
      ProperHistory(runs, last, w) ==> EndsRight(failFast, faults, runs, last, w)
  }

  lemma HistoryIsOnTarget(faults: nat -> Fault, runs: seq<seq<Action>>, last: seq<Action>, w: World<Backend>)
    requires ProperHistory(runs, last, w)
    ensures HistoryOnTarget(Here(), Pair(), faults, true, runs, last, w)
  {
    PassingIdsWithFailFast(faults, runs, w);
    PassingIdsWithFailFast(faults, [last], Executions(Realm(Here(), faults), None, true, runs, w));
    assert [last][0] == last;
  }

  lemma PairIsSeparate(s: Items)
    ensures Separate(Here(), Pair(), s)
  {
  }

  lemma EndsRightWithFailFast(faults: nat -> Fault, runs: seq<seq<Action>>, last: seq<Action>, w: World<Backend>)
    requires ProperHistory(runs, last, w)
    ensures EndsRight(true, faults, runs, last, w)
  {
    PairIsSensible();
    PairIsSeparate(w.server.items);
    HistoryIsOnTarget(faults, runs, last, w);
    SeedingIsRetrySafe(Here(), Pair(), faults, true, runs, last, w);
  }

  lemma SafeWithFailFast()
    ensures RetrySafePair(true)
  {
    forall faults: nat -> Fault, runs: seq<seq<Action>>, last, w: World<Backend> | ProperHistory(runs, last, w)
      ensures EndsRight(true, faults, runs, last, w)
    {
      EndsRightWithFailFast(faults, runs, last, w);
    }
  }

  lemma CounterExample(faults: nat -> Fault, runs: seq<seq<Action>>, last: seq<Action>, w: World<Backend>)
    requires ProperHistory(runs, last, w) && !EndsRight(false, faults, runs, last, w)
    ensures !RetrySafePair(false)
  {
  }

  lemma EndsWrong(faults: nat -> Fault, run: seq<Action>)
    requires Unlucky(faults) && run == [Owner(), User()]
    ensures ProperHistory([run], run, Begin()) && !EndsRight(false, faults, [run], run, Begin())
  {
    PassingIdsWithoutFailFast(faults, []);
  }

  lemma UnsafeWithoutFailFast()
    ensures !RetrySafePair(false)
  {
    var run := [Owner(), User()];
    EndsWrong(BreakAt(0, false), run);
    CounterExample(BreakAt(0, false), [run], run, Begin());
  }

  // The plan is retry safe iff it is run with FailFast.
  lemma PassingIdsNeedsFailFast(failFast: bool)
    ensures RetrySafePair(failFast) <==> failFast
  {
    SafeWithFailFast();
    UnsafeWithoutFailFast();
  }
}

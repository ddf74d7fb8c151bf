// The order of a run: actions come out of a map and the sort keeps ties in any
// order, yet all runs that respect Order end in the same store when no item
// concerns two actions of equal Order.
module Confluence {
  import opened Wire
  import opened Text
  import opened Engine
  import opened Runs
  import opened Steady
  import opened Store
  import opened Attempts
  import opened Convergence
  import opened Bags

  // ---- Lists sorted by Order ----

  function Fold<T>(eff: (Action, T) -> T, acts: seq<Action>, s: T): T {
    if acts == [] then s else Fold(eff, acts[1..], eff(acts[0], s))
  }

  // In the states that `inv` describes, and that the actions keep.
  ghost predicate Commute<T(!new)>(eff: (Action, T) -> T, inv: T -> bool, a: Action, b: Action) {
    forall s :: inv(s) ==> eff(a, eff(b, s)) == eff(b, eff(a, s))
  }

  ghost predicate Keep<T(!new)>(eff: (Action, T) -> T, inv: T -> bool, acts: multiset<Action>) {
    forall a, s {:trigger eff(a, s)} :: a in acts && inv(s) ==> inv(eff(a, s))
  }

  // Different actions of equal Order commute.
  ghost predicate TiesCommute<T(!new)>(eff: (Action, T) -> T, inv: T -> bool, acts: multiset<Action>) {
    forall a, b :: a in acts && b in acts && a != b && EffectiveOrder(a) == EffectiveOrder(b) ==>
        Commute(eff, inv, a, b)
  }

  ghost predicate Distinct(acts: multiset<Action>) {
    forall a :: acts[a] <= 1
  }

  lemma NoRepeatsIsDistinct(xs: seq<Action>)
    requires NoRepeats(xs)
    ensures Distinct(multiset(xs))
  {
    forall a ensures multiset(xs)[a] <= 1 {
      if multiset(xs)[a] >= 2 {
        var k, l := Twice(xs, a);
      }
    }
  }

  lemma {:induction false} FoldAppend<T>(eff: (Action, T) -> T, xs: seq<Action>, ys: seq<Action>, s: T)
    ensures Fold(eff, xs + ys, s) == Fold(eff, ys, Fold(eff, xs, s))
  {
    if xs == [] {
      assert xs + ys == ys;
    } else {
      assert (xs + ys)[1..] == xs[1..] + ys;
      FoldAppend(eff, xs[1..], ys, eff(xs[0], s));
    }
  }

  lemma {:induction false} MoveToFront<T(!new)>(eff: (Action, T) -> T, inv: T -> bool, bag: multiset<Action>,
      pre: seq<Action>, x: Action, s: T)
    requires Keep(eff, inv, bag) && inv(s)
    requires forall y <- pre :: y in bag && Commute(eff, inv, x, y)
    ensures Fold(eff, pre + [x], s) == Fold(eff, [x] + pre, s)
  {
    if pre == [] {
      assert pre + [x] == [x] + pre;
    } else {
      var y := pre[0];
      assert (pre + [x])[1..] == pre[1..] + [x];
      MoveToFront(eff, inv, bag, pre[1..], x, eff(y, s));
      assert ([x] + pre[1..])[1..] == pre[1..] && ([x] + pre)[1..] == pre;
      assert Commute(eff, inv, x, y);
    }
  }

  // An action that commutes with all before it may come first.
  lemma BringForward<T(!new)>(eff: (Action, T) -> T, inv: T -> bool, bag: multiset<Action>, pre: seq<Action>,
      x: Action, post: seq<Action>, s: T)
    requires Keep(eff, inv, bag) && inv(s)
    requires forall y <- pre :: y in bag && Commute(eff, inv, x, y)
    ensures Fold(eff, pre + [x] + post, s) == Fold(eff, pre + post, eff(x, s))
  {
    MoveToFront(eff, inv, bag, pre, x, s);
    FoldAppend(eff, pre + [x], post, s);
    FoldAppend(eff, pre, post, eff(x, s));
    assert ([x] + pre)[0] == x && ([x] + pre)[1..] == pre;
  }

  lemma SplitAt(ys: seq<Action>, j: nat)
    requires j < |ys|
    ensures ys == ys[..j] + [ys[j]] + ys[j + 1..]
  {
  }

  lemma {:induction false} SortedListsFoldAlike<T(!new)>(eff: (Action, T) -> T, inv: T -> bool, bag: multiset<Action>,
      xs: seq<Action>, ys: seq<Action>, s: T)
    requires TiesCommute(eff, inv, bag) && Keep(eff, inv, bag) && inv(s)
    requires multiset(xs) == multiset(ys) <= bag && Sorted(xs) && Sorted(ys) && Distinct(multiset(xs))
    ensures Fold(eff, xs, s) == Fold(eff, ys, s)
    decreases |xs|
  {
    if xs == [] {
      assert |multiset(ys)| == 0;
    } else {
      var j := IndexOf(xs, ys);
      forall y | y in ys[..j] ensures y in bag && Commute(eff, inv, ys[j], y) {
        BeforeTheFirst(xs, ys, j, y);
      }
      assert xs[0] in multiset(xs);
      SplitAt(ys, j);
      BringForward(eff, inv, bag, ys[..j], ys[j], ys[j + 1..], s);
      RestIsSorted(xs, ys, j);
      RestIsTheSame(xs, ys, j);
      SortedListsFoldAlike(eff, inv, bag, xs[1..], ys[..j] + ys[j + 1..], eff(xs[0], s));
    }
  }

  // Two sorted lists of the same actions have the same effect.
  lemma SortedListsAgree<T(!new)>(eff: (Action, T) -> T, inv: T -> bool, xs: seq<Action>, ys: seq<Action>, s: T)
    requires multiset(xs) == multiset(ys) && Sorted(xs) && Sorted(ys) && Distinct(multiset(xs))
    requires TiesCommute(eff, inv, multiset(xs)) && Keep(eff, inv, multiset(xs)) && inv(s)
    ensures Fold(eff, xs, s) == Fold(eff, ys, s)
  {
    SortedListsFoldAlike(eff, inv, multiset(xs), xs, ys, s);
  }

  lemma BeforeTheFirst(xs: seq<Action>, ys: seq<Action>, j: nat, y: Action)
    requires multiset(xs) == multiset(ys) && Sorted(xs) && Sorted(ys) && xs != []
    requires j < |ys| && ys[j] == xs[0] && y in ys[..j] && Distinct(multiset(xs))
    ensures y in multiset(xs) && y != xs[0] && EffectiveOrder(y) == EffectiveOrder(xs[0])
  {
    var i :| 0 <= i < j && ys[i] == y;
    assert y in multiset(ys);
    var k :| 0 <= k < |xs| && xs[k] == y;
    Around(ys, j);
    assert y in multiset(ys[..j]);
  }

  lemma RemoveKeepsSorted(ys: seq<Action>, j: nat)
    requires Sorted(ys) && j < |ys|
    ensures Sorted(ys[..j] + ys[j + 1..])
  {
    var rest := ys[..j] + ys[j + 1..];
    forall i, k | 0 <= i < k < |rest| ensures EffectiveOrder(rest[i]) <= EffectiveOrder(rest[k]) {
      var i', k' := if i < j then i else i + 1, if k < j then k else k + 1;
      assert rest[i] == ys[i'] && rest[k] == ys[k'];
    }
  }

  lemma RestIsSorted(xs: seq<Action>, ys: seq<Action>, j: nat)
    requires Sorted(xs) && Sorted(ys) && xs != [] && j < |ys|
    ensures Sorted(xs[1..]) && Sorted(ys[..j] + ys[j + 1..])
  {
    RemoveKeepsSorted(ys, j);
  }

  lemma RestIsTheSame(xs: seq<Action>, ys: seq<Action>, j: nat)
    requires multiset(xs) == multiset(ys) && xs != [] && Distinct(multiset(xs))
    requires j < |ys| && ys[j] == xs[0]
    ensures multiset(xs[1..]) == multiset(ys[..j] + ys[j + 1..]) <= multiset(xs) && Distinct(multiset(xs[1..]))
  {
    RestsAgree(xs, ys, j);
    FirstOff(xs);
    SubBag(multiset(xs), multiset(xs[1..]), xs[0]);
  }

  lemma SubBag(m: multiset<Action>, rest: multiset<Action>, x: Action)
    requires m == multiset{x} + rest && Distinct(m)
    ensures rest <= m && Distinct(rest)
  {
    forall a ensures rest[a] <= 1 {
      assert m[a] <= 1;
    }
  }

  // ---- What one undisturbed action does to the items ----

  // The service derives the id of a new item from its content alone.
  ghost predicate StableIds(v: Service, g: Target) {
    forall items: Items, clock: nat ::
        v.newId(items, clock, CollOf(g.claim), g.content) == v.newId(map[], 0, CollOf(g.claim), g.content)
  }

  function NewKey(v: Service, g: Target): Key {
    Key(CollOf(g.claim), v.newId(map[], 0, CollOf(g.claim), g.content))
  }

  // The service gives an id to what the action creates.
  predicate Creates(g: Target) {
    g.posts || Finds(g.strategy)
  }

  // What an undisturbed action reads or writes: the items that its expression
  // matches, and the item that it would create.
  predicate Domain(v: Service, g: Target, k: Key, content: string) {
    Owns(v, g.claim, k, content) || (Creates(g) && k == NewKey(v, g))
  }

  function Put(v: Service, g: Target, s: Items): Items {
    if NewKey(v, g) in s then s else s[NewKey(v, g) := g.content]
  }

  // The items after an undisturbed attempt.
  function Effect(v: Service, g: Target, s: Items): Items {
    if g.posts then Put(v, g, s)
    else if ByKey(g.strategy) && g.claim.Exactly? then
      if g.strategy.PutOnly? && g.claim.key !in s && !v.upserts then s else s[g.claim.key := g.content]
    else if !Finds(g.strategy) then s
    else
      var z := Zone(v, g.claim, s);
      var k := FirstKey(v, g.claim, z);
      if z == map[] then Put(v, g, s)
      else if k !in z then s
      else match g.strategy
        case FindPutPost => s[k := g.content]
        case FindPatchPost => s[k := v.merge(s[k], g.patch)]
        case FindDeletePost => Put(v, g, s - {k})
        case _ => s
  }

  function Inside(v: Service, g: Target, s: Items): Items {
    map k | k in s && Domain(v, g, k, s[k]) :: s[k]
  }

  function Beyond(v: Service, g: Target, s: Items): Items {
    map k | k in s && !Domain(v, g, k, s[k]) :: s[k]
  }

  // The item concerns both actions.
  predicate Both(v: Service, g: Target, h: Target, k: Key, content: string) {
    Domain(v, g, k, content) && Domain(v, h, k, content)
  }

  ghost predicate ApartIn(v: Service, g: Target, h: Target, s: Items) {
    forall k <- s :: !Both(v, g, h, k, s[k])
  }

  // What `a` writes does not come to concern both.
  ghost predicate KeepsApart(v: Service, a: Target, g: Target, h: Target) {
    && (ByKey(a.strategy) && a.claim.Exactly? ==> !Both(v, g, h, a.claim.key, a.content))
    && (Creates(a) ==> !Both(v, g, h, NewKey(v, a), a.content))
    && (Looks(a) && a.strategy.FindPutPost? ==>
          forall k, c :: Owns(v, a.claim, k, c) && !Both(v, g, h, k, c) ==> !Both(v, g, h, k, a.content))
    && (Looks(a) && a.strategy.FindPatchPost? ==>
          forall k, c :: Owns(v, a.claim, k, c) && !Both(v, g, h, k, c) ==> !Both(v, g, h, k, v.merge(c, a.patch)))
  }

  // The target's own writes stay within its domain.
  ghost predicate Closed(v: Service, g: Target) {
    && (Creates(g) ==> g.claim.Matching?) && (ByKey(g.strategy) ==> g.claim.Exactly? && !g.posts)
    && (Looks(g) && g.claim.Matching? ==> WritesMatch(v, g))
  }

  lemma ZoneIsInside(v: Service, g: Target, s: Items)
    ensures Zone(v, g.claim, Inside(v, g, s)) == Zone(v, g.claim, s)
  {
  }

  // Writing to, or removing, one item of the domain.
  lemma OneItemIsLocal(v: Service, g: Target, s: Items, k: Key, content: string)
    requires Domain(v, g, k, content) && (k in s ==> Domain(v, g, k, s[k]))
    ensures Beyond(v, g, s[k := content]) == Beyond(v, g, s) == Beyond(v, g, s - {k})
    ensures Inside(v, g, s[k := content]) == Inside(v, g, s)[k := content]
    ensures Inside(v, g, s - {k}) == Inside(v, g, s) - {k}
    ensures k in Inside(v, g, s) <==> k in s
  {
  }

  lemma PutIsLocal(v: Service, g: Target, s: Items)
    requires Creates(g)
    ensures Beyond(v, g, Put(v, g, s)) == Beyond(v, g, s)
    ensures Inside(v, g, Put(v, g, s)) == Put(v, g, Inside(v, g, s))
  {
    OneItemIsLocal(v, g, s, NewKey(v, g), g.content);
  }

  // An action works inside its domain, and looks at nothing else.
  lemma EffectIsLocal(v: Service, g: Target, s: Items)
    requires Closed(v, g)
    ensures Beyond(v, g, Effect(v, g, s)) == Beyond(v, g, s)
    ensures Inside(v, g, Effect(v, g, s)) == Effect(v, g, Inside(v, g, s))
  {
    ZoneIsInside(v, g, s);
    if g.posts {
      PutIsLocal(v, g, s);
    } else if Finds(g.strategy) {
      var z := Zone(v, g.claim, s);
      var k := FirstKey(v, g.claim, z);
      PutIsLocal(v, g, s);
      if k in z {
        OneItemIsLocal(v, g, s, k, s[k]);
        PutIsLocal(v, g, s - {k});
        match g.strategy
        case FindPutPost => OneItemIsLocal(v, g, s, k, g.content);
        case FindPatchPost => OneItemIsLocal(v, g, s, k, v.merge(s[k], g.patch));
        case _ =>
      }
    } else if ByKey(g.strategy) {
      OneItemIsLocal(v, g, s, g.claim.key, g.content);
    }
  }

  lemma EffectKeepsApart(v: Service, a: Target, g: Target, h: Target, s: Items)
    requires KeepsApart(v, a, g, h) && ApartIn(v, g, h, s)
    ensures ApartIn(v, g, h, Effect(v, a, s))
  {
  }

  // Effects on different items commute.
  lemma ApartCommute(v: Service, g1: Target, g2: Target, s: Items)
    requires Closed(v, g1) && Closed(v, g2) && ApartIn(v, g1, g2, s)
    requires KeepsApart(v, g1, g1, g2) && KeepsApart(v, g2, g1, g2)
    ensures Effect(v, g1, Effect(v, g2, s)) == Effect(v, g2, Effect(v, g1, s))
  {
    var s1, s2 := Effect(v, g1, s), Effect(v, g2, s);
    var a, b := Effect(v, g1, s2), Effect(v, g2, s1);
    EffectIsLocal(v, g1, s);
    EffectIsLocal(v, g2, s);
    EffectIsLocal(v, g1, s2);
    EffectIsLocal(v, g2, s1);
    EffectKeepsApart(v, g1, g1, g2, s);
    EffectKeepsApart(v, g2, g1, g2, s);
    EffectKeepsApart(v, g1, g1, g2, s2);
    EffectKeepsApart(v, g2, g1, g2, s1);
    InsideIsKept(v, g2, g1, s, s2);
    InsideIsKept(v, g1, g2, s, s1);
    InsideIsKept(v, g2, g1, s1, b);
    InsideIsKept(v, g1, g2, s2, a);
    SameParts(v, g1, g2, s, s2, s1, a, b);
  }

  lemma InsideIsKept(v: Service, g: Target, h: Target, s: Items, s': Items)
    requires ApartIn(v, g, h, s) || ApartIn(v, h, g, s)
    requires ApartIn(v, g, h, s') || ApartIn(v, h, g, s')
    requires Beyond(v, g, s') == Beyond(v, g, s)
    ensures Inside(v, h, s') == Inside(v, h, s)
  {
    forall k | k in Inside(v, h, s) ensures k in Inside(v, h, s') && s'[k] == s[k] {
      assert k in Beyond(v, g, s);
    }
    forall k | k in Inside(v, h, s') ensures k in Inside(v, h, s) {
      assert k in Beyond(v, g, s');
    }
  }

  // Stores that agree inside both domains and beyond them are equal.
  lemma SameParts(v: Service, g1: Target, g2: Target, s: Items, s2: Items, s1: Items, a: Items, b: Items)
    requires Beyond(v, g2, s2) == Beyond(v, g2, s) && Beyond(v, g1, s1) == Beyond(v, g1, s)
    requires Beyond(v, g1, a) == Beyond(v, g1, s2) && Beyond(v, g2, b) == Beyond(v, g2, s1)
    requires Inside(v, g1, a) == Inside(v, g1, b) && Inside(v, g2, a) == Inside(v, g2, b)
    ensures a == b
  {
    forall k | k in a ensures k in b && b[k] == a[k] {
      SamePart(v, g1, g2, s, s2, s1, a, b, k);
    }
    forall k | k in b ensures k in a {
      SamePart(v, g2, g1, s, s1, s2, b, a, k);
    }
  }

  lemma SamePart(v: Service, g1: Target, g2: Target, s: Items, s2: Items, s1: Items, a: Items, b: Items, k: Key)
    requires Beyond(v, g2, s2) == Beyond(v, g2, s) && Beyond(v, g1, s1) == Beyond(v, g1, s)
    requires Beyond(v, g1, a) == Beyond(v, g1, s2) && Beyond(v, g2, b) == Beyond(v, g2, s1)
    requires Inside(v, g1, a) == Inside(v, g1, b) && Inside(v, g2, a) == Inside(v, g2, b)
    requires k in a
    ensures k in b && b[k] == a[k]
  {
    if Domain(v, g1, k, a[k]) {
      assert k in Inside(v, g1, a);
    } else if Domain(v, g2, k, a[k]) {
      assert k in Inside(v, g2, a);
    } else {
      assert k in Beyond(v, g1, a);
      assert k in Beyond(v, g2, s2);
      assert k in Beyond(v, g1, s);
      assert k in Beyond(v, g2, s1);
    }
  }

  // ---- The engine ----

  ghost predicate StablyAddressed(lib: Library, v: Service, g: Target, a: Action, reqs: Requests) {
    && (SendsGet(g.strategy) ==> lib.unbuildable(Endpoint(a, GET, "")).None?)
    && (g.posts || Looks(g) || ByKey(g.strategy))
    && (Creates(g) ==> StableIds(v, g))
    && (g.posts ==> PostRoutes(lib, v, g, a, reqs))
    && (Looks(g) ==> FindRoutes(lib, v, g, a, reqs))
    && (ByKey(g.strategy) ==> RoutedByKey(lib, v, g, a, reqs))
  }

  function NoFaults(): nat -> Fault {
    n => Sound
  }

  lemma UndisturbedPost(v: Service, g: Target, req: Request, b: Backend)
    requires v.route(req) == Create(CollOf(g.claim), g.content) && StableIds(v, g)
    ensures Final(Server(v, NoFaults()), b, req).0.items == Put(v, g, b.items)
  {
  }

  lemma UndisturbedChange(v: Service, g: Target, req: Request, b: Backend, verb: Verb, k: Key) returns (b': Backend)
    requires ChangesBy(g.strategy, verb) && v.route(req) == ChangeOp(g, verb, k) && k in b.items
    ensures Final(Server(v, NoFaults()), b, req) == (b', true)
    ensures b'.items == if verb.PUT? then b.items[k := g.content]
                        else if verb.PATCH? then b.items[k := v.merge(b.items[k], g.patch)]
                        else b.items - {k}
  {
    b' := Final(Server(v, NoFaults()), b, req).0;
  }

  lemma UndisturbedFind(lib: Library, v: Service, g: Target, a: Action, reqs: Requests, b: Backend, doc: string)
    requires Looks(g) && FindRoutes(lib, v, g, a, reqs) && StableIds(v, g) && Told(v, g, [Body(doc)])
    ensures var found := FirstMatch(v, g.claim, b.items);
            FoundOrNot(Server(v, NoFaults()), g.strategy, reqs, b, doc, found).0.items == Effect(v, g, b.items)
  {
    var found, h := FirstMatch(v, g.claim, b.items), [Body(doc)];
    var k := Key(g.claim.coll, found);
    if Zone(v, g.claim, b.items) == map[] {
      UndisturbedPost(v, g, reqs(h, POST, ""), b);
    } else {
      FirstKeyIsThere(v, g, b.items);
      match g.strategy
      case FindPutPost => var _ := UndisturbedChange(v, g, reqs(h, PUT, found), b, PUT, k);
      case FindPatchPost => var _ := UndisturbedChange(v, g, reqs(h, PATCH, found), b, PATCH, k);
      case FindDeletePost =>
        var b1 := UndisturbedChange(v, g, reqs(h, DELETE, found), b, DELETE, k);
        var reply := Serve(v, NoFaults(), b, reqs(h, DELETE, found)).1;
        assert Told(v, g, h + [Body(reply.body)]);
        UndisturbedPost(v, g, reqs(h + [Body(reply.body)], POST, ""), b1);
      case FindPost =>
    }
  }

  lemma UndisturbedPosting(lib: Library, v: Service, g: Target, a: Action, reqs: Requests, b: Backend)
    requires g.posts && PostRoutes(lib, v, g, a, reqs) && StableIds(v, g)
    ensures PostingRun(Server(v, NoFaults()), g.strategy, a, reqs, b).0.items == Put(v, g, b.items)
  {
    if g.strategy.PostOnly? {
      UndisturbedPost(v, g, reqs([], POST, ""), b);
    } else {
      var req := reqs([], GET, "");
      var (b1, reply) := Serve(v, NoFaults(), b, req);
      assert Told(v, g, [Classify(a.name, req, reply)]);
      UndisturbedPost(v, g, reqs([Classify(a.name, req, reply)], POST, ""), b1);
    }
  }

  lemma UndisturbedAttempt(lib: Library, v: Service, g: Target, a: Action, reqs: Requests, b: Backend)
    requires StablyAddressed(lib, v, g, a, reqs)
    ensures Attempt(lib, v, NoFaults(), g, a, reqs, b).0.items == Effect(v, g, b.items)
  {
    if g.posts {
      DrivePosting(Ctx(lib, Server(v, NoFaults())), g.strategy, a, reqs, b);
      UndisturbedPosting(lib, v, g, a, reqs, b);
    } else if Finds(g.strategy) {
      var doc := ReadListing(lib, v, NoFaults(), g, a, reqs, b);
      UndisturbedFind(lib, v, g, a, reqs, Backend(b.items, b.clock + 1), doc);
    } else {
      DriveByKey(Ctx(lib, Server(v, NoFaults())), g.strategy, a, reqs, b);
      UndisturbedKeyRun(lib, v, g, a, reqs, b);
    }
  }

  lemma UndisturbedKeyRun(lib: Library, v: Service, g: Target, a: Action, reqs: Requests, b: Backend)
    requires ByKey(g.strategy) && RoutedByKey(lib, v, g, a, reqs)
    ensures KeyRun(Server(v, NoFaults()), g.strategy, a, reqs, b).0.items == Effect(v, g, b.items)
  {
    assert Key(g.claim.key.coll, g.claim.key.id) == g.claim.key;
  }

  // The action, as its templates read in this world, is addressed to its target
  // by a service that derives ids from contents.
  ghost predicate StablyAddressedAt(e: Setting, plan: Plan, act: Action, w: World<Backend>) {
    act in plan && Registered(act.strategy) == Some(plan[act].strategy) &&
    var a := Effective(e.cm, act);
    StablyAddressed(e.lib, e.service, plan[act], a, RequestsAt(e.lib, a, w))
  }

  ghost function StableAimOf(e: Setting, plan: Plan): Aim {
    (act, w) => StablyAddressedAt(e, plan, act, w)
  }

  ghost predicate StablyOnTarget(e: Setting, plan: Plan, failFast: bool, acts: seq<Action>, w: World<Backend>) {
    Throughout(StableAimOf(e, plan), Doing(e, NoFaults()), failFast, acts, w)
  }

  ghost predicate Tied(plan: Plan, b: Action, d: Action) {
    b in plan && d in plan && b != d && EffectiveOrder(b) == EffectiveOrder(d)
  }

  // No planned action writes an item that concerns two actions of equal Order.
  ghost predicate Orderless(e: Setting, plan: Plan) {
    && (forall act <- plan :: Closed(e.service, plan[act]))
    && (forall a, b, d :: a in plan && Tied(plan, b, d) ==> KeepsApart(e.service, plan[a], plan[b], plan[d]))
  }

  // No item concerns two actions of equal Order.
  ghost predicate TiesApart(e: Setting, plan: Plan, s: Items) {
    forall b, d :: Tied(plan, b, d) ==> ApartIn(e.service, plan[b], plan[d], s)
  }

  type Effects = (Action, Items) -> Items

  // What each action of a run does to the items: an unknown one does nothing.
  function EffectsOf(e: Setting, plan: Plan): Effects {
    (act, s) => if Known(act) && act in plan then Effect(e.service, plan[act], s) else s
  }

  // The items after an action that is on target are its effect on those before.
  ghost predicate HasEffects(aim: Aim, eff: Effects, perform: Performing) {
    forall act, w :: aim(act, w) ==> perform(act, w).0.server.items == eff(act, w.server.items)
  }

  lemma PerformHasEffect(e: Setting, plan: Plan, act: Action, w: World<Backend>)
    requires StablyAddressedAt(e, plan, act, w)
    ensures Perform(Realm(e, NoFaults()), e.cm, act, w).0.server.items
         == Effect(e.service, plan[act], w.server.items)
  {
    var a := Effective(e.cm, act);
    PerformIsDrive(Realm(e, NoFaults()), e.cm, plan[act].strategy, act, w);
    UndisturbedAttempt(e.lib, e.service, plan[act], a, RequestsAt(e.lib, a, w), w.server);
  }

  lemma {:induction false} RunFolds(aim: Aim, eff: Effects, perform: Performing, failFast: bool, acts: seq<Action>,
      w: World<Backend>, errs: seq<Error>)
    requires HasEffects(aim, eff, perform) && Throughout(aim, perform, failFast, acts, w)
    requires forall act, s: Items :: !Known(act) ==> eff(act, s) == s
    ensures var (w', errs') := Loop(perform, failFast, acts, w, errs);
            !failFast || errs' == [] ==> w'.server.items == Fold(eff, acts, w.server.items)
    decreases |acts|
  {
    if acts == [] {
    } else if !Known(acts[0]) {
      RunFolds(aim, eff, perform, failFast, acts[1..], w, errs);
    } else {
      var (w', raised) := perform(acts[0], w);
      var returned := errs + raised;
      if returned == [] {
        RunFolds(aim, eff, perform, failFast, acts[1..], w', errs);
      } else if !failFast {
        RunFolds(aim, eff, perform, failFast, acts[1..], w', errs + returned);
      }
    }
  }

  // A run in which no request fails is the fold of its actions' effects, unless
  // FailFast ends it early.
  lemma ExecuteFolds(e: Setting, plan: Plan, failFast: bool, acts: seq<Action>, w: World<Backend>)
    requires StablyOnTarget(e, plan, failFast, acts, w)
    ensures var (w', errs) := Execute(Realm(e, NoFaults()), e.cm, failFast, acts, w);
            !failFast || errs == [] ==> w'.server.items == Fold(EffectsOf(e, plan), acts, w.server.items)
  {
    var aim, eff, perform := StableAimOf(e, plan), EffectsOf(e, plan), Doing(e, NoFaults());
    forall act, w1 | aim(act, w1) ensures perform(act, w1).0.server.items == eff(act, w1.server.items) {
      PerformHasEffect(e, plan, act, w1);
    }
    RunFolds(aim, eff, perform, failFast, acts, w, []);
  }

  lemma EffectsCommute(e: Setting, plan: Plan, inv: Items -> bool, acts: multiset<Action>)
    requires Orderless(e, plan) && forall s :: inv(s) <==> TiesApart(e, plan, s)
    ensures TiesCommute(EffectsOf(e, plan), inv, acts)
  {
    var eff := EffectsOf(e, plan);
    forall a, b | a in acts && b in acts && a != b && EffectiveOrder(a) == EffectiveOrder(b)
      ensures Commute(eff, inv, a, b)
    {
      forall s: Items | inv(s) ensures eff(a, eff(b, s)) == eff(b, eff(a, s)) {
        if Known(a) && a in plan && Known(b) && b in plan {
          assert Tied(plan, a, b);
          ApartCommute(e.service, plan[a], plan[b], s);
        }
      }
    }
  }

  lemma EffectsKeep(e: Setting, plan: Plan, inv: Items -> bool, acts: multiset<Action>)
    requires Orderless(e, plan) && forall s :: inv(s) <==> TiesApart(e, plan, s)
    ensures Keep(EffectsOf(e, plan), inv, acts)
  {
    forall a, s | a in acts && inv(s) ensures inv(EffectsOf(e, plan)(a, s)) {
      if Known(a) && a in plan {
        forall b, d | Tied(plan, b, d) ensures ApartIn(e.service, plan[b], plan[d], Effect(e.service, plan[a], s)) {
          EffectKeepsApart(e.service, plan[a], plan[b], plan[d], s);
        }
      }
    }
  }

  // The two runs end in the same store, unless FailFast ends one of them early.
  ghost predicate EndAlike(e: Setting, failFast: bool, xs: seq<Action>, ys: seq<Action>, w: World<Backend>) {
    var (u1, errs1) := Execute(Realm(e, NoFaults()), e.cm, failFast, xs, w);
    var (u2, errs2) := Execute(Realm(e, NoFaults()), e.cm, failFast, ys, w);
    !failFast || (errs1 == [] && errs2 == []) ==> u1.server.items == u2.server.items
  }

  // Order confluence: any two runs of the same actions that respect Order end
  // in the same store, however the sort has broken ties.
  lemma OrderConfluence(e: Setting, plan: Plan, failFast: bool, xs: seq<Action>, ys: seq<Action>, w: World<Backend>)
    requires Orderless(e, plan) && TiesApart(e, plan, w.server.items)
    requires StablyOnTarget(e, plan, failFast, xs, w) && StablyOnTarget(e, plan, failFast, ys, w)
    requires multiset(xs) == multiset(ys) && NoRepeats(xs) && Sorted(xs) && Sorted(ys)
    ensures EndAlike(e, failFast, xs, ys, w)
  {
    NoRepeatsIsDistinct(xs);
    ExecuteFolds(e, plan, failFast, xs, w);
    ExecuteFolds(e, plan, failFast, ys, w);
    var inv: Items -> bool := s => TiesApart(e, plan, s);
    EffectsCommute(e, plan, inv, multiset(xs));
    EffectsKeep(e, plan, inv, multiset(xs));
    SortedListsAgree(EffectsOf(e, plan), inv, xs, ys, w.server.items);
  }

  // ---- Disjoint targets ----

  // The item that an action creates or replaces by its key.
  function OwnKey(v: Service, g: Target): Key {
    if g.claim.Exactly? then g.claim.key else NewKey(v, g)
  }

  ghost predicate DisjointTargets(v: Service, g: Target, h: Target) {
    Disjoint(v, g.claim, h.claim) && Disjoint(v, h.claim, g.claim) && OwnKey(v, g) != OwnKey(v, h)
  }

  ghost predicate AllDisjoint(e: Setting, plan: Plan) {
    forall a, b :: a in plan && b in plan && a != b ==> DisjointTargets(e.service, plan[a], plan[b])
  }

  // What an action creates is its own; the item in its place, if any, is too.
  ghost predicate CreatesOwn(v: Service, g: Target) {
    Owns(v, g.claim, OwnKey(v, g), g.content)
  }

  ghost predicate FreeOrOwn(v: Service, g: Target, s: Items) {
    OwnKey(v, g) in s ==> Owns(v, g.claim, OwnKey(v, g), s[OwnKey(v, g)])
  }

  lemma DisjointKeepsApart(v: Service, a: Target, g: Target, h: Target)
    requires Closed(v, a) && Closed(v, g) && Closed(v, h) && CreatesOwn(v, a)
    requires (Creates(g) || ByKey(g.strategy)) && (Creates(h) || ByKey(h.strategy))
    requires DisjointTargets(v, g, h)
    requires (a == g || DisjointTargets(v, a, g)) && (a == h || DisjointTargets(v, a, h))
    ensures KeepsApart(v, a, g, h)
  {
  }

  lemma DisjointIsApart(v: Service, g: Target, h: Target, s: Items)
    requires Closed(v, g) && Closed(v, h) && DisjointTargets(v, g, h) && FreeOrOwn(v, g, s) && FreeOrOwn(v, h, s)
    ensures ApartIn(v, g, h, s)
  {
  }

  // Disjoint claims, different new items, and places for these that are free or
  // taken by the action's own item: that is enough for confluence.
  lemma DisjointIsConfluent(e: Setting, plan: Plan, failFast: bool, xs: seq<Action>, ys: seq<Action>,
      w: World<Backend>)
    requires AllDisjoint(e, plan)
    requires forall act <- plan ::
      && Closed(e.service, plan[act]) && (Creates(plan[act]) || ByKey(plan[act].strategy))
      && CreatesOwn(e.service, plan[act]) && FreeOrOwn(e.service, plan[act], w.server.items)
    requires StablyOnTarget(e, plan, failFast, xs, w) && StablyOnTarget(e, plan, failFast, ys, w)
    requires multiset(xs) == multiset(ys) && NoRepeats(xs) && Sorted(xs) && Sorted(ys)
    ensures EndAlike(e, failFast, xs, ys, w)
  {
    forall a, b, d | a in plan && Tied(plan, b, d) ensures KeepsApart(e.service, plan[a], plan[b], plan[d]) {
      DisjointKeepsApart(e.service, plan[a], plan[b], plan[d]);
    }
    forall b, d | Tied(plan, b, d) ensures ApartIn(e.service, plan[b], plan[d], w.server.items) {
      DisjointIsApart(e.service, plan[b], plan[d], w.server.items);
    }
    OrderConfluence(e, plan, failFast, xs, ys, w);
  }
}

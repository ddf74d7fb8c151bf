// Trying an action again: when any number of attempts, each of which may have
// failed half way, ends where one uninterrupted attempt would have ended.
module Retry {
  import opened Wire
  import opened Text
  import opened Engine
  import opened Steady
  import opened Store
  import opened Attempts

  type Attempting = Backend -> (Backend, Option<Error>)

  function Attempter(lib: Library, v: Service, faults: nat -> Fault, g: Target, a: Action, reqs: Requests): Attempting {
    b => Attempt(lib, v, faults, g, a, reqs, b)
  }

  // The result of n + 1 attempts in a row.
  function Retries(attempt: Attempting, b: Backend, n: nat): (Backend, Option<Error>) {
    if n == 0 then attempt(b) else attempt(Retries(attempt, b, n - 1).0)
  }

  ghost predicate WellClaimed(g: Target) {
    && (g.posts || Finds(g.strategy) ==> g.claim.Matching?)
    && (ByKey(g.strategy) ==> g.claim.Exactly? && !g.posts)
  }

  // The items that the action starts from allow it to be repeated.
  predicate Retryable(v: Service, g: Target, z: Items) {
    && !g.posts
    && (g.strategy.FindDeletePost? ==> |z| <= 1)
    && (g.strategy.FindPatchPost? ==> z != map[] || v.merge(g.content, g.patch) == g.content)
  }

  // Facts about the service that the following lemmas need.
  ghost predicate Orderable(v: Service, g: Target) {
    && WellClaimed(g)
    && ListsAll(v)
    && (g.strategy.FindPatchPost? ==>
          forall c: string :: v.merge(v.merge(c, g.patch), g.patch) == v.merge(c, g.patch))
  }

  // What every addressed target is like.
  ghost predicate Proper(v: Service, g: Target) {
    WellClaimed(g) && (g.posts || ByKey(g.strategy) || (Finds(g.strategy) && Orderable(v, g)))
  }

  ghost predicate InColl(g: Target, z: Items) {
    g.claim.Matching? ==> forall k <- z :: k.coll == g.claim.coll
  }

  lemma OnlyKey(v: Service, g: Target, z: Items, k: Key)
    requires Orderable(v, g) && g.claim.Matching? && InColl(g, z) && z.Keys == {k}
    ensures FirstKey(v, g.claim, z) == k
  {
    FirstKeyIn(v, g.claim, z);
  }

  lemma SingleKey(z: Items) returns (k: Key)
    requires |z| == 1
    ensures z.Keys == {k}
  {
    k :| k in z;
    assert |z.Keys - {k}| == 0;
  }

  // Every run of the action creates an item.
  predicate Renews(g: Target) {
    g.posts || g.strategy.FindDeletePost?
  }

  // After a completed action there is something to find, in the same collection.
  lemma CompletedIsThere(v: Service, g: Target, z: Items, z': Items)
    requires Proper(v, g) && (g.posts || Looks(g)) && InColl(g, z) && Completed(v, g, z, z')
    ensures z' != map[] && InColl(g, z')
    ensures !Renews(g) && z != map[] ==> z'.Keys == z.Keys
  {
    if z == map[] || Renews(g) {
      var base := if z == map[] || g.posts then z else z - {FirstKey(v, g.claim, z)};
      var id :| CreatedAs(g, base, z', id);
      assert Key(g.claim.coll, id) in z';
    } else {
      assert FirstKey(v, g.claim, z) in z';
    }
  }

  lemma RecreatedTwice(v: Service, g: Target, z: Items, z1: Items, z2: Items)
    requires Orderable(v, g) && Recreates(g) && InColl(g, z) && |z| <= 1
    requires Completed(v, g, z, z1) && Completed(v, g, z1, z2)
    ensures Completed(v, g, z, z2)
  {
    CompletedIsThere(v, g, z, z1);
    var base := DeletedBase(v, g, z);
    var id :| CreatedAs(g, base, z1, id);
    OnlyKey(v, g, z1, Key(g.claim.coll, id));
    assert z1 - {Key(g.claim.coll, id)} == base;
  }

  lemma UpdatedTwice(v: Service, g: Target, z: Items, z1: Items, z2: Items)
    requires Orderable(v, g) && Looks(g) && !g.strategy.FindDeletePost? && InColl(g, z) && Retryable(v, g, z)
    requires Completed(v, g, z, z1) && Completed(v, g, z1, z2)
    ensures z2 == z1
  {
    CompletedIsThere(v, g, z, z1);
    if z == map[] {
      var id :| CreatedAs(g, z, z1, id);
      OnlyKey(v, g, z1, Key(g.claim.coll, id));
    } else {
      assert z1.Keys == z.Keys;
      assert Ids(z1) == Ids(z);
      assert FirstKey(v, g.claim, z1) == FirstKey(v, g.claim, z);
    }
  }

  // Doing a completed action once more is absorbed.
  lemma CompletedTwice(v: Service, g: Target, z: Items, z1: Items, z2: Items)
    requires Orderable(v, g) && InColl(g, z) && Retryable(v, g, z)
    requires Completed(v, g, z, z1) && Completed(v, g, z1, z2)
    ensures Completed(v, g, z, z2)
    ensures !g.strategy.FindDeletePost? ==> z2 == z1
  {
    if g.strategy.FindDeletePost? {
      RecreatedTwice(v, g, z, z1, z2);
    } else if Finds(g.strategy) {
      UpdatedTwice(v, g, z, z1, z2);
    }
  }

  // With at most one match, deleting it leaves nothing.
  lemma DeletedBase(v: Service, g: Target, z: Items) returns (base: Items)
    requires Orderable(v, g) && Recreates(g) && InColl(g, z) && |z| <= 1
    ensures base == map[] && (z != map[] ==> base == z - {FirstKey(v, g.claim, z)})
  {
    base := map[];
    if z != map[] {
      FirstKeyIn(v, g.claim, z);
      var k := SingleKey(z);
      assert z - {k} == map[];
    }
  }

  lemma PossibleThenCompleted(v: Service, g: Target, z: Items, z1: Items, z2: Items)
    requires Orderable(v, g) && InColl(g, z) && Retryable(v, g, z)
    requires Possible(v, g, z, z1) && Completed(v, g, z1, z2)
    ensures Completed(v, g, z, z2)
  {
    if Completed(v, g, z, z1) {
      CompletedTwice(v, g, z, z1, z2);
    } else if z1 != z {
      var base := DeletedBase(v, g, z);
      FirstKeyIn(v, g.claim, z);
    }
  }

  lemma PossibleThenPossible(v: Service, g: Target, z: Items, z1: Items, z2: Items)
    requires Orderable(v, g) && InColl(g, z) && Retryable(v, g, z)
    requires Possible(v, g, z, z1) && Possible(v, g, z1, z2)
    ensures Possible(v, g, z, z2)
  {
    if Completed(v, g, z1, z2) {
      PossibleThenCompleted(v, g, z, z1, z2);
    } else if z2 != z1 {
      var base := DeletedBase(v, g, z);
      if z1 != z {
        if Completed(v, g, z, z1) {
          var id :| CreatedAs(g, base, z1, id);
          CompletedIsThere(v, g, z, z1);
          OnlyKey(v, g, z1, Key(g.claim.coll, id));
          assert z2 == base;
        }
      }
    }
  }

  lemma AddressedFacts(lib: Library, v: Service, g: Target, a: Action, reqs: Requests, s: Items)
    requires Addressed(lib, v, g, a, reqs)
    ensures Proper(v, g) && InColl(g, Zone(v, g.claim, s))
  {
  }

  lemma KeyIsAbsorbed(v: Service, g: Target, z: Items, z1: Items, z2: Items)
    requires WellClaimed(g) && ByKey(g.strategy)
    requires Possible(v, g, z, z1) && Possible(v, g, z1, z2)
    ensures Possible(v, g, z, z2)
    ensures Completed(v, g, z1, z2) ==> Completed(v, g, z, z2)
  {
  }

  lemma ContainedTwice(v: Service, g: Target, s: Items, s1: Items, s2: Items, ok1: bool, ok2: bool)
    requires Proper(v, g)
    requires InColl(g, Zone(v, g.claim, s)) && Retryable(v, g, Zone(v, g.claim, s))
    requires Contained(v, g, s, s1, ok1) && Contained(v, g, s1, s2, ok2)
    ensures Contained(v, g, s, s2, ok2)
  {
    Absorbed(v, g, Zone(v, g.claim, s), Zone(v, g.claim, s1), Zone(v, g.claim, s2));
  }

  ghost predicate AlwaysContained(v: Service, g: Target, attempt: Attempting) {
    forall b: Backend :: Contained(v, g, b.items, attempt(b).0.items, attempt(b).1.None?)
  }

  lemma {:induction false} RetriesAreContained(v: Service, g: Target, attempt: Attempting, b: Backend, n: nat)
    requires Proper(v, g)
    requires InColl(g, Zone(v, g.claim, b.items)) && Retryable(v, g, Zone(v, g.claim, b.items))
    requires AlwaysContained(v, g, attempt)
    ensures var out := Retries(attempt, b, n);
            Contained(v, g, b.items, out.0.items, out.1.None?)
  {
    if n > 0 {
      RetriesAreContained(v, g, attempt, b, n - 1);
      var (b1, err1) := Retries(attempt, b, n - 1);
      ContainedTwice(v, g, b.items, b1.items, attempt(b1).0.items, err1.None?, attempt(b1).1.None?);
    }
  }

  // Retry safety: any number of attempts, whatever failed in them and whether
  // or not the failed requests were carried out, followed by one that returns
  // nil, completes the action once, and touches nothing but its own items.
  lemma RetriesComplete(lib: Library, v: Service, faults: nat -> Fault, g: Target, a: Action, reqs: Requests,
      b: Backend, n: nat)
    requires Addressed(lib, v, g, a, reqs)
    requires Retryable(v, g, Zone(v, g.claim, b.items))
    ensures var out := Retries(Attempter(lib, v, faults, g, a, reqs), b, n);
            Contained(v, g, b.items, out.0.items, out.1.None?)
  {
    AddressedFacts(lib, v, g, a, reqs, b.items);
    AttemptsAreContained(lib, v, faults, g, a, reqs);
    RetriesAreContained(v, g, Attempter(lib, v, faults, g, a, reqs), b, n);
  }

  lemma AttemptsAreContained(lib: Library, v: Service, faults: nat -> Fault, g: Target, a: Action, reqs: Requests)
    requires Addressed(lib, v, g, a, reqs)
    ensures AlwaysContained(v, g, Attempter(lib, v, faults, g, a, reqs))
  {
    var attempt := Attempter(lib, v, faults, g, a, reqs);
    forall b: Backend ensures Contained(v, g, b.items, attempt(b).0.items, attempt(b).1.None?) {
      AttemptIsBounded(lib, v, faults, g, a, reqs, b);
    }
  }

  lemma Absorbed(v: Service, g: Target, z: Items, z1: Items, z2: Items)
    requires Proper(v, g) && InColl(g, z) && Retryable(v, g, z)
    requires Possible(v, g, z, z1) && Possible(v, g, z1, z2)
    ensures Possible(v, g, z, z2)
    ensures Completed(v, g, z1, z2) ==> Completed(v, g, z, z2)
  {
    if Looks(g) {
      PossibleThenPossible(v, g, z, z1, z2);
      if Completed(v, g, z1, z2) {
        PossibleThenCompleted(v, g, z, z1, z2);
      }
    } else {
      KeyIsAbsorbed(v, g, z, z1, z2);
    }
  }

  // Two ways of completing an action differ at most in the id of a new item.
  lemma CompletedIsUnique(v: Service, g: Target, z: Items, z1: Items, z2: Items)
    requires WellClaimed(g) && Completed(v, g, z, z1) && Completed(v, g, z, z2)
    ensures z1 == z2 ||
            exists base: Items, i1: string, i2: string :: CreatedAs(g, base, z1, i1) && CreatedAs(g, base, z2, i2)
    ensures z1 == z2 || z == map[] || Renews(g)
  {
    if g.posts || (Finds(g.strategy) && (z == map[] || g.strategy.FindDeletePost?)) {
      var base := if z == map[] || g.posts then z else z - {FirstKey(v, g.claim, z)};
      var i1 :| CreatedAs(g, base, z1, i1);
      var i2 :| CreatedAs(g, base, z2, i2);
    }
  }

  // After FIND/DELETE/POST from at most one match there is exactly one.
  lemma RecreatedItem(v: Service, g: Target, z: Items, z': Items) returns (id: string)
    requires Orderable(v, g) && Recreates(g) && InColl(g, z) && |z| <= 1
    requires Completed(v, g, z, z')
    ensures z' == map[Key(CollOf(g.claim), id) := g.content]
  {
    var base := DeletedBase(v, g, z);
    id :| CreatedAs(g, base, z', id);
  }

  // No duplicates: m matching items become max(1, m); at most the found item
  // goes or changes and at most one item is new.
  lemma NoDuplicates(v: Service, g: Target, z: Items, z': Items)
    requires Orderable(v, g) && Looks(g) && InColl(g, z) && Completed(v, g, z, z')
    ensures |z'| == if z == map[] then 1 else |z|
    ensures forall k <- z :: k != FirstKey(v, g.claim, z) ==> k in z' && z'[k] == z[k]
    ensures forall k1, k2 :: k1 in z' && k2 in z' && k1 !in z && k2 !in z ==> k1 == k2
  {
    if z == map[] {
      OneMoreItem(g, z, z');
    } else {
      FirstKeyIn(v, g.claim, z);
      var k := FirstKey(v, g.claim, z);
      if g.strategy.FindDeletePost? {
        assert (z - {k}).Keys == z.Keys - {k} && |z.Keys - {k}| == |z.Keys| - 1;
        OneMoreItem(g, z - {k}, z');
      } else {
        assert z'.Keys == z.Keys && |z'.Keys| == |z.Keys|;
      }
    }
  }

  lemma OneMoreItem(g: Target, z: Items, z': Items)
    requires Created(g, z, z')
    ensures |z'| == |z| + 1
    ensures forall k <- z :: k in z' && z'[k] == z[k]
    ensures forall k1, k2 :: k1 in z' && k2 in z' && k1 !in z && k2 !in z ==> k1 == k2
  {
    var id :| CreatedAs(g, z, z', id);
    assert z'.Keys == z.Keys + {Key(CollOf(g.claim), id)};
  }

  // ---- The condition is exact ----

  // However requests fail, a nil result means what one attempt would have done.
  ghost predicate RetrySafe(lib: Library, v: Service, g: Target, a: Action, reqs: Requests, b: Backend) {
    forall faults: nat -> Fault, n: nat ::
      var out := Retries(Attempter(lib, v, faults, g, a, reqs), b, n);
      out.1.None? ==> Completed(v, g, Zone(v, g.claim, b.items), Zone(v, g.claim, out.0.items))
  }

  // Only the third request from the backend's time on (or the second) breaks.
  function BreakAt(n: nat, applied: bool): nat -> Fault {
    m => if m == n then Broken(applied, NetworkFailure("")) else Sound
  }

  lemma InterruptedAfterListing(lib: Library, v: Service, faults: nat -> Fault, g: Target, a: Action, reqs: Requests,
      b: Backend, doc: string) returns (b': Backend)
    requires RoutedByFind(lib, v, g, a, reqs) && Recreates(g) && Zone(v, g.claim, b.items) != map[]
    requires Told(v, g, [Body(doc)])
    requires faults(b.clock).Sound? && faults(b.clock + 1).Broken? && !faults(b.clock + 1).applied
    ensures var found := FirstMatch(v, g.claim, b.items);
            FoundOrNot(Server(v, faults), g.strategy, reqs, b, doc, found) == (b', false)
    ensures Zone(v, g.claim, b'.items) == Zone(v, g.claim, b.items) - {FirstKey(v, g.claim, Zone(v, g.claim, b.items))}
    ensures b'.clock == b.clock + 2
  {
    FirstKeyIsThere(v, g, b.items);
    var req := reqs([Body(doc)], DELETE, FirstMatch(v, g.claim, b.items));
    var b1, deleted := ChangeStep(v, faults, g, req, b, DELETE);
    b' := Backend(b1.items, b1.clock + 1);
    var reply := Serve(v, faults, b, req).1;
    Unserved(v, faults, b1, reqs([Body(doc)] + [Body(reply.body)], POST, ""));
  }

  // Two requests of FIND/DELETE/POST go through and the POST does not: the
  // found item is gone and nothing has replaced it.
  lemma InterruptedBy(lib: Library, v: Service, faults: nat -> Fault, g: Target, a: Action, reqs: Requests, b: Backend)
      returns (b': Backend)
    requires Addressed(lib, v, g, a, reqs) && Recreates(g) && Zone(v, g.claim, b.items) != map[]
    requires faults(b.clock).Sound? && faults(b.clock + 1).Sound?
    requires faults(b.clock + 2).Broken? && !faults(b.clock + 2).applied
    ensures var out := Attempt(lib, v, faults, g, a, reqs, b);
            out.0 == b' && out.1.Some?
    ensures Zone(v, g.claim, b'.items) == Zone(v, g.claim, b.items) - {FirstKey(v, g.claim, Zone(v, g.claim, b.items))}
    ensures b'.clock == b.clock + 3
  {
    var doc := ReadListing(lib, v, faults, g, a, reqs, b);
    b' := InterruptedAfterListing(lib, v, faults, g, a, reqs, Backend(b.items, b.clock + 1), doc);
  }

  lemma InterruptedRecreation(lib: Library, v: Service, g: Target, a: Action, reqs: Requests, b: Backend)
      returns (b': Backend)
    requires Addressed(lib, v, g, a, reqs) && Recreates(g) && Zone(v, g.claim, b.items) != map[]
    ensures var faults := BreakAt(b.clock + 2, false);
            var out := Attempt(lib, v, faults, g, a, reqs, b);
            out.0 == b' && out.1.Some?
    ensures Zone(v, g.claim, b'.items) == Zone(v, g.claim, b.items) - {FirstKey(v, g.claim, Zone(v, g.claim, b.items))}
    ensures b'.clock == b.clock + 3
  {
    b' := InterruptedBy(lib, v, BreakAt(b.clock + 2, false), g, a, reqs, b);
  }

  // The POST of FIND/PATCH/POST is carried out, but its answer is lost.
  lemma InterruptedCreation(lib: Library, v: Service, g: Target, a: Action, reqs: Requests, b: Backend)
      returns (b': Backend)
    requires Addressed(lib, v, g, a, reqs) && Looks(g) && g.strategy.FindPatchPost?
    requires Zone(v, g.claim, b.items) == map[]
    ensures var faults := BreakAt(b.clock + 1, true);
            var out := Attempt(lib, v, faults, g, a, reqs, b);
            out.0 == b' && out.1.Some?
    ensures Created(g, map[], Zone(v, g.claim, b'.items))
    ensures b'.clock == b.clock + 2
  {
    var faults := BreakAt(b.clock + 1, true);
    var doc := ReadListing(lib, v, faults, g, a, reqs, b);
    b' := LostAnswer(v, faults, g, reqs([Body(doc)], POST, ""), Backend(b.items, b.clock + 1));
  }

  // A POST that is carried out, but whose answer is lost.
  lemma LostAnswer(v: Service, faults: nat -> Fault, g: Target, req: Request, b: Backend) returns (b': Backend)
    requires g.claim.Matching? && AssignsIds(v, g) && v.route(req) == Create(g.claim.coll, g.content)
    requires faults(b.clock).Broken? && faults(b.clock).applied
    ensures (b', false) == Final(Server(v, faults), b, req) && b'.clock == b.clock + 1
    ensures !AllowsFallback(faults(b.clock).reply) ==> !AllowsFallback(Serve(v, faults, b, req).1)
    ensures Created(g, Zone(v, g.claim, b.items), Zone(v, g.claim, b'.items))
  {
    b' := Serve(v, faults, b, req).0;
    var id := v.newId(b.items, b.clock, g.claim.coll, g.content);
    WriteInZone(v, g, b.items, Key(g.claim.coll, id), g.content);
    assert CreatedAs(g, Zone(v, g.claim, b.items), Zone(v, g.claim, b'.items), id);
  }

  // The same for an action that always posts.
  lemma InterruptedPost(lib: Library, v: Service, g: Target, a: Action, reqs: Requests, b: Backend)
      returns (b': Backend)
    requires Addressed(lib, v, g, a, reqs) && g.posts
    ensures var faults := BreakAt(PostTime(g, b), true);
            var out := Attempt(lib, v, faults, g, a, reqs, b);
            out.0 == b' && out.1.Some?
    ensures Created(g, Zone(v, g.claim, b.items), Zone(v, g.claim, b'.items))
    ensures b'.clock == PostTime(g, b) + 1
  {
    var faults := BreakAt(PostTime(g, b), true);
    DrivePosting(Ctx(lib, Server(v, faults)), g.strategy, a, reqs, b);
    if g.strategy.PostOnly? {
      b' := LostAnswer(v, faults, g, reqs([], POST, ""), b);
    } else {
      var req := reqs([], GET, "");
      var (b1, reply) := Serve(v, faults, b, req);
      assert b1 == Backend(b.items, b.clock + 1);
      b' := LostAnswer(v, faults, g, reqs([Classify(a.name, req, reply)], POST, ""), b1);
    }
  }

  // When an action that always posts sends its POST.
  function PostTime(g: Target, b: Backend): nat {
    if g.strategy.PostOnly? then b.clock else b.clock + 1
  }

  // One interrupted attempt and one undisturbed attempt.
  lemma SecondTime(lib: Library, v: Service, faults: nat -> Fault, g: Target, a: Action, reqs: Requests, b: Backend,
      b': Backend)
    requires Addressed(lib, v, g, a, reqs) && (g.posts || Looks(g))
    requires Attempt(lib, v, faults, g, a, reqs, b).0 == b' && Calm(faults, b'.clock)
    ensures var out := Retries(Attempter(lib, v, faults, g, a, reqs), b, 1);
            out.1.None? && Completed(v, g, Zone(v, g.claim, b'.items), Zone(v, g.claim, out.0.items))
  {
    AttemptIsBounded(lib, v, faults, g, a, reqs, b');
    var attempt := Attempter(lib, v, faults, g, a, reqs);
    assert Retries(attempt, b, 0) == attempt(b);
    assert Retries(attempt, b, 1) == attempt(b');
  }

  lemma OneItemShort(v: Service, g: Target, z: Items, z1: Items, z2: Items)
    requires Orderable(v, g) && Recreates(g) && InColl(g, z) && |z| >= 2
    requires z1 == z - {FirstKey(v, g.claim, z)} && Completed(v, g, z1, z2)
    ensures |z2| == |z| - 1 && !Completed(v, g, z, z2)
  {
    FirstKeyIn(v, g.claim, z);
    assert z1.Keys == z.Keys - {FirstKey(v, g.claim, z)};
    assert |z1.Keys| == |z.Keys| - 1;
    NoDuplicates(v, g, z1, z2);
    if Completed(v, g, z, z2) {
      NoDuplicates(v, g, z, z2);
      assert false;
    }
  }

  lemma WrongContent(v: Service, g: Target, z1: Items, z2: Items) returns (id: string)
    requires Orderable(v, g) && Looks(g) && g.strategy.FindPatchPost? && v.merge(g.content, g.patch) != g.content
    requires Created(g, map[], z1) && Completed(v, g, z1, z2)
    ensures z2 == map[Key(CollOf(g.claim), id) := v.merge(g.content, g.patch)] && !Completed(v, g, map[], z2)
  {
    id :| CreatedAs(g, map[], z1, id);
    OnlyKey(v, g, z1, Key(g.claim.coll, id));
    assert z2[Key(g.claim.coll, id)] == v.merge(g.content, g.patch);
  }

  lemma OneItemTooMany(v: Service, g: Target, z: Items, z1: Items, z2: Items)
    requires g.posts && Completed(v, g, z, z1) && Completed(v, g, z1, z2)
    ensures |z2| == |z| + 2 && !Completed(v, g, z, z2)
  {
    OneMoreItem(g, z, z1);
    OneMoreItem(g, z1, z2);
    if Completed(v, g, z, z2) {
      OneMoreItem(g, z, z2);
      assert false;
    }
  }

  lemma CounterExample(lib: Library, v: Service, g: Target, a: Action, reqs: Requests, b: Backend,
      faults: nat -> Fault, n: nat)
    requires var out := Retries(Attempter(lib, v, faults, g, a, reqs), b, n);
             out.1.None? && !Completed(v, g, Zone(v, g.claim, b.items), Zone(v, g.claim, out.0.items))
    ensures !RetrySafe(lib, v, g, a, reqs, b)
  {
  }

  // The second of two attempts.
  ghost function SecondAttempt(lib: Library, v: Service, faults: nat -> Fault, g: Target, a: Action, reqs: Requests,
      b: Backend): (Backend, Option<Error>)
  {
    Retries(Attempter(lib, v, faults, g, a, reqs), b, 1)
  }

  // FIND/DELETE/POST from several matches: its POST fails, the attempt after it
  // returns nil, and there is one item less than a completed attempt leaves.
  lemma RecreationLosesItems(lib: Library, v: Service, g: Target, a: Action, reqs: Requests, b: Backend)
    requires Addressed(lib, v, g, a, reqs) && Recreates(g) && |Zone(v, g.claim, b.items)| >= 2
    ensures var (b', err) := SecondAttempt(lib, v, BreakAt(b.clock + 2, false), g, a, reqs, b);
            err.None? && |Zone(v, g.claim, b'.items)| == |Zone(v, g.claim, b.items)| - 1
    ensures forall z :: Completed(v, g, Zone(v, g.claim, b.items), z) ==> |z| == |Zone(v, g.claim, b.items)|
    ensures !RetrySafe(lib, v, g, a, reqs, b)
  {
    var faults, z := BreakAt(b.clock + 2, false), Zone(v, g.claim, b.items);
    AddressedFacts(lib, v, g, a, reqs, b.items);
    var b1 := InterruptedRecreation(lib, v, g, a, reqs, b);
    SecondTime(lib, v, faults, g, a, reqs, b, b1);
    var out := Retries(Attempter(lib, v, faults, g, a, reqs), b, 1);
    OneItemShort(v, g, z, Zone(v, g.claim, b1.items), Zone(v, g.claim, out.0.items));
    CounterExample(lib, v, g, a, reqs, b, faults, 1);
    forall z' | Completed(v, g, z, z') ensures |z'| == |z| {
      NoDuplicates(v, g, z, z');
    }
  }

  // FIND/PATCH/POST from no match: the answer to its POST is lost, and the next
  // attempt patches the new item.
  lemma CreationIsPatched(lib: Library, v: Service, g: Target, a: Action, reqs: Requests, b: Backend)
      returns (id: string)
    requires Addressed(lib, v, g, a, reqs) && Looks(g) && g.strategy.FindPatchPost?
    requires Zone(v, g.claim, b.items) == map[] && v.merge(g.content, g.patch) != g.content
    ensures var (b', err) := SecondAttempt(lib, v, BreakAt(b.clock + 1, true), g, a, reqs, b);
            && err.None?
            && Zone(v, g.claim, b'.items) == map[Key(CollOf(g.claim), id) := v.merge(g.content, g.patch)]
    ensures !RetrySafe(lib, v, g, a, reqs, b)
  {
    var faults := BreakAt(b.clock + 1, true);
    var b1 := InterruptedCreation(lib, v, g, a, reqs, b);
    SecondTime(lib, v, faults, g, a, reqs, b, b1);
    AddressedFacts(lib, v, g, a, reqs, b.items);
    var out := Retries(Attempter(lib, v, faults, g, a, reqs), b, 1);
    id := WrongContent(v, g, Zone(v, g.claim, b1.items), Zone(v, g.claim, out.0.items));
    CounterExample(lib, v, g, a, reqs, b, faults, 1);
  }

  // An action that always posts: the answer to its POST is lost, and the next
  // attempt posts once more.
  lemma PostingDuplicates(lib: Library, v: Service, g: Target, a: Action, reqs: Requests, b: Backend)
    requires Addressed(lib, v, g, a, reqs) && g.posts
    ensures var (b', err) := SecondAttempt(lib, v, BreakAt(PostTime(g, b), true), g, a, reqs, b);
            err.None? && |Zone(v, g.claim, b'.items)| == |Zone(v, g.claim, b.items)| + 2
    ensures !RetrySafe(lib, v, g, a, reqs, b)
  {
    var faults := BreakAt(PostTime(g, b), true);
    var b1 := InterruptedPost(lib, v, g, a, reqs, b);
    SecondTime(lib, v, faults, g, a, reqs, b, b1);
    var out := Retries(Attempter(lib, v, faults, g, a, reqs), b, 1);
    OneItemTooMany(v, g, Zone(v, g.claim, b.items), Zone(v, g.claim, b1.items), Zone(v, g.claim, out.0.items));
    CounterExample(lib, v, g, a, reqs, b, faults, 1);
  }

  // Retrying is safe exactly when FIND/DELETE/POST starts from at most one
  // match, and FIND/PATCH/POST from some match or from a patch that changes
  // nothing. It never is for an action that always posts; for the others it
  // always is.
  lemma RetrySafety(lib: Library, v: Service, g: Target, a: Action, reqs: Requests, b: Backend)
    requires Addressed(lib, v, g, a, reqs)
    ensures RetrySafe(lib, v, g, a, reqs, b) <==> Retryable(v, g, Zone(v, g.claim, b.items))
  {
    AddressedFacts(lib, v, g, a, reqs, b.items);
    if Retryable(v, g, Zone(v, g.claim, b.items)) {
      forall faults: nat -> Fault, n: nat
        ensures var out := Retries(Attempter(lib, v, faults, g, a, reqs), b, n);
                out.1.None? ==> Completed(v, g, Zone(v, g.claim, b.items), Zone(v, g.claim, out.0.items))
      {
        RetriesComplete(lib, v, faults, g, a, reqs, b, n);
      }
    } else if g.posts {
      PostingDuplicates(lib, v, g, a, reqs, b);
    } else if g.strategy.FindDeletePost? {
      RecreationLosesItems(lib, v, g, a, reqs, b);
    } else {
      var id := CreationIsPatched(lib, v, g, a, reqs, b);
    }
  }
}

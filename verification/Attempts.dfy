// One attempt of one action against a store whose requests may fail: which
// items it can touch, and what it can leave behind.
module Attempts {
  import opened Wire
  import opened Text
  import opened Engine
  import opened Traces
  import opened Steady
  import opened Store

  // What an action is for: its strategy, the items it is responsible for, the
  // content it writes, the patch it applies, the ids that the service may give
  // to the items it creates, and whether it creates one in every run.
  datatype Target = Target(
    strategy: Strategy, claim: Claim, content: string, patch: string, assigns: string -> bool, posts: bool)

  // The action sends a POST whatever there is: it does not look for anything, or
  // does not care.
  predicate AlwaysPosts(s: Strategy, a: Action) {
    s.PostOnly? || (Finds(s) && a.findExpr == "") || (s.FindPost? && a.postIsPut)
  }

  // The action looks for its item before it writes.
  predicate Looks(g: Target) {
    Finds(g.strategy) && !g.posts
  }

  predicate ByKey(s: Strategy) {
    s.GetPutPost? || s.PutOnly? || s.PutPost?
  }

  // The verb with which a FIND strategy changes what it has found.
  predicate ChangesBy(s: Strategy, verb: Verb) {
    match verb
    case PUT => s.FindPutPost?
    case PATCH => s.FindPatchPost?
    case DELETE => s.FindDeletePost?
    case _ => false
  }

  function ChangeOp(g: Target, verb: Verb, key: Key): Op {
    match verb
    case PUT => Replace(key, g.content)
    case PATCH => Merge(key, g.patch)
    case _ => Remove(key)
  }

  // Some item with this id satisfies the action's expression. The service need
  // have no route for other ids, and the URL of a request need not show them.
  ghost predicate Findable(v: Service, g: Target, id: string) {
    id != "" && g.claim.Matching? && exists c: string :: v.matches(g.claim.expr, id, c)
  }

  // The results that the action can have when it makes its next request: none,
  // that of its GET (or of a PUT that has failed), and that of a DELETE as well.
  ghost predicate Told(v: Service, g: Target, h: seq<Sent>) {
    && |h| <= 2
    && (|h| >= 1 && h[0].Body? ==>
          if g.claim.Matching? then exists items: Items :: h[0].text == v.listing(items, g.claim.coll)
          else exists content: string :: h[0].text == v.show(content))
    && (|h| == 2 ==> h[1] == Body(""))
  }

  // An id in a document, as a number or as a quoted text.
  predicate ShowsId(n: Node, id: string) {
    n == NumericNode(id) || (n.StringNode? && n.unquoted == Some(id))
  }

  // What JSONPath yields for a document, which may be a quoted text.
  ghost predicate ShowsIds(lib: Library, doc: string, expr: string, ids: seq<string>) {
    var quoted := doc != "" && lib.unquote(doc).Some?;
    var text := if quoted then lib.unquote(doc).value else doc;
    && text != "" && lib.jsonPath(text, expr).Nodes?
    && var nodes := lib.jsonPath(text, expr).nodes;
    && |nodes| == |ids|
    && forall i :: 0 <= i < |ids| ==> ShowsId(nodes[i], ids[i])
  }

  // In a listing, the expression yields the ids of all matches, in their order.
  ghost predicate ShowsMatches(lib: Library, v: Service, c: Claim, items: Items)
    requires c.Matching?
  {
    ShowsIds(lib, v.listing(items, c.coll), c.expr, v.order(Ids(Zone(v, c, items))))
  }

  lemma HeadIsIn(ids: seq<string>)
    requires ids != []
    ensures ids[0] in ids
  {
  }

  lemma IsEmpty(ids: seq<string>)
    requires forall id: string :: id !in ids
    ensures ids == []
  {
    if ids != [] {
      HeadIsIn(ids);
    }
  }

  // The action then finds the first match, and nothing if there is none.
  lemma FindsTheFirst(lib: Library, v: Service, c: Claim, items: Items)
    requires c.Matching? && c.expr != "" && ListsAll(v) && ShowsMatches(lib, v, c, items)
    ensures FindPath(lib, v.listing(items, c.coll), c.expr) == FindResult(FirstMatch(v, c, items), None)
  {
    var z := Zone(v, c, items);
    var listed := v.order(Ids(z));
    if z == map[] {
      IsEmpty(listed);
    } else {
      var k :| k in z;
      assert k.id in Ids(z) && k.id in listed;
      var doc := v.listing(items, c.coll);
      var text := if doc != "" && lib.unquote(doc).Some? then lib.unquote(doc).value else doc;
      assert ShowsId(lib.jsonPath(text, c.expr).nodes[0], listed[0]);
    }
  }

  // The requests that the action can make reach the service's routes for its
  // target, whatever it has been answered before. Nothing is asked of the others.
  ghost predicate FindRoutes(lib: Library, v: Service, g: Target, a: Action, reqs: Requests) {
    && g.claim.Matching? && g.claim.expr == a.findExpr != "" && (g.strategy.FindPost? ==> !a.postIsPut)
    && v.route(reqs([], GET, "")) == List(g.claim.coll)
    && (forall h: seq<Sent> :: Told(v, g, h) ==> v.route(reqs(h, POST, "")) == Create(g.claim.coll, g.content))
    && (forall h: seq<Sent>, verb, id: string :: Told(v, g, h) && ChangesBy(g.strategy, verb) && Findable(v, g, id) ==>
          v.route(reqs(h, verb, id)) == ChangeOp(g, verb, Key(g.claim.coll, id)))
    && (forall items: Items :: ShowsMatches(lib, v, g.claim, items))
    && ListsAll(v)
    && WritesMatch(v, g)
  }

  // The same for an action that creates an item in every run.
  ghost predicate PostRoutes(lib: Library, v: Service, g: Target, a: Action, reqs: Requests) {
    && g.claim.Matching? && AlwaysPosts(g.strategy, a)
    && (forall h: seq<Sent> :: Told(v, g, h) ==> v.route(reqs(h, POST, "")) == Create(g.claim.coll, g.content))
    && (Finds(g.strategy) ==>
          && v.route(reqs([], GET, "")) == List(g.claim.coll)
          && forall items: Items :: FindPath(lib, v.listing(items, g.claim.coll), a.findExpr).err.None?)
  }

  // An item that the action has changed still satisfies its expression; and a
  // merge, done again, changes nothing more.
  ghost predicate WritesMatch(v: Service, g: Target)
    requires g.claim.Matching?
  {
    && (g.strategy.FindPutPost? ==>
          forall id: string, c: string :: v.matches(g.claim.expr, id, c) ==> v.matches(g.claim.expr, id, g.content))
    && (g.strategy.FindPatchPost? ==>
          && (forall id: string, c: string ::
                v.matches(g.claim.expr, id, c) ==> v.matches(g.claim.expr, id, v.merge(c, g.patch)))
          && (forall c: string :: v.merge(v.merge(c, g.patch), g.patch) == v.merge(c, g.patch)))
  }

  // The service assigns ids: a new item gets one that is not in use, and belongs
  // to the action.
  ghost predicate AssignsIds(v: Service, g: Target)
    requires g.claim.Matching?
  {
    && (forall items: Items, clock: nat ::
          var id := v.newId(items, clock, g.claim.coll, g.content);
          id != "" && Key(g.claim.coll, id) !in items && g.assigns(id))
    && (forall id: string :: g.assigns(id) ==> v.matches(g.claim.expr, id, g.content))
  }

  ghost predicate RoutedByFind(lib: Library, v: Service, g: Target, a: Action, reqs: Requests) {
    FindRoutes(lib, v, g, a, reqs) && AssignsIds(v, g)
  }

  ghost predicate RoutedByPost(lib: Library, v: Service, g: Target, a: Action, reqs: Requests) {
    PostRoutes(lib, v, g, a, reqs) && AssignsIds(v, g)
  }

  ghost predicate RoutedByKey(lib: Library, v: Service, g: Target, a: Action, reqs: Requests) {
    && g.claim.Exactly? && !g.posts
    && (forall h: seq<Sent> :: Told(v, g, h) ==> v.route(reqs(h, PUT, "")) == Replace(g.claim.key, g.content))
    && (g.strategy.GetPutPost? ==>
          v.route(reqs([], GET, "")) == Read(g.claim.key) && forall content: string :: v.show(content) != "")
    // The new item's id is the one that the content specifies.
    && (!g.strategy.PutOnly? ==>
          && (forall h: seq<Sent> :: Told(v, g, h) ==>
              v.route(reqs(h, POST, "")) == Create(g.claim.key.coll, g.content))
          && forall items: Items, clock: nat :: v.newId(items, clock, g.claim.key.coll, g.content) == g.claim.key.id)
  }

  predicate SendsGet(s: Strategy) {
    Finds(s) || s.GetPutPost?
  }

  ghost predicate Addressed(lib: Library, v: Service, g: Target, a: Action, reqs: Requests) {
    && (SendsGet(g.strategy) ==> lib.unbuildable(Endpoint(a, GET, "")).None?)
    && (g.posts || Looks(g) || ByKey(g.strategy))
    && (g.posts ==> RoutedByPost(lib, v, g, a, reqs))
    && (Looks(g) ==> RoutedByFind(lib, v, g, a, reqs))
    && (ByKey(g.strategy) ==> RoutedByKey(lib, v, g, a, reqs))
  }

  function Attempt(lib: Library, v: Service, faults: nat -> Fault, g: Target, a: Action, reqs: Requests,
      b: Backend): (Backend, Option<Error>) {
    Drive(Ctx(lib, Server(v, faults)), g.strategy, a, reqs, b, [])
  }

  // A new item with the target's content and an id that is not in use.
  ghost predicate Created(g: Target, z: Items, z': Items) {
    exists id: string :: CreatedAs(g, z, z', id)
  }

  ghost predicate CreatedAs(g: Target, z: Items, z': Items, id: string) {
    var k := Key(CollOf(g.claim), id);
    id != "" && g.assigns(id) && k !in z && z' == z[k := g.content]
  }

  predicate Recreates(g: Target) {
    g.strategy.FindDeletePost? && !g.posts
  }

  // What a completed action has made of its zone.
  ghost predicate Completed(v: Service, g: Target, z: Items, z': Items)
  {
    if g.posts then Created(g, z, z')
    else if ByKey(g.strategy) then g.claim.Exactly? && z' == map[g.claim.key := g.content]
    else if !Finds(g.strategy) then false
    else if z == map[] then Created(g, z, z')
    else
      var k := FirstKey(v, g.claim, z);
      k in z &&
      match g.strategy
      case FindPutPost => z' == z[k := g.content]
      case FindPatchPost => z' == z[k := v.merge(z[k], g.patch)]
      case FindDeletePost => Created(g, z - {k}, z')
      case _ => z' == z
  }

  // What an action that fails may have made of it.
  ghost predicate Possible(v: Service, g: Target, z: Items, z': Items)
  {
    || z' == z
    || Completed(v, g, z, z')
    || (Recreates(g) && z != map[] && z' == z - {FirstKey(v, g.claim, z)})
  }

  ghost predicate Touches(v: Service, g: Target, s: Items, s': Items, z': Items)
  {
    Outside(v, g.claim, s') == Outside(v, g.claim, s) && Zone(v, g.claim, s') == z'
  }

  lemma WriteInZone(v: Service, g: Target, s: Items, k: Key, content: string)
    requires Owns(v, g.claim, k, content)
    requires k in s ==> k in Zone(v, g.claim, s)
    ensures Touches(v, g, s, s[k := content], Zone(v, g.claim, s)[k := content])
  {
  }

  lemma RemoveFromZone(v: Service, g: Target, s: Items, k: Key)
    requires k in Zone(v, g.claim, s)
    ensures Touches(v, g, s, s - {k}, Zone(v, g.claim, s) - {k})
  {
  }

  lemma FirstKeyIsThere(v: Service, g: Target, s: Items)
    requires g.claim.Matching? && Zone(v, g.claim, s) != map[]
    requires ListsAll(v)
    ensures FirstKey(v, g.claim, Zone(v, g.claim, s)) in Zone(v, g.claim, s)
    ensures FirstMatch(v, g.claim, s) != ""
  {
    FirstKeyIn(v, g.claim, Zone(v, g.claim, s));
  }

  // A request that breaks before it is carried out only takes time.
  lemma Unserved(v: Service, faults: nat -> Fault, b: Backend, req: Request)
    requires faults(b.clock).Broken? && !faults(b.clock).applied
    ensures Final(Server(v, faults), b, req) == (Backend(b.items, b.clock + 1), false)
  {
  }

  // A request that succeeded was carried out; one that failed may have been.
  lemma ServedOrNot(v: Service, faults: nat -> Fault, b: Backend, req: Request)
    ensures var (b', reply) := Serve(v, faults, b, req);
            var (items', sound) := Carry(v, b.items, b.clock, v.route(req));
            && (b'.items == items' || b'.items == b.items) && b'.clock == b.clock + 1
            && (Succeeded(reply) ==> b'.items == items' && reply == sound)
            && (faults(b.clock).Sound? ==> b'.items == items' && reply == sound)
  {
  }

  // Every attempt: only the action's own zone changes, to something possible,
  // and a nil result means that the action is completed.
  ghost predicate Allowed(v: Service, g: Target, z: Items, z': Items, ok: bool)
  {
    Possible(v, g, z, z') && (ok ==> Completed(v, g, z, z'))
  }

  ghost predicate Contained(v: Service, g: Target, s: Items, s': Items, ok: bool)
  {
    && Outside(v, g.claim, s') == Outside(v, g.claim, s)
    && Allowed(v, g, Zone(v, g.claim, s), Zone(v, g.claim, s'), ok)
  }

  ghost predicate Bounded(v: Service, g: Target, b: Backend, out: (Backend, Option<Error>))
  {
    Contained(v, g, b.items, out.0.items, out.1.None?)
  }

  // No request fails from some moment on.
  ghost predicate Calm(faults: nat -> Fault, clock: nat) {
    forall n: nat :: n >= clock ==> faults(n).Sound?
  }

  type Serving<!S> = (S, Request) -> (S, Reply)

  // One more request, which decides the outcome.
  function Final<S>(serve: Serving<S>, server: S, req: Request): (S, bool) {
    var (server', reply) := serve(server, req);
    (server', Succeeded(reply))
  }

  // A FIND strategy after its GET, without the bookkeeping of results.
  function FoundOrNot<S>(serve: Serving<S>, s: Strategy, reqs: Requests, server: S, doc: string, found: string)
    : (S, bool)
  {
    var h := [Body(doc)];
    if found == "" then Final(serve, server, reqs(h, POST, ""))
    else match s
      case FindPutPost => Final(serve, server, reqs(h, PUT, found))
      case FindPatchPost => Final(serve, server, reqs(h, PATCH, found))
      case FindDeletePost =>
        var (server', reply) := serve(server, reqs(h, DELETE, found));
        if Succeeded(reply) then Final(serve, server', reqs(h + [Body(reply.body)], POST, "")) else (server', false)
      case _ => (server, true)
  }

  lemma LastRequest<S>(x: Ctx<S>, s: Strategy, a: Action, reqs: Requests, server: S, h: seq<Sent>)
    requires |h| <= 2
    requires var d := Decide(x.lib, s, a, "", h); d.Issue? && !d.verb.GET? && (h != [] ==> !d.verb.DELETE?)
    requires h == [] ==> !s.PutPost?
    ensures var d := Decide(x.lib, s, a, "", h);
            var out := Drive(x, s, a, reqs, server, h);
            (out.0, out.1.None?) == Final(x.serve, server, reqs(h, d.verb, d.id))
  {
    var d := Decide(x.lib, s, a, "", h);
    var req := reqs(h, d.verb, d.id);
    var (server', reply) := x.serve(server, req);
    var r := Classify(a.name, req, reply);
    var h' := h + [r];
    assert h'[|h|] == r;
    if |h| == 1 {
      assert h'[..1] == h;
    } else if |h| == 2 {
      assert h'[..2] == h;
    }
    assert Decide(x.lib, s, a, "", h') == Return(ErrorOf(r));
  }

  lemma DriveAfterGet<S>(x: Ctx<S>, s: Strategy, a: Action, reqs: Requests, server: S, doc: string, found: string)
    requires Finds(s) && FindPath(x.lib, doc, a.findExpr) == FindResult(found, None)
    requires s.FindPost? ==> !a.postIsPut
    ensures var out := Drive(x, s, a, reqs, server, [Body(doc)]);
            (out.0, out.1.None?) == FoundOrNot(x.serve, s, reqs, server, doc, found)
  {
    var r := Body(doc);
    var d := Decide(x.lib, s, a, "", [r]);
    if found == "" {
      LastRequest(x, s, a, reqs, server, [r]);
    } else if s.FindDeletePost? {
      var req := reqs([r], DELETE, found);
      var (server', reply) := x.serve(server, req);
      var r1 := Classify(a.name, req, reply);
      assert [r] + [r1] == [r, r1] && [r, r1][..1] == [r];
      if Succeeded(reply) {
        LastRequest(x, s, a, reqs, server', [r, r1]);
      }
    } else if !s.FindPost? {
      LastRequest(x, s, a, reqs, server, [r]);
    }
  }

  // The GET of a FIND strategy that looks for something.
  lemma DriveGet<S>(x: Ctx<S>, s: Strategy, a: Action, reqs: Requests, server: S)
    requires Finds(s) && CanBuild(x, a, GET) && a.findExpr != ""
    ensures var (server', reply) := x.serve(server, reqs([], GET, ""));
            var out := Drive(x, s, a, reqs, server, []);
            if Succeeded(reply) then out == Drive(x, s, a, reqs, server', [Body(reply.body)])
            else out.0 == server' && out.1.Some?
  {
    var req := reqs([], GET, "");
    var (server', reply) := x.serve(server, req);
    var r := Classify(a.name, req, reply);
    assert [] + [r] == [r];
    if !Succeeded(reply) {
      ClassifyFacts(a.name, req, reply);
      assert TextOf(r) == "";
    }
  }

  function Changed(v: Service, g: Target, z: Items, verb: Verb, k: Key): Items {
    if k !in z then z
    else match verb
      case PUT => z[k := g.content]
      case PATCH => z[k := v.merge(z[k], g.patch)]
      case _ => z - {k}
  }

  // What one more POST does, if the service assigns ids.
  lemma PostStep(v: Service, faults: nat -> Fault, g: Target, req: Request, b: Backend)
      returns (b': Backend, ok: bool)
    requires g.claim.Matching? && AssignsIds(v, g) && v.route(req) == Create(g.claim.coll, g.content)
    ensures (b', ok) == Final(Server(v, faults), b, req)
    ensures Outside(v, g.claim, b'.items) == Outside(v, g.claim, b.items)
    ensures var z, z' := Zone(v, g.claim, b.items), Zone(v, g.claim, b'.items);
            (z' == z || Created(g, z, z')) && (ok ==> Created(g, z, z'))
    ensures b'.clock == b.clock + 1 && (faults(b.clock).Sound? ==> ok)
  {
    ServedOrNot(v, faults, b, req);
    var sent := Final(Server(v, faults), b, req);
    b', ok := sent.0, sent.1;
    var id := v.newId(b.items, b.clock, g.claim.coll, g.content);
    WriteInZone(v, g, b.items, Key(g.claim.coll, id), g.content);
    if b'.items == b.items[Key(g.claim.coll, id) := g.content] {
      assert CreatedAs(g, Zone(v, g.claim, b.items), Zone(v, g.claim, b'.items), id);
    }
  }

  // What one more change of the found item does.
  lemma ChangeStep(v: Service, faults: nat -> Fault, g: Target, req: Request, b: Backend, verb: Verb)
      returns (b': Backend, ok: bool)
    requires Looks(g) && g.claim.Matching? && WritesMatch(v, g) && ChangesBy(g.strategy, verb)
    requires ListsAll(v)
    requires Zone(v, g.claim, b.items) != map[]
    requires v.route(req) == ChangeOp(g, verb, Key(g.claim.coll, FirstMatch(v, g.claim, b.items)))
    ensures (b', ok) == Final(Server(v, faults), b, req)
    ensures Outside(v, g.claim, b'.items) == Outside(v, g.claim, b.items)
    ensures var z, z' := Zone(v, g.claim, b.items), Zone(v, g.claim, b'.items);
            var k := FirstKey(v, g.claim, z);
            k in z && (z' == z || z' == Changed(v, g, z, verb, k)) && (ok ==> z' == Changed(v, g, z, verb, k))
    ensures b'.clock == b.clock + 1 && (faults(b.clock).Sound? ==> ok)
  {
    var z := Zone(v, g.claim, b.items);
    FirstKeyIsThere(v, g, b.items);
    var k := FirstKey(v, g.claim, z);
    ServedOrNot(v, faults, b, req);
    var sent := Final(Server(v, faults), b, req);
    b', ok := sent.0, sent.1;
    ChangeInZone(v, g, b.items, verb, k);
  }

  lemma ChangeInZone(v: Service, g: Target, s: Items, verb: Verb, k: Key)
    requires g.claim.Matching? && WritesMatch(v, g) && ChangesBy(g.strategy, verb)
    requires k in Zone(v, g.claim, s)
    ensures Touches(v, g, s,
        if verb.PUT? then s[k := g.content] else if verb.PATCH? then s[k := v.merge(s[k], g.patch)] else s - {k},
        Changed(v, g, Zone(v, g.claim, s), verb, k))
  {
    match verb
    case PUT => WriteInZone(v, g, s, k, g.content);
    case PATCH => WriteInZone(v, g, s, k, v.merge(s[k], g.patch));
    case DELETE => RemoveFromZone(v, g, s, k);
  }

  // The GET either fails and ends the attempt, or reads the first match.
  lemma ReadListing(lib: Library, v: Service, faults: nat -> Fault, g: Target, a: Action, reqs: Requests, b: Backend)
      returns (doc: string)
    requires Looks(g) && FindRoutes(lib, v, g, a, reqs) && lib.unbuildable(Endpoint(a, GET, "")).None?
    ensures var out := Attempt(lib, v, faults, g, a, reqs, b);
            var b1 := Backend(b.items, b.clock + 1);
            || (out.0 == b1 && out.1.Some? && faults(b.clock).Broken?)
            || (out.0, out.1.None?) == FoundOrNot(Server(v, faults), g.strategy, reqs, b1, doc,
                FirstMatch(v, g.claim, b.items))
    ensures Told(v, g, [Body(doc)])
  {
    var x := Ctx(lib, Server(v, faults));
    DriveGet(x, g.strategy, a, reqs, b);
    var (b1, reply) := Serve(v, faults, b, reqs([], GET, ""));
    assert b1 == Backend(b.items, b.clock + 1);
    doc := v.listing(b.items, g.claim.coll);
    if Succeeded(reply) {
      assert reply.body == doc;
      FindsTheFirst(lib, v, g.claim, b.items);
      DriveAfterGet(x, g.strategy, a, reqs, b1, doc, FirstMatch(v, g.claim, b.items));
    }
  }

  lemma FindAttempt(lib: Library, v: Service, faults: nat -> Fault, g: Target, a: Action, reqs: Requests, b: Backend)
    requires Looks(g) && Addressed(lib, v, g, a, reqs)
    ensures Bounded(v, g, b, Attempt(lib, v, faults, g, a, reqs, b))
    ensures Calm(faults, b.clock) ==> Attempt(lib, v, faults, g, a, reqs, b).1.None?
  {
    var doc := ReadListing(lib, v, faults, g, a, reqs, b);
    var b2, ok := AfterListing(lib, v, faults, g, a, reqs, Backend(b.items, b.clock + 1), doc);
  }

  lemma RecreationIsAllowed(v: Service, g: Target, z: Items, z': Items, ok: bool)
    requires Recreates(g) && FirstKey(v, g.claim, z) in z
    requires var base := z - {FirstKey(v, g.claim, z)};
             (z' == z || z' == base || Created(g, base, z')) && (ok ==> Created(g, base, z'))
    ensures Allowed(v, g, z, z', ok)
  {
  }

  lemma UpdateIsAllowed(v: Service, g: Target, z: Items, z': Items, verb: Verb, ok: bool)
    requires Looks(g) && ChangesBy(g.strategy, verb) && !verb.DELETE?
    requires var k := FirstKey(v, g.claim, z);
             k in z && (z' == z || z' == Changed(v, g, z, verb, k)) && (ok ==> z' == Changed(v, g, z, verb, k))
    ensures Allowed(v, g, z, z', ok)
  {
  }

  lemma CreationIsAllowed(v: Service, g: Target, z: Items, z': Items, ok: bool)
    requires Looks(g) && z == map[] && (z' == z || Created(g, z, z')) && (ok ==> Created(g, z, z'))
    ensures Allowed(v, g, z, z', ok)
  {
  }

  lemma AfterListing(lib: Library, v: Service, faults: nat -> Fault, g: Target, a: Action, reqs: Requests,
      b: Backend, doc: string) returns (b': Backend, ok: bool)
    requires Looks(g) && RoutedByFind(lib, v, g, a, reqs) && Told(v, g, [Body(doc)])
    ensures (b', ok)
         == FoundOrNot(Server(v, faults), g.strategy, reqs, b, doc, FirstMatch(v, g.claim, b.items))
    ensures Contained(v, g, b.items, b'.items, ok)
    ensures Calm(faults, b.clock) ==> ok
  {
    if Zone(v, g.claim, b.items) == map[] {
      b', ok := PostStep(v, faults, g, reqs([Body(doc)], POST, ""), b);
      CreationIsAllowed(v, g, Zone(v, g.claim, b.items), Zone(v, g.claim, b'.items), ok);
    } else {
      FirstKeyIsThere(v, g, b.items);
      match g.strategy
      case FindPutPost => b', ok := Updated(lib, v, faults, g, a, reqs, b, PUT, doc);
      case FindPatchPost => b', ok := Updated(lib, v, faults, g, a, reqs, b, PATCH, doc);
      case FindDeletePost => b', ok := Recreated(lib, v, faults, g, a, reqs, b, doc);
      case FindPost => b', ok := b, true;
    }
  }

  lemma Updated(lib: Library, v: Service, faults: nat -> Fault, g: Target, a: Action, reqs: Requests, b: Backend,
      verb: Verb, doc: string) returns (b': Backend, ok: bool)
    requires Looks(g) && RoutedByFind(lib, v, g, a, reqs) && ChangesBy(g.strategy, verb) && !verb.DELETE?
    requires Told(v, g, [Body(doc)]) && Zone(v, g.claim, b.items) != map[]
    ensures (b', ok) == Final(Server(v, faults), b, reqs([Body(doc)], verb, FirstMatch(v, g.claim, b.items)))
    ensures Contained(v, g, b.items, b'.items, ok)
    ensures Calm(faults, b.clock) ==> ok
  {
    FirstKeyIsThere(v, g, b.items);
    b', ok := ChangeStep(v, faults, g, reqs([Body(doc)], verb, FirstMatch(v, g.claim, b.items)), b, verb);
    UpdateIsAllowed(v, g, Zone(v, g.claim, b.items), Zone(v, g.claim, b'.items), verb, ok);
  }

  lemma DeletionTells(v: Service, faults: nat -> Fault, g: Target, req: Request, b: Backend, doc: string)
      returns (told: seq<Sent>)
    requires v.route(req).Remove? && Final(Server(v, faults), b, req).1 && Told(v, g, [Body(doc)])
    ensures told == [Body(doc)] + [Body(Serve(v, faults, b, req).1.body)] && Told(v, g, told)
  {
    told := [Body(doc)] + [Body(Serve(v, faults, b, req).1.body)];
    assert told[0] == [Body(doc)][0];
  }

  lemma Recreated(lib: Library, v: Service, faults: nat -> Fault, g: Target, a: Action, reqs: Requests, b: Backend,
      doc: string) returns (b': Backend, ok: bool)
    requires Recreates(g) && RoutedByFind(lib, v, g, a, reqs)
    requires Told(v, g, [Body(doc)]) && Zone(v, g.claim, b.items) != map[]
    ensures (b', ok)
         == FoundOrNot(Server(v, faults), g.strategy, reqs, b, doc, FirstMatch(v, g.claim, b.items))
    ensures Contained(v, g, b.items, b'.items, ok)
    ensures Calm(faults, b.clock) ==> ok
  {
    FirstKeyIsThere(v, g, b.items);
    var req := reqs([Body(doc)], DELETE, FirstMatch(v, g.claim, b.items));
    var b1, deleted := ChangeStep(v, faults, g, req, b, DELETE);
    if deleted {
      var told := DeletionTells(v, faults, g, req, b, doc);
      b', ok := PostStep(v, faults, g, reqs(told, POST, ""), b1);
    } else {
      b', ok := b1, false;
    }
    RecreationIsAllowed(v, g, Zone(v, g.claim, b.items), Zone(v, g.claim, b'.items), ok);
  }

  // Ids are put into URLs as they are. If the request that is meant for the found
  // item leads to another one, that one is overwritten, the found one is left as
  // it is, and the attempt returns nil: routes for findable ids are needed.
  lemma LostIdsStray(lib: Library, v: Service, faults: nat -> Fault, g: Target, a: Action, reqs: Requests, b: Backend,
      other: Key)
    requires g.strategy.FindPutPost? && a.findExpr != "" && lib.unbuildable(Endpoint(a, GET, "")).None?
    requires g.claim.Matching? && v.route(reqs([], GET, "")) == List(g.claim.coll) && Calm(faults, b.clock)
    requires var doc := v.listing(b.items, g.claim.coll);
             var f := FindPath(lib, doc, a.findExpr);
             && f.err.None? && f.found != ""
             && v.route(reqs([Body(doc)], PUT, f.found)) == Replace(other, g.content)
    requires !Owns(v, g.claim, other, g.content) && (other in b.items ==> !Owns(v, g.claim, other, b.items[other]))
    requires other in b.items || v.upserts
    ensures var (b', err) := Attempt(lib, v, faults, g, a, reqs, b);
            && err.None? && b'.items == b.items[other := g.content]
            && Zone(v, g.claim, b'.items) == Zone(v, g.claim, b.items)
  {
    var x := Ctx(lib, Server(v, faults));
    var doc := v.listing(b.items, g.claim.coll);
    DriveGet(x, g.strategy, a, reqs, b);
    DriveAfterGet(x, g.strategy, a, reqs, Backend(b.items, b.clock + 1), doc, FindPath(lib, doc, a.findExpr).found);
  }

  // ---- Actions that create an item in every run ----

  function PostingRun<S>(serve: Serving<S>, s: Strategy, a: Action, reqs: Requests, server: S): (S, bool) {
    if s.PostOnly? then Final(serve, server, reqs([], POST, ""))
    else
      var req := reqs([], GET, "");
      var (server', reply) := serve(server, req);
      if Succeeded(reply) || (s.FindDeletePost? && AllowsFallback(reply)) then
        Final(serve, server', reqs([Classify(a.name, req, reply)], POST, ""))
      else (server', false)
  }

  lemma DrivePosting<S>(x: Ctx<S>, s: Strategy, a: Action, reqs: Requests, server: S)
    requires AlwaysPosts(s, a) && (Finds(s) ==> CanBuild(x, a, GET))
    requires Finds(s) ==>
               var (server', reply) := x.serve(server, reqs([], GET, ""));
               Succeeded(reply) ==> FindPath(x.lib, reply.body, a.findExpr).err.None?
    ensures var out := Drive(x, s, a, reqs, server, []);
            (out.0, out.1.None?) == PostingRun(x.serve, s, a, reqs, server)
  {
    if s.PostOnly? {
      LastRequest(x, s, a, reqs, server, []);
    } else {
      var req := reqs([], GET, "");
      var (server', reply) := x.serve(server, req);
      var r := Classify(a.name, req, reply);
      ClassifyFacts(a.name, req, reply);
      assert [] + [r] == [r];
      assert Drive(x, s, a, reqs, server, []) == Drive(x, s, a, reqs, server', [r]);
      if Decide(x.lib, s, a, "", [r]).Issue? {
        LastRequest(x, s, a, reqs, server', [r]);
      }
    }
  }

  lemma PostAttempt(lib: Library, v: Service, faults: nat -> Fault, g: Target, a: Action, reqs: Requests, b: Backend)
    requires g.posts && Addressed(lib, v, g, a, reqs)
    ensures Bounded(v, g, b, Attempt(lib, v, faults, g, a, reqs, b))
    ensures Calm(faults, b.clock) ==> Attempt(lib, v, faults, g, a, reqs, b).1.None?
  {
    if g.strategy.PostOnly? {
      DrivePosting(Ctx(lib, Server(v, faults)), g.strategy, a, reqs, b);
      var b1, ok := PostStep(v, faults, g, reqs([], POST, ""), b);
    } else {
      var req := reqs([], GET, "");
      var (b1, reply) := Serve(v, faults, b, req);
      assert b1 == Backend(b.items, b.clock + 1);
      assert Told(v, g, [Classify(a.name, req, reply)]);
      DrivePosting(Ctx(lib, Server(v, faults)), g.strategy, a, reqs, b);
      var b2, ok := PostStep(v, faults, g, reqs([Classify(a.name, req, reply)], POST, ""), b1);
    }
  }

  // ---- Actions that know their item's key ----

  // The strategies that know their item's key, without the bookkeeping.
  function KeyRun<S>(serve: Serving<S>, s: Strategy, a: Action, reqs: Requests, server: S): (S, bool) {
    var req := reqs([], if s.GetPutPost? then GET else PUT, "");
    var (server', reply) := serve(server, req);
    var h := [Classify(a.name, req, reply)];
    match s
    case GetPutPost =>
      if Succeeded(reply) && reply.body != "" then Final(serve, server', reqs(h, PUT, ""))
      else if Succeeded(reply) || AllowsFallback(reply) then Final(serve, server', reqs(h, POST, ""))
      else (server', false)
    case PutPost =>
      if AllowsFallback(reply) then Final(serve, server', reqs(h, POST, "")) else (server', Succeeded(reply))
    case _ => (server', Succeeded(reply))
  }

  lemma DriveByKey<S>(x: Ctx<S>, s: Strategy, a: Action, reqs: Requests, server: S)
    requires ByKey(s) && (s.GetPutPost? ==> CanBuild(x, a, GET))
    ensures var out := Drive(x, s, a, reqs, server, []);
            (out.0, out.1.None?) == KeyRun(x.serve, s, a, reqs, server)
  {
    var req := reqs([], if s.GetPutPost? then GET else PUT, "");
    var (server', reply) := x.serve(server, req);
    var r := Classify(a.name, req, reply);
    ClassifyFacts(a.name, req, reply);
    assert [] + [r] == [r];
    assert Drive(x, s, a, reqs, server, []) == Drive(x, s, a, reqs, server', [r]);
    if Decide(x.lib, s, a, "", [r]).Issue? {
      LastRequest(x, s, a, reqs, server', [r]);
    }
  }

  // What a request for a known key does: nothing, or it leaves the content there.
  lemma KeyStep(lib: Library, v: Service, faults: nat -> Fault, g: Target, a: Action, reqs: Requests, b: Backend,
      h: seq<Sent>, verb: Verb) returns (b': Backend, ok: bool)
    requires RoutedByKey(lib, v, g, a, reqs) && (verb.PUT? || (verb.POST? && !g.strategy.PutOnly?)) && Told(v, g, h)
    ensures (b', ok) == Final(Server(v, faults), b, reqs(h, verb, ""))
    ensures Outside(v, g.claim, b'.items) == Outside(v, g.claim, b.items)
    ensures var z, z' := Zone(v, g.claim, b.items), Zone(v, g.claim, b'.items);
            (z' == z || z' == map[g.claim.key := g.content]) && (ok ==> z' == map[g.claim.key := g.content])
    ensures b'.clock == b.clock + 1
    ensures faults(b.clock).Sound? ==>
              ok == if verb.PUT? then g.claim.key in b.items || v.upserts else g.claim.key !in b.items
  {
    ServedOrNot(v, faults, b, reqs(h, verb, ""));
    var sent := Final(Server(v, faults), b, reqs(h, verb, ""));
    b', ok := sent.0, sent.1;
    WriteInZone(v, g, b.items, g.claim.key, g.content);
    assert Key(g.claim.key.coll, g.claim.key.id) == g.claim.key;
    assert Zone(v, g.claim, b.items)[g.claim.key := g.content] == map[g.claim.key := g.content];
  }

  // A strategy that knows its key, in a zone that is empty or holds that key.
  ghost predicate KeyOutcome(v: Service, g: Target, s: Items, s': Items, ok: bool)
    requires g.claim.Exactly?
  {
    var z, z' := Zone(v, g.claim, s), Zone(v, g.claim, s');
    var filled := map[g.claim.key := g.content];
    Outside(v, g.claim, s') == Outside(v, g.claim, s) && (z' == z || z' == filled) && (ok ==> z' == filled)
  }

  lemma GetPutPostAttempt(lib: Library, v: Service, faults: nat -> Fault, g: Target, a: Action, reqs: Requests,
      b: Backend)
    requires g.strategy.GetPutPost? && RoutedByKey(lib, v, g, a, reqs)
    ensures var out := KeyRun(Server(v, faults), g.strategy, a, reqs, b);
            KeyOutcome(v, g, b.items, out.0.items, out.1) && (Calm(faults, b.clock) ==> out.1)
  {
    var req := reqs([], GET, "");
    var (b1, reply) := Serve(v, faults, b, req);
    var h := [Classify(a.name, req, reply)];
    assert b1.items == b.items && b1.clock == b.clock + 1;
    if Succeeded(reply) && reply.body != "" {
      var b2, ok := KeyStep(lib, v, faults, g, a, reqs, b1, h, PUT);
    } else if Succeeded(reply) || AllowsFallback(reply) {
      var b2, ok := KeyStep(lib, v, faults, g, a, reqs, b1, h, POST);
    }
  }

  lemma PutAttempt(lib: Library, v: Service, faults: nat -> Fault, g: Target, a: Action, reqs: Requests, b: Backend)
    requires (g.strategy.PutOnly? || g.strategy.PutPost?) && RoutedByKey(lib, v, g, a, reqs)
    ensures var out := KeyRun(Server(v, faults), g.strategy, a, reqs, b);
            && KeyOutcome(v, g, b.items, out.0.items, out.1)
            && (Calm(faults, b.clock) && (g.strategy.PutOnly? ==> g.claim.key in b.items || v.upserts) ==> out.1)
  {
    var req := reqs([], PUT, "");
    var (b1, reply) := Serve(v, faults, b, req);
    var b1', ok1 := KeyStep(lib, v, faults, g, a, reqs, b, [], PUT);
    if g.strategy.PutPost? && AllowsFallback(reply) {
      var b2, ok := KeyStep(lib, v, faults, g, a, reqs, b1, [Classify(a.name, req, reply)], POST);
    }
  }

  lemma KeyAttempt(lib: Library, v: Service, faults: nat -> Fault, g: Target, a: Action, reqs: Requests, b: Backend)
    requires ByKey(g.strategy) && Addressed(lib, v, g, a, reqs)
    ensures Bounded(v, g, b, Attempt(lib, v, faults, g, a, reqs, b))
    ensures Calm(faults, b.clock) && (g.strategy.PutOnly? ==> g.claim.key in b.items || v.upserts) ==>
              Attempt(lib, v, faults, g, a, reqs, b).1.None?
  {
    DriveByKey(Ctx(lib, Server(v, faults)), g.strategy, a, reqs, b);
    if g.strategy.GetPutPost? {
      GetPutPostAttempt(lib, v, faults, g, a, reqs, b);
    } else {
      PutAttempt(lib, v, faults, g, a, reqs, b);
    }
  }

  // Every attempt, of each kind.
  lemma AttemptIsBounded(lib: Library, v: Service, faults: nat -> Fault, g: Target, a: Action, reqs: Requests,
      b: Backend)
    requires Addressed(lib, v, g, a, reqs)
    ensures Bounded(v, g, b, Attempt(lib, v, faults, g, a, reqs, b))
    ensures Calm(faults, b.clock) && (g.strategy.PutOnly? ==> g.claim.key in b.items || v.upserts) ==>
              Attempt(lib, v, faults, g, a, reqs, b).1.None?
  {
    if g.posts {
      PostAttempt(lib, v, faults, g, a, reqs, b);
    } else if Finds(g.strategy) {
      FindAttempt(lib, v, faults, g, a, reqs, b);
    } else {
      KeyAttempt(lib, v, faults, g, a, reqs, b);
    }
  }

  // The backend's clock never goes back.
  lemma {:induction false} TimePasses(lib: Library, v: Service, faults: nat -> Fault, s: Strategy, a: Action,
      reqs: Requests, b: Backend, h: seq<Sent>)
    requires |h| <= 3
    ensures Drive(Ctx(lib, Server(v, faults)), s, a, reqs, b, h).0.clock >= b.clock
    decreases 3 - |h|
  {
    match Decide(lib, s, a, "", h)
    case Return(_) =>
    case Issue(verb, id) =>
      var req := reqs(h, verb, id);
      var (b', reply) := Serve(v, faults, b, req);
      TimePasses(lib, v, faults, s, a, reqs, b', h + [Classify(a.name, req, reply)]);
  }
}

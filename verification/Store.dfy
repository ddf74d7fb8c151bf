// A REST server that keeps items and does what sections 9.3.1 and 9.3.3 to
// 9.3.5 of RFC 9110 (GET, POST, PUT, DELETE) and section 2 of RFC 5789 (PATCH)
// ask of it, except that any request may fail, with or without having been
// carried out.
module Store {
  import opened Wire

  datatype Key = Key(coll: string, id: string)

  type Items = map<Key, string>

  // What a request asks for; the service's routes decide.
  datatype Op =
    | List(coll: string) | Read(key: Key) | Create(coll: string, content: string)
    | Replace(key: Key, content: string) | Merge(key: Key, patch: string) | Remove(key: Key)
    | Unrouted

  // The service: its routes, how it assigns ids, in which order it lists items
  // (the `order` of a set of ids), what an expression matches, what its documents
  // look like, how it merges, and whether PUT may create.
  datatype Service = Service(
    route: Request -> Op,
    newId: (Items, nat, string, string) -> string,
    order: set<string> -> seq<string>,
    matches: (string, string, string) -> bool,
    listing: (Items, string) -> string,
    show: string -> string,
    merge: (string, string) -> string,
    upserts: bool)

  datatype Backend = Backend(items: Items, clock: nat)

  datatype Fault = Sound | Broken(applied: bool, reply: Reply)

  function Carry(v: Service, items: Items, clock: nat, op: Op): (Items, Reply) {
    match op
    case List(coll) => (items, Answer(200, v.listing(items, coll)))
    case Read(key) => if key in items then (items, Answer(200, v.show(items[key]))) else (items, Answer(404, ""))
    case Create(coll, content) =>
      var key := Key(coll, v.newId(items, clock, coll, content));
      if key in items then (items, Answer(409, "")) else (items[key := content], Answer(201, v.show(content)))
    case Replace(key, content) =>
      if key in items || v.upserts then (items[key := content], Answer(200, v.show(content)))
      else (items, Answer(404, ""))
    case Merge(key, patch) =>
      if key in items then (items[key := v.merge(items[key], patch)], Answer(200, "")) else (items, Answer(404, ""))
    case Remove(key) =>
      if key in items then (items - {key}, Answer(204, "")) else (items, Answer(404, ""))
    case Unrouted => (items, Answer(404, ""))
  }

  // A broken request is never answered with a success.
  function Failure(r: Reply): Reply {
    if Succeeded(r) then NetworkFailure("connection reset") else r
  }

  function Serve(v: Service, faults: nat -> Fault, b: Backend, req: Request): (Backend, Reply) {
    var (items', reply) := Carry(v, b.items, b.clock, v.route(req));
    match faults(b.clock)
    case Sound => (Backend(items', b.clock + 1), reply)
    case Broken(applied, r) => (Backend(if applied then items' else b.items, b.clock + 1), Failure(r))
  }

  function Server(v: Service, faults: nat -> Fault): (Backend, Request) -> (Backend, Reply) {
    (b, req) => Serve(v, faults, b, req)
  }

  // What an action is responsible for: the items that its expression matches,
  // or one known key. An item without an id cannot be found.
  datatype Claim = Matching(coll: string, expr: string) | Exactly(key: Key)

  predicate Owns(v: Service, c: Claim, k: Key, content: string) {
    match c
    case Matching(coll, expr) => k.coll == coll && k.id != "" && v.matches(expr, k.id, content)
    case Exactly(key) => k == key
  }

  function Zone(v: Service, c: Claim, items: Items): Items {
    map k | k in items && Owns(v, c, k, items[k]) :: items[k]
  }

  function Outside(v: Service, c: Claim, items: Items): Items {
    map k | k in items && !Owns(v, c, k, items[k]) :: items[k]
  }

  function Ids(z: Items): set<string> {
    set k | k in z :: k.id
  }

  function CollOf(c: Claim): string {
    match c case Matching(coll, _) => coll case Exactly(key) => key.coll
  }

  // Every item is listed somewhere.
  ghost predicate ListsAll(v: Service) {
    forall ids: set<string>, id: string :: id in v.order(ids) <==> id in ids
  }

  function First(v: Service, ids: set<string>): string {
    var listed := v.order(ids);
    if listed == [] then "" else listed[0]
  }

  function FirstKey(v: Service, c: Claim, z: Items): Key {
    Key(CollOf(c), First(v, Ids(z)))
  }

  lemma FirstKeyIn(v: Service, c: Claim, z: Items)
    requires c.Matching? && z != map[] && forall k <- z :: k.coll == c.coll
    requires ListsAll(v)
    ensures FirstKey(v, c, z) in z
  {
    var k0 :| k0 in z;
    assert k0.id in Ids(z) && k0.id in v.order(Ids(z));
    assert First(v, Ids(z)) in v.order(Ids(z));
    var k :| k in z && k.id == First(v, Ids(z));
    assert k == FirstKey(v, c, z);
  }

  // The id that a FIND action should read in the listing: the first match.
  function FirstMatch(v: Service, c: Claim, items: Items): string {
    if Zone(v, c, items) == map[] then "" else First(v, Ids(Zone(v, c, items)))
  }

  ghost predicate Disjoint(v: Service, c1: Claim, c2: Claim) {
    forall k, content :: Owns(v, c1, k, content) ==> !Owns(v, c2, k, content)
  }

  // An action that changes only its own zone leaves the zones alone that share
  // no item with it, before and after.
  lemma SeparateZones(v: Service, c1: Claim, c2: Claim, s: Items, s': Items)
    requires Outside(v, c1, s) == Outside(v, c1, s')
    requires forall k <- s :: !(Owns(v, c1, k, s[k]) && Owns(v, c2, k, s[k]))
    requires forall k <- s' :: !(Owns(v, c1, k, s'[k]) && Owns(v, c2, k, s'[k]))
    ensures Zone(v, c2, s) == Zone(v, c2, s')
  {
    forall k | k in Zone(v, c2, s) ensures k in Zone(v, c2, s') && s'[k] == s[k] {
      assert k in Outside(v, c1, s);
    }
    forall k | k in Zone(v, c2, s') ensures k in Zone(v, c2, s) {
      assert k in Outside(v, c1, s');
    }
  }
}

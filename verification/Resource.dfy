// The deep copy of a whole RestStrategy, which syncHandler and updateStatus
// work on, and the isolation that it is for
// (apis/reststrategy/v1alpha1/zz_generated.deepcopy.go,
// controller/internal/k8s/controller.go).
module Resource {
  import opened Wire
  import opened DeepCopy
  import opened Copies

  // The elements of the two slices of a spec.
  datatype AuthEntry = AuthEntry(name: string, auth: Auth)

  datatype SeederEntry = SeederEntry(name: string, action: Action)

  // `meta` stands for type and object metadata.
  class RestStrategy {
    var meta: string
    var auth: array?<AuthEntry>
    var seeders: array?<SeederEntry>
    var status: string

    constructor (meta: string, auth: array?<AuthEntry>, seeders: array?<SeederEntry>, status: string)
      ensures this.meta == meta && this.auth == auth && this.seeders == seeders && this.status == status
    {
      this.meta := meta;
      this.auth := auth;
      this.seeders := seeders;
      this.status := status;
    }
  }

  datatype RestStrategyValue = RestStrategyValue(
    meta: string, auth: Option<seq<(string, AuthValue)>>, seeders: Option<seq<(string, ActionValue)>>, status: string)

  // ---- The two slices, as sequences ----

  ghost predicate OwnedAuths(from: seq<AuthEntry>, n: nat, r: set<object>)
    reads r
  {
    forall i :: 0 <= i < |from| ==> OwnedAuth(from[i].auth, n, r)
  }

  ghost function AuthsOf(from: seq<AuthEntry>, n: nat, r: set<object>): seq<(string, AuthValue)>
    requires OwnedAuths(from, n, r)
    reads r
  {
    seq(|from|,
        i requires 0 <= i < |from| && OwnedAuth(from[i].auth, n, r) reads r =>
          (from[i].name, AuthOf(from[i].auth, n, r)))
  }

  ghost predicate OwnedSeeders(from: seq<SeederEntry>, n: nat, r: set<object>)
    reads r
  {
    forall i :: 0 <= i < |from| ==> Owned(from[i].action, n, r)
  }

  ghost function SeedersOf(from: seq<SeederEntry>, n: nat, r: set<object>): seq<(string, ActionValue)>
    requires OwnedSeeders(from, n, r)
    reads r
  {
    seq(|from|,
        i requires 0 <= i < |from| && Owned(from[i].action, n, r) reads r =>
          (from[i].name, ValueOf(from[i].action, n, r)))
  }

  lemma AuthsMore(from: seq<AuthEntry>, n: nat, r: set<object>, r': set<object>)
    requires OwnedAuths(from, n, r) && r <= r'
    ensures OwnedAuths(from, n, r') && AuthsOf(from, n, r') == AuthsOf(from, n, r)
  {
    forall i | 0 <= i < |from|
      ensures OwnedAuth(from[i].auth, n, r') && AuthOf(from[i].auth, n, r') == AuthOf(from[i].auth, n, r)
    {
      AuthMore(from[i].auth, n, r, r');
    }
  }

  lemma SeedersMore(from: seq<SeederEntry>, n: nat, r: set<object>, r': set<object>)
    requires OwnedSeeders(from, n, r) && r <= r'
    ensures OwnedSeeders(from, n, r') && SeedersOf(from, n, r') == SeedersOf(from, n, r)
  {
    forall i | 0 <= i < |from|
      ensures Owned(from[i].action, n, r') && ValueOf(from[i].action, n, r') == ValueOf(from[i].action, n, r)
    {
      OwnedMore(from[i].action, n, r, r');
    }
  }

  lemma OneMoreAuth(done: seq<AuthEntry>, one: AuthEntry, n: nat, r1: set<object>, r2: set<object>)
    requires OwnedAuths(done, n, r1) && OwnedAuth(one.auth, n, r2)
    ensures OwnedAuths(done + [one], n, r1 + r2)
    ensures AuthsOf(done + [one], n, r1 + r2) == AuthsOf(done, n, r1) + [(one.name, AuthOf(one.auth, n, r2))]
  {
    AuthsMore(done, n, r1, r1 + r2);
    AuthMore(one.auth, n, r2, r1 + r2);
  }

  lemma OneMoreSeeder(done: seq<SeederEntry>, one: SeederEntry, n: nat, r1: set<object>, r2: set<object>)
    requires OwnedSeeders(done, n, r1) && Owned(one.action, n, r2)
    ensures OwnedSeeders(done + [one], n, r1 + r2)
    ensures SeedersOf(done + [one], n, r1 + r2) == SeedersOf(done, n, r1) + [(one.name, ValueOf(one.action, n, r2))]
  {
    SeedersMore(done, n, r1, r1 + r2);
    OwnedMore(one.action, n, r2, r1 + r2);
  }

  method CopyAuths(from: seq<AuthEntry>, ghost n: nat, ghost r: set<object>)
    returns (to: seq<AuthEntry>, ghost r': set<object>)
    requires OwnedAuths(from, n, r)
    ensures fresh(r') && |to| == |from| && OwnedAuths(to, n, r') && AuthsOf(to, n, r') == old(AuthsOf(from, n, r))
  {
    to := [];
    r' := {};
    ghost var values := AuthsOf(from, n, r);
    for i := 0 to |from|
      invariant fresh(r') && |to| == i && OwnedAuths(to, n, r') && AuthsOf(to, n, r') == values[..i]
    {
      var copy, more := CopyAuth(from[i].auth, n, r);
      OneMoreAuth(to, AuthEntry(from[i].name, copy), n, r', more);
      to := to + [AuthEntry(from[i].name, copy)];
      r' := r' + more;
    }
  }

  method CopySeederList(from: seq<SeederEntry>, ghost n: nat, ghost r: set<object>)
    returns (to: seq<SeederEntry>, ghost r': set<object>)
    requires OwnedSeeders(from, n, r)
    ensures fresh(r') && |to| == |from| && OwnedSeeders(to, n, r') && SeedersOf(to, n, r') == old(SeedersOf(from, n, r))
  {
    to := [];
    r' := {};
    ghost var values := SeedersOf(from, n, r);
    for i := 0 to |from|
      invariant fresh(r') && |to| == i && OwnedSeeders(to, n, r') && SeedersOf(to, n, r') == values[..i]
    {
      var copy, more := CopyReferences(from[i].action, n, r);
      OneMoreSeeder(to, SeederEntry(from[i].name, copy), n, r', more);
      to := to + [SeederEntry(from[i].name, copy)];
      r' := r' + more;
    }
  }

  // ---- The whole object ----

  function Listed<T>(a: array?<T>): seq<T>
    reads a
  {
    if a == null then [] else a[..]
  }

  // Everything that the object reaches is in `r`.
  ghost predicate OwnedAll(x: RestStrategy, n: nat, r: set<object>)
    reads x, r
  {
    && (x.auth == null || (x.auth in r && OwnedAuths(x.auth[..], n, r)))
    && (x.seeders == null || (x.seeders in r && OwnedSeeders(x.seeders[..], n, r)))
  }

  ghost function ValueOfAll(x: RestStrategy, n: nat, r: set<object>): RestStrategyValue
    requires OwnedAll(x, n, r)
    reads x, r
  {
    RestStrategyValue(
      x.meta, if x.auth == null then None else Some(AuthsOf(x.auth[..], n, r)),
      if x.seeders == null then None else Some(SeedersOf(x.seeders[..], n, r)), x.status)
  }

  method CopyAuthSlice(a: array?<AuthEntry>, ghost n: nat, ghost r: set<object>)
    returns (b: array?<AuthEntry>, ghost r': set<object>)
    requires a == null || (a in r && OwnedAuths(a[..], n, r))
    ensures fresh(r') && (a == null <==> b == null)
    ensures a != null ==> b in r' && OwnedAuths(b[..], n, r') && AuthsOf(b[..], n, r') == old(AuthsOf(a[..], n, r))
  {
    b, r' := null, {};
    if a != null {
      var list, more := CopyAuths(a[..], n, r);
      b := new AuthEntry[|list|](i requires 0 <= i < |list| => list[i]);
      assert b[..] == list;
      r' := more + {b};
      AuthsMore(list, n, more, r');
    }
  }

  method CopySeederSlice(a: array?<SeederEntry>, ghost n: nat, ghost r: set<object>)
    returns (b: array?<SeederEntry>, ghost r': set<object>)
    requires a == null || (a in r && OwnedSeeders(a[..], n, r))
    ensures fresh(r') && (a == null <==> b == null)
    ensures a != null ==>
              b in r' && OwnedSeeders(b[..], n, r') && SeedersOf(b[..], n, r') == old(SeedersOf(a[..], n, r))
  {
    b, r' := null, {};
    if a != null {
      var list, more := CopySeederList(a[..], n, r);
      b := new SeederEntry[|list|](i requires 0 <= i < |list| => list[i]);
      assert b[..] == list;
      r' := more + {b};
      SeedersMore(list, n, more, r');
    }
  }

  // The copy has the same value and reaches only new storage.
  method CopyRestStrategy(x: RestStrategy, ghost n: nat, ghost r: set<object>)
    returns (y: RestStrategy, ghost r': set<object>)
    requires OwnedAll(x, n, r)
    ensures fresh(y) && fresh(r') && y !in r' && OwnedAll(y, n, r')
    ensures ValueOfAll(y, n, r') == old(ValueOfAll(x, n, r))
  {
    var auth, r1 := CopyAuthSlice(x.auth, n, r);
    var seeders, r2 := CopySeederSlice(x.seeders, n, r);
    y := new RestStrategy(x.meta, auth, seeders, x.status);
    r' := r1 + r2;
    if auth != null {
      AuthsMore(auth[..], n, r1, r');
    }
    if seeders != null {
      SeedersMore(seeders[..], n, r2, r');
    }
  }

  // ---- Isolation ----

  // A write to an object: through a reference of one of its actions or auth
  // configurations, to an element of one of its slices, or to its status.
  datatype Edit =
    | OnAction(i: nat, w: Scribble)
    | OnScope(i: nat, j: nat, value: string)
    | OnParam(i: nat, key: string, j: nat, value: string)
    | OnLogin(i: nat, password: bool, value: string)
    | OnCredential(i: nat, path: seq<Hop>, value: string)
    | RenameSeeder(i: nat, name: string)
    | SetStatus(message: string)

  function StatusAfter(es: seq<Edit>, status: string): string {
    if es == [] then status
    else if es[|es| - 1].SetStatus? then es[|es| - 1].message
    else StatusAfter(es[..|es| - 1], status)
  }

  ghost predicate AllRecorded(auth: seq<AuthEntry>, seeders: seq<SeederEntry>, n: nat, r: set<object>, rec: Record) {
    && (forall i :: 0 <= i < |auth| ==> OwnedAuthRecord(auth[i].auth, n, r, rec))
    && (forall i :: 0 <= i < |seeders| ==> OwnedRecord(seeders[i].action, n, r, rec))
  }

  lemma RecordAll(auth: seq<AuthEntry>, seeders: seq<SeederEntry>, n: nat, r: set<object>)
    requires OwnedAuths(auth, n, r) && OwnedSeeders(seeders, n, r)
    ensures AllRecorded(auth, seeders, n, r, RecordOf(r))
  {
    forall i | 0 <= i < |auth| ensures OwnedAuthRecord(auth[i].auth, n, r, RecordOf(r)) {
      RecordOfOwnedAuth(auth[i].auth, n, r);
    }
    forall i | 0 <= i < |seeders| ensures OwnedRecord(seeders[i].action, n, r, RecordOf(r)) {
      RecordOfOwned(seeders[i].action, n, r);
    }
  }

  lemma AllStillOwned(auth: seq<AuthEntry>, seeders: seq<SeederEntry>, n: nat, r: set<object>, rec: Record)
    requires AllRecorded(auth, seeders, n, r, rec) && ScribbledSince(r, rec)
    ensures OwnedAuths(auth, n, r) && OwnedSeeders(seeders, n, r)
  {
    forall i | 0 <= i < |auth| ensures OwnedAuth(auth[i].auth, n, r) {
      StillOwnedAuth(auth[i].auth, n, r, rec);
    }
    forall i | 0 <= i < |seeders| ensures Owned(seeders[i].action, n, r) {
      StillOwned(seeders[i].action, n, r, rec);
    }
  }

  method EditOAuth(c: OAuth, e: Edit, ghost r: set<object>, spare: array<string>)
    requires OwnedOAuth(c, r) && spare in r
    modifies Touchable(r)
    ensures ScribbledIn(r)
  {
    match e {
      case OnScope(_, j, value) =>
        if c.scopes != null && j < c.scopes.Length {
          c.scopes[j] := value;
        }
      case OnParam(_, key, j, value) => WriteSlices(c.endpointParams, r, key, j, value, spare);
      case OnLogin(_, password, value) => WriteCell(if password then c.password else c.user, r, value);
      case _ =>
    }
  }

  // The edits that go through a reference.
  method EditThrough(auth: seq<AuthEntry>, seeders: seq<SeederEntry>, e: Edit, ghost n: nat, ghost r: set<object>,
      spare: array<string>)
    requires OwnedAuths(auth, n, r) && OwnedSeeders(seeders, n, r) && spare in r
    modifies Touchable(r)
    ensures ScribbledIn(r)
  {
    match e {
      case OnAction(i, w) =>
        if i < |seeders| {
          WriteOne(seeders[i].action, n, r, w, spare);
        }
      case OnCredential(i, path, value) =>
        if i < |auth| && auth[i].auth.custom != null {
          WriteVariable(Object(auth[i].auth.custom.v.authMap), n, r, path, value);
        }
      case RenameSeeder(_, _) =>
      case SetStatus(_) =>
      case _ =>
        if e.i < |auth| && auth[e.i].auth.oauth != null {
          EditOAuth(auth[e.i].auth.oauth.v, e, r, spare);
        }
    }
  }

  method EditRecorded(auth: seq<AuthEntry>, seeders: seq<SeederEntry>, e: Edit, ghost n: nat, ghost r: set<object>,
      spare: array<string>)
    requires OwnedAuths(auth, n, r) && OwnedSeeders(seeders, n, r) && spare in r
    modifies Touchable(r)
    ensures ScribbledSince(r, old(RecordOf(r)))
  {
    EditThrough(auth, seeders, e, n, r, spare);
  }

  method EditInside(auth: seq<AuthEntry>, seeders: seq<SeederEntry>, e: Edit, ghost n: nat, ghost r: set<object>,
      spare: array<string>)
    requires OwnedAuths(auth, n, r) && OwnedSeeders(seeders, n, r) && spare in r
    modifies Touchable(r)
    ensures OwnedAuths(auth, n, r) && OwnedSeeders(seeders, n, r)
  {
    ghost var rec := RecordOf(r);
    RecordAll(auth, seeders, n, r);
    EditRecorded(auth, seeders, e, n, r, spare);
    AllStillOwned(auth, seeders, n, r, rec);
  }

  lemma MoreOwned(auth: seq<AuthEntry>, seeders: seq<SeederEntry>, n: nat, r: set<object>, r': set<object>)
    requires OwnedAuths(auth, n, r) && OwnedSeeders(seeders, n, r) && r <= r'
    ensures OwnedAuths(auth, n, r') && OwnedSeeders(seeders, n, r')
  {
    AuthsMore(auth, n, r, r');
    SeedersMore(seeders, n, r, r');
  }

  lemma TouchableMore(r: set<object>, spare: array<string>)
    ensures Touchable(r + {spare}) == Touchable(r) + {spare}
  {
  }

  // A new slice is allocated for the edits that need one.
  method EditWithSpare(auth: seq<AuthEntry>, seeders: seq<SeederEntry>, e: Edit, ghost n: nat, ghost r: set<object>)
      returns (ghost r': set<object>)
    requires OwnedAuths(auth, n, r) && OwnedSeeders(seeders, n, r)
    modifies Touchable(r)
    ensures r <= r' && fresh(r' - r) && OwnedAuths(auth, n, r') && OwnedSeeders(seeders, n, r')
  {
    var spare := new string[1](_ => "");
    r' := r + {spare};
    MoreOwned(auth, seeders, n, r, r');
    TouchableMore(r, spare);
    EditInside(auth, seeders, e, n, r', spare);
  }

  // Renaming an element changes no reference.
  method RenameAt(a: array<SeederEntry>, i: nat, name: string, ghost r: set<object>)
    modifies a
    ensures |a[..]| == |old(a[..])|
    ensures forall j :: 0 <= j < a.Length ==> a[j].action == old(a[j].action)
    ensures RecordOf(r) == old(RecordOf(r))
  {
    if i < a.Length {
      a[i] := a[i].(name := name);
    }
  }

  method Rename(a: array<SeederEntry>, i: nat, name: string, ghost auth: seq<AuthEntry>, ghost n: nat,
      ghost r: set<object>)
    requires OwnedAuths(auth, n, r) && OwnedSeeders(a[..], n, r)
    modifies a
    ensures OwnedAuths(auth, n, r) && OwnedSeeders(a[..], n, r)
  {
    ghost var rec, before := RecordOf(r), a[..];
    RecordAll(auth, before, n, r);
    RenameAt(a, i, name, r);
    NothingScribbled(r);
    AllStillOwned(auth, before, n, r, rec);
    SameActions(before, a[..], n, r);
  }

  lemma NothingScribbled(r: set<object>)
    ensures ScribbledSince(r, RecordOf(r))
  {
  }

  lemma SameActions(before: seq<SeederEntry>, after: seq<SeederEntry>, n: nat, r: set<object>)
    requires OwnedSeeders(before, n, r) && |after| == |before|
    requires forall i :: 0 <= i < |before| ==> after[i].action == before[i].action
    ensures OwnedSeeders(after, n, r)
  {
  }

  method EditLists(y: RestStrategy, e: Edit, ghost n: nat, ghost r: set<object>) returns (ghost r': set<object>)
    requires OwnedAll(y, n, r) && y !in r
    modifies Touchable(r)
    ensures fresh(r' - r) && OwnedAll(y, n, r')
  {
    ghost var auth, seeders := Listed(y.auth), Listed(y.seeders);
    assert (y.auth == null || y.auth !in Touchable(r)) && (y.seeders == null || y.seeders !in Touchable(r));
    r' := EditWithSpare(Listed(y.auth), Listed(y.seeders), e, n, r);
    assert Listed(y.auth) == auth && Listed(y.seeders) == seeders;
  }

  method RenameIn(y: RestStrategy, i: nat, name: string, ghost n: nat, ghost r: set<object>)
    requires OwnedAll(y, n, r) && y !in r
    modifies r
    ensures OwnedAll(y, n, r)
  {
    if y.seeders != null {
      Rename(y.seeders, i, name, Listed(y.auth), n, r);
    }
  }

  method EditOne(y: RestStrategy, e: Edit, ghost n: nat, ghost r: set<object>) returns (ghost r': set<object>)
    requires OwnedAll(y, n, r) && y !in r
    modifies y`status, r
    ensures fresh(r' - r) && y !in r' && OwnedAll(y, n, r')
    ensures y.status == if e.SetStatus? then e.message else old(y.status)
  {
    r' := r;
    match e
    case SetStatus(message) => y.status := message;
    case RenameSeeder(i, name) => RenameIn(y, i, name, n, r);
    case _ => r' := EditLists(y, e, n, r);
  }

  // Copy isolation: after a deep copy, no sequence of edits of the copy changes
  // the cached object; the copy itself has the status that was set last.
  method CopyThenEdit(cached: RestStrategy, es: seq<Edit>, ghost n: nat, ghost r: set<object>)
      returns (copy: RestStrategy)
    requires OwnedAll(cached, n, r) && cached !in r
    ensures fresh(copy) && OwnedAll(cached, n, r) && ValueOfAll(cached, n, r) == old(ValueOfAll(cached, n, r))
    ensures copy.status == StatusAfter(es, old(cached.status))
  {
    ghost var owned;
    copy, owned := CopyRestStrategy(cached, n, r);
    for i := 0 to |es|
      invariant fresh(owned) && copy !in owned && OwnedAll(copy, n, owned)
      invariant OwnedAll(cached, n, r) && ValueOfAll(cached, n, r) == old(ValueOfAll(cached, n, r))
      invariant copy.status == StatusAfter(es[..i], old(cached.status))
    {
      owned := EditOne(copy, es[i], n, owned);
      assert es[..i + 1][..i] == es[..i];
    }
    assert es[..|es|] == es;
  }
}

// What it means that a deep copy has the value of its original: nil where that
// is nil, and the same contents behind every reference, field by field
// (seeder/zz_generated.deepcopy.go, apis/reststrategy/v1alpha1/zz_generated.deepcopy.go).
module SameValues {
  import opened DeepCopy
  import opened Copies
  import opened Resource

  ghost predicate SameCell<T>(c: Cell?<T>, d: Cell?<T>)
    reads c, d
  {
    (c == null <==> d == null) && (c != null && d != null ==> c.v == d.v)
  }

  ghost predicate SameMap(c: StringMap?, d: StringMap?)
    reads c, d
  {
    (c == null <==> d == null) && (c != null && d != null ==> c.m == d.m)
  }

  ghost predicate SameStrings(a: array?<string>, b: array?<string>)
    reads a, b
  {
    && (a == null <==> b == null)
    && (a != null && b != null ==> a.Length == b.Length && forall i :: 0 <= i < a.Length ==> a[i] == b[i])
  }

  // ---- JSON ----

  ghost predicate SameJson(v: Value, w: Value, n: nat, r: set<object>, q: set<object>)
    requires Within(v, n, r) && Within(w, n, q)
    reads r, q
    decreases n
  {
    match v
    case Null => w.Null?
    case Scalar(t) => w.Scalar? && w.text == t
    case Object(o) =>
      && w.Object? && (o == null <==> w.o == null)
      && (o != null && w.o != null ==>
            o.m.Keys == w.o.m.Keys && forall k <- o.m :: SameJson(o.m[k], w.o.m[k], n - 1, r, q))
    case List(l) =>
      && w.List? && (l == null <==> w.l == null)
      && (l != null && w.l != null ==>
            |l.a| == |w.l.a| && forall i :: 0 <= i < |l.a| ==> SameJson(l.a[i], w.l.a[i], n - 1, r, q))
  }

  lemma {:induction false} TreesTell(v: Value, w: Value, n: nat, r: set<object>, q: set<object>)
    requires Within(v, n, r) && Within(w, n, q)
    ensures TreeOf(v, n, r) == TreeOf(w, n, q) <==> SameJson(v, w, n, r, q)
    decreases n
  {
    match v
    case Null =>
    case Scalar(_) =>
    case Object(o) =>
      if w.Object? && o != null && w.o != null {
        ObjectsTell(o, w.o, n, r, q);
      }
    case List(l) =>
      if w.List? && l != null && w.l != null {
        ListsTell(l, w.l, n, r, q);
      }
  }

  lemma {:induction false} ObjectsTell(o: JsonMap, p: JsonMap, n: nat, r: set<object>, q: set<object>)
    requires n > 0 && Within(Object(o), n, r) && Within(Object(p), n, q)
    ensures TreeOf(Object(o), n, r) == TreeOf(Object(p), n, q) <==> SameJson(Object(o), Object(p), n, r, q)
    decreases n, 0
  {
    var t, u := TreeOf(Object(o), n, r).m, TreeOf(Object(p), n, q).m;
    assert t.Keys == o.m.Keys && u.Keys == p.m.Keys;
    forall k | k in o.m && k in p.m
      ensures t[k] == u[k] <==> SameJson(o.m[k], p.m[k], n - 1, r, q)
    {
      TreesTell(o.m[k], p.m[k], n - 1, r, q);
    }
    if SameJson(Object(o), Object(p), n, r, q) {
      assert t == u;
    }
  }

  lemma {:induction false} ListsTell(l: JsonList, p: JsonList, n: nat, r: set<object>, q: set<object>)
    requires n > 0 && Within(List(l), n, r) && Within(List(p), n, q)
    ensures TreeOf(List(l), n, r) == TreeOf(List(p), n, q) <==> SameJson(List(l), List(p), n, r, q)
    decreases n, 0
  {
    var t, u := TreeOf(List(l), n, r).a, TreeOf(List(p), n, q).a;
    assert |t| == |l.a| && |u| == |p.a|;
    forall i | 0 <= i < |l.a| && i < |p.a|
      ensures t[i] == u[i] <==> SameJson(l.a[i], p.a[i], n - 1, r, q)
    {
      TreesTell(l.a[i], p.a[i], n - 1, r, q);
    }
    if SameJson(List(l), List(p), n, r, q) {
      assert t == u;
    }
  }

  // ---- Maps of slices ----

  ghost predicate SameSlices(g: map<string, array?<string>>, h: map<string, array?<string>>, r: set<object>,
      q: set<object>)
    requires OwnedLists(g, r) && OwnedLists(h, q)
    reads r, q
  {
    g.Keys == h.Keys && forall k <- g :: SameStrings(g[k], h[k])
  }

  lemma ItemsTell(a: array?<string>, b: array?<string>)
    ensures Items(a) == Items(b) <==> SameStrings(a, b)
  {
    if a != null && b != null {
      assert a[..] == b[..] <==> a.Length == b.Length && forall i :: 0 <= i < a.Length ==> a[..][i] == b[..][i];
    }
  }

  lemma SlicesTell(g: map<string, array?<string>>, h: map<string, array?<string>>, r: set<object>, q: set<object>)
    requires OwnedLists(g, r) && OwnedLists(h, q)
    ensures ListsOf(g, r) == ListsOf(h, q) <==> SameSlices(g, h, r, q)
  {
    var t, u := ListsOf(g, r), ListsOf(h, q);
    assert t.Keys == g.Keys && u.Keys == h.Keys;
    forall k | k in g && k in h ensures t[k] == u[k] <==> SameStrings(g[k], h[k]) {
      ItemsTell(g[k], h[k]);
    }
    if SameSlices(g, h, r, q) {
      assert t == u;
    }
  }

  ghost predicate SameListMap(c: ListMap?, d: ListMap?, r: set<object>, q: set<object>)
    requires OwnedParams(c, r) && OwnedParams(d, q)
    reads r, q
  {
    (c == null <==> d == null) && (c != null && d != null ==> SameSlices(c.m, d.m, r, q))
  }

  ghost predicate SameHeader(c: Cell?<ListMap?>, d: Cell?<ListMap?>, r: set<object>, q: set<object>)
    requires OwnedHeader(c, r) && OwnedHeader(d, q)
    reads r, q
  {
    (c == null <==> d == null) && (c != null && d != null ==> SameListMap(c.v, d.v, r, q))
  }

  lemma ListMapsTell(c: ListMap?, d: ListMap?, r: set<object>, q: set<object>)
    requires OwnedParams(c, r) && OwnedParams(d, q)
    ensures ParamsOf(c, r) == ParamsOf(d, q) <==> SameListMap(c, d, r, q)
  {
    if c != null && d != null {
      SlicesTell(c.m, d.m, r, q);
    }
  }

  lemma HeadersTell(c: Cell?<ListMap?>, d: Cell?<ListMap?>, r: set<object>, q: set<object>)
    requires OwnedHeader(c, r) && OwnedHeader(d, q)
    ensures HeaderOf(c, r) == HeaderOf(d, q) <==> SameHeader(c, d, r, q)
  {
    if c != null && d != null {
      ListMapsTell(c.v, d.v, r, q);
    }
  }

  // ---- Actions ----

  ghost predicate SameSuffixes(s: Suffixes, t: Suffixes, r: set<object>, q: set<object>)
    requires OwnedSuffixes(s, r) && OwnedSuffixes(t, q)
    reads r, q
  {
    && SameCell(s.get, t.get) && SameCell(s.post, t.post) && SameCell(s.patch, t.patch) && SameCell(s.put, t.put)
    && SameCell(s.delete, t.delete)
  }

  ghost predicate SameAction(a: Action, b: Action, n: nat, r: set<object>, q: set<object>)
    requires Owned(a, n, r) && Owned(b, n, q)
    reads r, q
  {
    && a.plain == b.plain && SameHeader(a.header, b.header, r, q) && SameCell(a.order, b.order)
    && SameSuffixes(a.suffixes, b.suffixes, r, q) && SameMap(a.runtimeVars, b.runtimeVars)
    && (a.httpHeaders == null <==> b.httpHeaders == null)
    && (a.httpHeaders != null && b.httpHeaders != null ==> SameMap(a.httpHeaders.v, b.httpHeaders.v))
    && SameJson(Object(a.variables), Object(b.variables), n, r, q)
  }

  // Two actions have the same value exactly when they agree in each field.
  lemma ActionsTell(a: Action, b: Action, n: nat, r: set<object>, q: set<object>)
    requires Owned(a, n, r) && Owned(b, n, q)
    ensures ValueOf(a, n, r) == ValueOf(b, n, q) <==> SameAction(a, b, n, r, q)
  {
    HeadersTell(a.header, b.header, r, q);
    TreesTell(Object(a.variables), Object(b.variables), n, r, q);
  }

  // ---- Auth configurations ----

  ghost predicate SameOAuth(c: OAuth, d: OAuth, r: set<object>, q: set<object>)
    requires OwnedOAuth(c, r) && OwnedOAuth(d, q)
    reads r, q
  {
    && c.plain == d.plain && SameStrings(c.scopes, d.scopes)
    && SameListMap(c.endpointParams, d.endpointParams, r, q)
    && SameCell(c.user, d.user) && SameCell(c.password, d.password)
  }

  ghost predicate SameAuth(a: Auth, b: Auth, n: nat, r: set<object>, q: set<object>)
    requires OwnedAuth(a, n, r) && OwnedAuth(b, n, q)
    reads r, q
  {
    && a.plain == b.plain && (a.oauth == null <==> b.oauth == null) && (a.custom == null <==> b.custom == null)
    && (a.oauth != null && b.oauth != null ==> SameOAuth(a.oauth.v, b.oauth.v, r, q))
    && (a.custom != null && b.custom != null ==>
          && a.custom.v.plain == b.custom.v.plain
          && SameJson(Object(a.custom.v.authMap), Object(b.custom.v.authMap), n, r, q))
  }

  lemma OAuthsTell(c: OAuth, d: OAuth, r: set<object>, q: set<object>)
    requires OwnedOAuth(c, r) && OwnedOAuth(d, q)
    ensures OAuthOf(c, r) == OAuthOf(d, q) <==> SameOAuth(c, d, r, q)
  {
    ItemsTell(c.scopes, d.scopes);
    ListMapsTell(c.endpointParams, d.endpointParams, r, q);
  }

  lemma AuthsTell(a: Auth, b: Auth, n: nat, r: set<object>, q: set<object>)
    requires OwnedAuth(a, n, r) && OwnedAuth(b, n, q)
    ensures AuthOf(a, n, r) == AuthOf(b, n, q) <==> SameAuth(a, b, n, r, q)
  {
    if a.oauth != null && b.oauth != null {
      OAuthsTell(a.oauth.v, b.oauth.v, r, q);
    }
    if a.custom != null && b.custom != null {
      TreesTell(Object(a.custom.v.authMap), Object(b.custom.v.authMap), n, r, q);
    }
  }

  // ---- Whole resources ----

  ghost predicate SameAuths(s: seq<AuthEntry>, t: seq<AuthEntry>, n: nat, r: set<object>, q: set<object>)
    requires OwnedAuths(s, n, r) && OwnedAuths(t, n, q)
    reads r, q
  {
    |s| == |t| && forall i :: 0 <= i < |s| ==> s[i].name == t[i].name && SameAuth(s[i].auth, t[i].auth, n, r, q)
  }

  ghost predicate SameSeeders(s: seq<SeederEntry>, t: seq<SeederEntry>, n: nat, r: set<object>, q: set<object>)
    requires OwnedSeeders(s, n, r) && OwnedSeeders(t, n, q)
    reads r, q
  {
    |s| == |t| && forall i :: 0 <= i < |s| ==> s[i].name == t[i].name && SameAction(s[i].action, t[i].action, n, r, q)
  }

  lemma AuthListsTell(s: seq<AuthEntry>, t: seq<AuthEntry>, n: nat, r: set<object>, q: set<object>)
    requires OwnedAuths(s, n, r) && OwnedAuths(t, n, q)
    ensures AuthsOf(s, n, r) == AuthsOf(t, n, q) <==> SameAuths(s, t, n, r, q)
  {
    var u, v := AuthsOf(s, n, r), AuthsOf(t, n, q);
    forall i | 0 <= i < |s| && i < |t|
      ensures u[i] == v[i] <==> s[i].name == t[i].name && SameAuth(s[i].auth, t[i].auth, n, r, q)
    {
      AuthsTell(s[i].auth, t[i].auth, n, r, q);
    }
    if SameAuths(s, t, n, r, q) {
      assert u == v;
    }
  }

  lemma SeederListsTell(s: seq<SeederEntry>, t: seq<SeederEntry>, n: nat, r: set<object>, q: set<object>)
    requires OwnedSeeders(s, n, r) && OwnedSeeders(t, n, q)
    ensures SeedersOf(s, n, r) == SeedersOf(t, n, q) <==> SameSeeders(s, t, n, r, q)
  {
    var u, v := SeedersOf(s, n, r), SeedersOf(t, n, q);
    forall i | 0 <= i < |s| && i < |t|
      ensures u[i] == v[i] <==> s[i].name == t[i].name && SameAction(s[i].action, t[i].action, n, r, q)
    {
      ActionsTell(s[i].action, t[i].action, n, r, q);
    }
    if SameSeeders(s, t, n, r, q) {
      assert u == v;
    }
  }

  // Two resources have the same value exactly when they agree in each field, entry
  // by entry and at every depth.
  lemma ResourcesTell(x: RestStrategy, y: RestStrategy, n: nat, r: set<object>, q: set<object>)
    requires OwnedAll(x, n, r) && OwnedAll(y, n, q)
    ensures ValueOfAll(x, n, r) == ValueOfAll(y, n, q) <==>
              && x.meta == y.meta && x.status == y.status
              && (x.auth == null <==> y.auth == null) && (x.seeders == null <==> y.seeders == null)
              && (x.auth != null && y.auth != null ==> SameAuths(x.auth[..], y.auth[..], n, r, q))
              && (x.seeders != null && y.seeders != null ==> SameSeeders(x.seeders[..], y.seeders[..], n, r, q))
  {
    if x.auth != null && y.auth != null {
      AuthListsTell(x.auth[..], y.auth[..], n, r, q);
    }
    if x.seeders != null && y.seeders != null {
      SeederListsTell(x.seeders[..], y.seeders[..], n, r, q);
    }
  }
}

// Deep copies of auth configurations and of whole maps of actions, and what
// they are for: no writes to a copy can be seen in the original
// (seeder/zz_generated.deepcopy.go).
module Copies {
  import opened Wire
  import opened DeepCopy

  // ---- ConfigOAuth, CustomToken and AuthConfig ----

  // `plain` stands for the fields that hold no reference.
  datatype OAuth = OAuth(plain: string, scopes: array?<string>, endpointParams: ListMap?, user: Cell?<string>,
      password: Cell?<string>)

  datatype Token = Token(plain: string, authMap: JsonMap?)

  datatype Auth = Auth(plain: string, oauth: Cell?<OAuth>, custom: Cell?<Token>)

  datatype OAuthValue = OAuthValue(plain: string, scopes: Option<seq<string>>,
      endpointParams: Option<map<string, Option<seq<string>>>>, user: Option<string>, password: Option<string>)

  datatype AuthValue = AuthValue(plain: string, oauth: Option<OAuthValue>, custom: Option<(string, Tree)>)

  // A possibly nil map[string][]string.
  ghost predicate OwnedParams(h: ListMap?, r: set<object>)
    reads r
  {
    h == null || (h in r && OwnedLists(h.m, r))
  }

  ghost function ParamsOf(h: ListMap?, r: set<object>): Option<map<string, Option<seq<string>>>>
    requires OwnedParams(h, r)
    reads r
  {
    if h == null then None else Some(ListsOf(h.m, r))
  }

  ghost predicate OwnedOAuth(c: OAuth, r: set<object>)
    reads r
  {
    && (c.scopes == null || c.scopes in r)
    && OwnedParams(c.endpointParams, r)
    && OwnedCell(c.user, r) && OwnedCell(c.password, r)
  }

  ghost function OAuthOf(c: OAuth, r: set<object>): OAuthValue
    requires OwnedOAuth(c, r)
    reads r
  {
    OAuthValue(c.plain, Items(c.scopes), ParamsOf(c.endpointParams, r), Pointed(c.user), Pointed(c.password))
  }

  method CopyParams(h: ListMap?, ghost r: set<object>) returns (d: ListMap?, ghost r': set<object>)
    requires OwnedParams(h, r)
    ensures fresh(r') && OwnedParams(d, r') && ParamsOf(d, r') == old(ParamsOf(h, r))
  {
    d, r' := null, {};
    if h != null {
      ghost var more;
      d, more := CopyLists(h, r);
      r' := more + {d};
      OwnedAnywhere(d.m, more, r');
    }
  }

  method CopyOAuth(c: OAuth, ghost r: set<object>) returns (d: OAuth, ghost r': set<object>)
    requires OwnedOAuth(c, r)
    ensures fresh(r') && OwnedOAuth(d, r') && OAuthOf(d, r') == old(OAuthOf(c, r))
  {
    d := c;
    var scopes := CopyStrings(c.scopes);
    d := d.(scopes := scopes);
    var params, lists := CopyParams(c.endpointParams, r);
    d := d.(endpointParams := params);
    var user := CopyPointer(c.user);
    d := d.(user := user);
    var password := CopyPointer(c.password);
    d := d.(password := password);
    r' := lists + Own(user) + Own(password) + (if scopes == null then {} else {scopes});
    if params != null {
      OwnedAnywhere(params.m, lists, r');
    }
  }

  ghost predicate OwnedAuth(a: Auth, n: nat, r: set<object>)
    reads r
  {
    && (a.oauth == null || (a.oauth in r && OwnedOAuth(a.oauth.v, r)))
    && (a.custom == null || (a.custom in r && Within(Object(a.custom.v.authMap), n, r)))
  }

  ghost function AuthOf(a: Auth, n: nat, r: set<object>): AuthValue
    requires OwnedAuth(a, n, r)
    reads r
  {
    AuthValue(a.plain, if a.oauth == null then None else Some(OAuthOf(a.oauth.v, r)),
              if a.custom == null then None else Some((a.custom.v.plain, TreeOf(Object(a.custom.v.authMap), n, r))))
  }

  lemma OAuthMore(c: OAuth, r: set<object>, r': set<object>)
    requires OwnedOAuth(c, r) && r <= r'
    ensures OwnedOAuth(c, r') && OAuthOf(c, r') == OAuthOf(c, r)
  {
    if c.endpointParams != null {
      OwnedAnywhere(c.endpointParams.m, r, r');
    }
  }

  lemma AuthMore(a: Auth, n: nat, r: set<object>, r': set<object>)
    requires OwnedAuth(a, n, r) && r <= r'
    ensures OwnedAuth(a, n, r') && AuthOf(a, n, r') == AuthOf(a, n, r)
  {
    if a.oauth != null {
      OAuthMore(a.oauth.v, r, r');
    }
    if a.custom != null {
      WithinMore(Object(a.custom.v.authMap), n, r, r');
    }
  }

  method CopyOAuthPointer(c: Cell?<OAuth>, ghost r: set<object>) returns (d: Cell?<OAuth>, ghost r': set<object>)
    requires c == null || (c in r && OwnedOAuth(c.v, r))
    ensures fresh(r') && (c == null <==> d == null)
    ensures c != null ==> d in r' && OwnedOAuth(d.v, r') && OAuthOf(d.v, r') == old(OAuthOf(c.v, r))
  {
    d, r' := null, {};
    if c != null {
      var copy, more := CopyOAuth(c.v, r);
      d := new Cell(copy);
      r' := more + {d};
      OAuthMore(copy, more, r');
    }
  }

  method CopyAuth(a: Auth, ghost n: nat, ghost r: set<object>) returns (d: Auth, ghost r': set<object>)
    requires OwnedAuth(a, n, r)
    ensures fresh(r') && OwnedAuth(d, n, r') && AuthOf(d, n, r') == old(AuthOf(a, n, r))
  {
    var oauth, r1 := CopyOAuthPointer(a.oauth, r);
    var custom, r2 := CopyToken(a.custom, n, r);
    d := Auth(a.plain, oauth, custom);
    r' := r1 + r2;
    if oauth != null {
      OAuthMore(oauth.v, r1, r');
    }
    if custom != null {
      WithinMore(Object(custom.v.authMap), n, r2, r');
    }
  }

  method CopyToken(t: Cell?<Token>, ghost n: nat, ghost r: set<object>) returns (d: Cell?<Token>, ghost r': set<object>)
    requires t == null || (t in r && Within(Object(t.v.authMap), n, r))
    ensures fresh(r') && (t == null <==> d == null)
    ensures t != null ==>
              && d in r' && Within(Object(d.v.authMap), n, r') && d.v.plain == t.v.plain
              && TreeOf(Object(d.v.authMap), n, r') == old(TreeOf(Object(t.v.authMap), n, r))
  {
    d, r' := null, {};
    if t != null {
      var tree, more := CopyVariables(t.v.authMap, n, r);
      d := new Cell(Token(t.v.plain, tree));
      r' := more + {d};
      WithinMore(Object(tree), n, more, r');
    }
  }

  // ---- AuthMap and Seeders ----

  class AuthMap {
    var m: map<string, Auth>

    constructor (m: map<string, Auth>)
      ensures this.m == m
    {
      this.m := m;
    }
  }

  ghost predicate CopiedAuths(from: map<string, Auth>, r: set<object>, to: map<string, Auth>, r': set<object>, n: nat)
    reads r, r'
  {
    forall k <- to ::
      k in from && OwnedAuth(from[k], n, r) && OwnedAuth(to[k], n, r') && AuthOf(to[k], n, r') == AuthOf(from[k], n, r)
  }

  lemma CopiedAuthsMore(from: map<string, Auth>, r: set<object>, to: map<string, Auth>, kids: set<object>, n: nat,
      k: string, a: Auth, more: set<object>)
    requires CopiedAuths(from, r, to, kids, n)
    requires k in from && OwnedAuth(from[k], n, r) && OwnedAuth(a, n, more)
    requires AuthOf(a, n, more) == AuthOf(from[k], n, r)
    ensures CopiedAuths(from, r, to[k := a], kids + more, n)
  {
    AuthMore(a, n, more, kids + more);
    forall j | j in to
      ensures OwnedAuth(to[j], n, kids + more) && AuthOf(to[j], n, kids + more) == AuthOf(from[j], n, r)
    {
      AuthMore(to[j], n, kids, kids + more);
    }
  }

  method CopyAuthMapEntry(from: map<string, Auth>, ghost r: set<object>, ghost to: map<string, Auth>,
      ghost kids: set<object>, ghost n: nat, k: string)
    returns (copy: Auth, ghost kids': set<object>)
    requires CopiedAuths(from, r, to, kids, n) && k in from && OwnedAuth(from[k], n, r)
    ensures kids <= kids' && fresh(kids' - kids) && CopiedAuths(from, r, to[k := copy], kids', n)
  {
    ghost var more;
    copy, more := CopyAuth(from[k], n, r);
    CopiedAuthsMore(from, r, to, kids, n, k, copy, more);
    kids' := kids + more;
  }

  // AuthMap.DeepCopyInto. The result has the same keys, and each of its values
  // equals that of the source but reaches new storage only.
  method CopyAuthMap(a: AuthMap, ghost n: nat, ghost r: set<object>) returns (c: AuthMap, ghost kids: set<object>)
    requires forall k <- a.m :: OwnedAuth(a.m[k], n, r)
    ensures fresh(c) && fresh(kids) && c !in kids && c.m.Keys == a.m.Keys
    ensures CopiedAuths(a.m, r, c.m, kids, n)
  {
    var m: map<string, Auth> := map[];
    kids := {};
    var todo := a.m.Keys;
    while todo != {}
      invariant todo <= a.m.Keys && m.Keys == a.m.Keys - todo && fresh(kids)
      invariant CopiedAuths(a.m, r, m, kids, n)
    {
      var k :| k in todo;
      var copy;
      copy, kids := CopyAuthMapEntry(a.m, r, m, kids, n, k);
      m := m[k := copy];
      todo := todo - {k};
    }
    c := new AuthMap(m);
  }

  class Seeders {
    var m: map<string, Action>

    constructor (m: map<string, Action>)
      ensures this.m == m
    {
      this.m := m;
    }
  }

  ghost predicate AllOwned(m: map<string, Action>, n: nat, r: set<object>)
    reads r
  {
    forall k <- m :: Owned(m[k], n, r)
  }

  ghost predicate CopiedActions(from: map<string, Action>, r: set<object>, to: map<string, Action>, r': set<object>,
      n: nat)
    reads r, r'
  {
    forall k <- to ::
      k in from && Owned(from[k], n, r) && Owned(to[k], n, r') && ValueOf(to[k], n, r') == ValueOf(from[k], n, r)
  }

  lemma CopiedActionsMore(from: map<string, Action>, r: set<object>, to: map<string, Action>, kids: set<object>,
      n: nat, k: string, a: Action, more: set<object>)
    requires CopiedActions(from, r, to, kids, n)
    requires k in from && Owned(from[k], n, r) && Owned(a, n, more) && ValueOf(a, n, more) == ValueOf(from[k], n, r)
    ensures CopiedActions(from, r, to[k := a], kids + more, n)
  {
    OwnedMore(a, n, more, kids + more);
    forall j | j in to
      ensures Owned(to[j], n, kids + more) && ValueOf(to[j], n, kids + more) == ValueOf(from[j], n, r)
    {
      OwnedMore(to[j], n, kids, kids + more);
    }
  }

  method CopySeedersEntry(from: map<string, Action>, ghost r: set<object>, ghost to: map<string, Action>,
      ghost kids: set<object>, ghost n: nat, k: string)
    returns (copy: Action, ghost kids': set<object>)
    requires CopiedActions(from, r, to, kids, n) && k in from && AllOwned(from, n, r)
    ensures kids <= kids' && fresh(kids' - kids) && CopiedActions(from, r, to[k := copy], kids', n)
  {
    ghost var more;
    copy, more := CopyReferences(from[k], n, r);
    CopiedActionsMore(from, r, to, kids, n, k, copy, more);
    kids' := kids + more;
  }

  method CopyActions(from: map<string, Action>, ghost n: nat, ghost r: set<object>)
      returns (m: map<string, Action>, ghost kids: set<object>)
    requires AllOwned(from, n, r)
    ensures fresh(kids) && m.Keys == from.Keys && CopiedActions(from, r, m, kids, n)
  {
    m := map[];
    kids := {};
    var todo := from.Keys;
    while todo != {}
      invariant todo <= from.Keys && m.Keys == from.Keys - todo && fresh(kids)
      invariant CopiedActions(from, r, m, kids, n)
    {
      var k :| k in todo;
      var copy;
      copy, kids := CopySeedersEntry(from, r, m, kids, n, k);
      m := m[k := copy];
      todo := todo - {k};
    }
  }

  // Seeders.DeepCopyInto.
  method CopySeeders(a: Seeders, ghost n: nat, ghost r: set<object>) returns (c: Seeders, ghost kids: set<object>)
    requires AllOwned(a.m, n, r)
    ensures fresh(c) && fresh(kids) && c !in kids && c.m.Keys == a.m.Keys
    ensures CopiedActions(a.m, r, c.m, kids, n)
  {
    var m;
    m, kids := CopyActions(a.m, n, r);
    c := new Seeders(m);
  }

  // ---- Isolation ----

  // A step into nested JSON.
  datatype Hop = Entry(key: string) | Element(i: nat)

  // A write through some reference of an action. A header that is not there, or
  // is too short, is given a new slice.
  datatype Scribble =
    | SetHeader(key: string, i: nat, value: string)
    | SetOrder(n: int)
    | SetSuffix(which: nat, value: string)
    | SetRuntimeVar(key: string, value: string)
    | SetHttpHeader(key: string, value: string)
    | SetVariable(path: seq<Hop>, value: string)

  function SuffixCell(s: Suffixes, which: nat): Cell?<string> {
    match which % 5
    case 0 => s.get
    case 1 => s.post
    case 2 => s.patch
    case 3 => s.put
    case _ => s.delete
  }

  type Objects = map<JsonMap, map<string, Value>>

  type Lists = map<JsonList, seq<Value>>

  ghost function ObjectsIn(r: set<object>): Objects
    reads r
  {
    map o: JsonMap | o in r :: o.m
  }

  ghost function ListsIn(r: set<object>): Lists
    reads r
  {
    map l: JsonList | l in r :: l.a
  }

  // `Within`, read off a record of what the objects and lists hold.
  ghost predicate WithinRecord(v: Value, n: nat, os: Objects, ls: Lists)
    decreases n
  {
    match v
    case Null => true
    case Scalar(_) => true
    case Object(o) => o == null || (o in os && n > 0 && forall k <- os[o] :: WithinRecord(os[o][k], n - 1, os, ls))
    case List(l) =>
      l == null || (l in ls && n > 0 && forall i :: 0 <= i < |ls[l]| ==> WithinRecord(ls[l][i], n - 1, os, ls))
  }

  lemma {:induction false} RecordOfWithin(v: Value, n: nat, r: set<object>)
    ensures Within(v, n, r) <==> WithinRecord(v, n, ObjectsIn(r), ListsIn(r))
    decreases n
  {
    match v
    case Null =>
    case Scalar(_) =>
    case Object(o) =>
      if o != null && o in r && n > 0 {
        forall k | k in o.m
          ensures Within(o.m[k], n - 1, r) <==> WithinRecord(o.m[k], n - 1, ObjectsIn(r), ListsIn(r))
        {
          RecordOfWithin(o.m[k], n - 1, r);
        }
      }
    case List(l) =>
      if l != null && l in r && n > 0 {
        forall i | 0 <= i < |l.a|
          ensures Within(l.a[i], n - 1, r) <==> WithinRecord(l.a[i], n - 1, ObjectsIn(r), ListsIn(r))
        {
          RecordOfWithin(l.a[i], n - 1, r);
        }
      }
  }

  // Objects have been given scalars at most.
  ghost predicate OnlyScalars(r: set<object>, os: Objects)
    reads r
  {
    && (forall o <- os :: o in r)
    && forall o: JsonMap | o in r ::
         o in os && forall k <- o.m :: o.m[k].Scalar? || (k in os[o] && o.m[k] == os[o][k])
  }

  // And so have lists.
  ghost predicate OnlyScalarElements(r: set<object>, ls: Lists)
    reads r
  {
    && (forall l <- ls :: l in r)
    && forall l: JsonList | l in r ::
         l in ls && |l.a| == |ls[l]| && forall i :: 0 <= i < |l.a| ==> l.a[i].Scalar? || l.a[i] == ls[l][i]
  }

  lemma {:induction false} ScalarsStayWithin(v: Value, n: nat, r: set<object>, os: Objects, ls: Lists)
    requires OnlyScalars(r, os) && OnlyScalarElements(r, ls) && WithinRecord(v, n, os, ls)
    ensures Within(v, n, r)
    decreases n
  {
    match v
    case Null =>
    case Scalar(_) =>
    case Object(o) =>
      if o != null {
        forall k | k in o.m ensures Within(o.m[k], n - 1, r) {
          if !o.m[k].Scalar? {
            ScalarsStayWithin(o.m[k], n - 1, r, os, ls);
          }
        }
      }
    case List(l) =>
      if l != null {
        forall i | 0 <= i < |l.a| ensures Within(l.a[i], n - 1, r) {
          if !l.a[i].Scalar? {
            ScalarsStayWithin(l.a[i], n - 1, r, os, ls);
          }
        }
      }
  }

  type Slices = map<ListMap, map<string, array?<string>>>

  // Maps of slices have been given slices of `r` at most.
  ghost predicate OnlySlices(r: set<object>, hs: Slices)
    reads r
  {
    && (forall h <- hs :: h in r)
    && forall h: ListMap | h in r ::
         h in hs && forall k <- h.m :: h.m[k] == null || h.m[k] in r || (k in hs[h] && h.m[k] == hs[h][k])
  }

  // What the objects of `r` hold, as far as ownership depends on it.
  datatype Record = Record(
    os: Objects, ls: Lists, headers: map<Cell<ListMap?>, ListMap?>, lists: Slices,
    mapPointers: map<Cell<StringMap?>, StringMap?>, oauths: map<Cell<OAuth>, OAuth>, tokens: map<Cell<Token>, Token>)

  ghost function RecordOf(r: set<object>): Record
    reads r
  {
    Record(ObjectsIn(r), ListsIn(r), map c: Cell<ListMap?> | c in r :: c.v, map h: ListMap | h in r :: h.m,
           map c: Cell<StringMap?> | c in r :: c.v,
           map c: Cell<OAuth> | c in r :: c.v,
           map c: Cell<Token> | c in r :: c.v)
  }

  // Pointers point where they did.
  ghost predicate SamePointers(r: set<object>, rec: Record)
    reads r
  {
    && (forall c <- rec.headers :: c in r && c.v == rec.headers[c])
    && (forall c <- rec.mapPointers :: c in r && c.v == rec.mapPointers[c])
    && (forall c <- rec.oauths :: c in r && c.v == rec.oauths[c])
    && (forall c <- rec.tokens :: c in r && c.v == rec.tokens[c])
  }

  // Since the record was made, only JSON and maps of slices have changed, and no
  // more than that.
  ghost predicate ScribbledSince(r: set<object>, rec: Record)
    reads r
  {
    && OnlyScalars(r, rec.os) && OnlyScalarElements(r, rec.ls) && OnlySlices(r, rec.lists)
    && SamePointers(r, rec)
  }

  // The same about one step of a method.
  twostate predicate ScribbledIn(r: set<object>)
    reads r
  {
    && (forall o: JsonMap | o in r :: forall k <- o.m :: o.m[k].Scalar? || (k in old(o.m) && o.m[k] == old(o.m[k])))
    && (forall l: JsonList | l in r ::
          |l.a| == |old(l.a)| && forall i :: 0 <= i < |l.a| ==> l.a[i].Scalar? || l.a[i] == old(l.a)[i])
    && (forall h: ListMap | h in r :: forall k <- h.m ::
          h.m[k] == null || h.m[k] in r || (k in old(h.m) && h.m[k] == old(h.m[k])))
    && (forall c: Cell<ListMap?> | c in r :: c.v == old(c.v))
    && (forall c: Cell<StringMap?> | c in r :: c.v == old(c.v))
    && (forall c: Cell<OAuth> | c in r :: c.v == old(c.v))
    && (forall c: Cell<Token> | c in r :: c.v == old(c.v))
  }

  // `Owned`, read off a record.
  ghost predicate OwnedRecord(a: Action, n: nat, r: set<object>, rec: Record) {
    && (a.header == null || (a.header in rec.headers &&
          (rec.headers[a.header] == null ||
            (rec.headers[a.header] in rec.lists && OwnedLists(rec.lists[rec.headers[a.header]], r)))))
    && OwnedCell(a.order, r) && OwnedSuffixes(a.suffixes, r) && (a.runtimeVars == null || a.runtimeVars in r)
    && (a.httpHeaders == null || (a.httpHeaders in rec.mapPointers &&
          (rec.mapPointers[a.httpHeaders] == null || rec.mapPointers[a.httpHeaders] in r)))
    && WithinRecord(Object(a.variables), n, rec.os, rec.ls)
  }

  lemma RecordOfOwned(a: Action, n: nat, r: set<object>)
    ensures Owned(a, n, r) <==> OwnedRecord(a, n, r, RecordOf(r))
  {
    RecordOfWithin(Object(a.variables), n, r);
  }

  ghost predicate OwnedAuthRecord(a: Auth, n: nat, r: set<object>, rec: Record) {
    && (a.oauth == null || (a.oauth in rec.oauths &&
          var c := rec.oauths[a.oauth];
          && (c.scopes == null || c.scopes in r)
          && (c.endpointParams == null || (c.endpointParams in rec.lists && OwnedLists(rec.lists[c.endpointParams], r)))
          && OwnedCell(c.user, r) && OwnedCell(c.password, r)))
    && (a.custom == null || (a.custom in rec.tokens &&
          WithinRecord(Object(rec.tokens[a.custom].authMap), n, rec.os, rec.ls)))
  }

  lemma RecordOfOwnedAuth(a: Auth, n: nat, r: set<object>)
    ensures OwnedAuth(a, n, r) <==> OwnedAuthRecord(a, n, r, RecordOf(r))
  {
    if a.custom != null && a.custom in r {
      RecordOfWithin(Object(a.custom.v.authMap), n, r);
    }
  }

  // Scribbling does not change who owns what.
  lemma StillOwned(a: Action, n: nat, r: set<object>, rec: Record)
    requires OwnedRecord(a, n, r, rec) && ScribbledSince(r, rec)
    ensures Owned(a, n, r)
  {
    ScalarsStayWithin(Object(a.variables), n, r, rec.os, rec.ls);
  }

  lemma StillOwnedAuth(a: Auth, n: nat, r: set<object>, rec: Record)
    requires OwnedAuthRecord(a, n, r, rec) && ScribbledSince(r, rec)
    ensures OwnedAuth(a, n, r)
  {
    if a.custom != null {
      ScalarsStayWithin(Object(rec.tokens[a.custom].authMap), n, r, rec.os, rec.ls);
    }
  }

  // What a write may touch: no pointer to a map.
  ghost function Touchable(r: set<object>): set<object> {
    (set a: array<string> | a in r :: a as object) + (set h: ListMap | h in r :: h as object)
    + (set o: JsonMap | o in r :: o as object) + (set l: JsonList | l in r :: l as object)
    + (set c: Cell<int> | c in r :: c as object) + (set c: Cell<string> | c in r :: c as object)
    + (set m: StringMap | m in r :: m as object)
  }

  // Sets one element, or puts the spare slice under the key.
  method WriteSlices(h: ListMap?, ghost r: set<object>, key: string, i: nat, value: string, spare: array<string>)
    requires OwnedParams(h, r) && spare in r
    modifies (set a: array<string> | a in r :: a as object) + (set d: ListMap | d in r :: d as object)
    ensures ScribbledIn(r)
  {
    if h != null {
      if key in h.m && h.m[key] != null && i < h.m[key].Length {
        var a := h.m[key];
        a[i] := value;
      } else {
        if spare.Length > 0 {
          spare[0] := value;
        }
        h.m := h.m[key := spare];
      }
    }
  }

  method WriteHeader(h: Cell?<ListMap?>, ghost r: set<object>, key: string, i: nat, value: string,
      spare: array<string>)
    requires OwnedHeader(h, r) && spare in r
    modifies (set a: array<string> | a in r :: a as object) + (set d: ListMap | d in r :: d as object)
    ensures ScribbledIn(r)
  {
    if h != null {
      WriteSlices(h.v, r, key, i, value, spare);
    }
  }

  // Follows the path through nested objects and lists and sets what is at its end.
  method WriteVariable(v: Value, ghost n: nat, ghost r: set<object>, path: seq<Hop>, value: string)
    requires Within(v, n, r)
    modifies (set o: JsonMap | o in r :: o as object) + (set l: JsonList | l in r :: l as object)
    ensures ScribbledIn(r)
    decreases |path|
  {
    if path != [] && v.Object? && v.o != null && path[0].Entry? {
      var key := path[0].key;
      if |path| == 1 {
        v.o.m := v.o.m[key := Scalar(value)];
      } else if key in v.o.m {
        WriteVariable(v.o.m[key], n - 1, r, path[1..], value);
      }
    } else if path != [] && v.List? && v.l != null && path[0].Element? && path[0].i < |v.l.a| {
      var i := path[0].i;
      if |path| == 1 {
        v.l.a := v.l.a[i := Scalar(value)];
      } else {
        WriteVariable(v.l.a[i], n - 1, r, path[1..], value);
      }
    }
  }

  method WriteCell(c: Cell?<string>, ghost r: set<object>, value: string)
    requires OwnedCell(c, r)
    modifies set d: Cell<string> | d in r :: d as object
    ensures ScribbledIn(r)
    ensures c != null ==> c.v == value
  {
    if c != null {
      c.v := value;
    }
  }

  // The write needs the action's references only.
  method WriteOne(a: Action, ghost n: nat, ghost r: set<object>, w: Scribble, spare: array<string>)
    requires Owned(a, n, r) && spare in r
    modifies Touchable(r)
    ensures ScribbledIn(r)
    ensures w.SetOrder? && a.order != null ==> a.order.v == w.n
    ensures w.SetRuntimeVar? && a.runtimeVars != null ==> a.runtimeVars.m == old(a.runtimeVars.m)[w.key := w.value]
  {
    match w {
      case SetHeader(key, i, value) => WriteHeader(a.header, r, key, i, value, spare);
      case SetOrder(k) => if a.order != null { a.order.v := k; }
      case SetSuffix(which, value) => WriteCell(SuffixCell(a.suffixes, which), r, value);
      case SetRuntimeVar(key, value) => if a.runtimeVars != null { a.runtimeVars.m := a.runtimeVars.m[key := value]; }
      case SetHttpHeader(key, value) =>
        if a.httpHeaders != null && a.httpHeaders.v != null {
          a.httpHeaders.v.m := a.httpHeaders.v.m[key := value];
        }
      case SetVariable(path, value) => WriteVariable(Object(a.variables), n, r, path, value);
    }
  }
}

// The deep copies that the controller works on: pointers, maps, slices and
// nested JSON maps are allocated anew, so that writing to a copy cannot reach
// what the informer has cached (seeder/zz_generated.deepcopy.go,
// seeder/rest.go KvMapVarsAny).
module DeepCopy {
  import opened Wire

  // ---- Go's references ----

  // What a pointer points to.
  class Cell<T> {
    var v: T

    constructor (v: T)
      ensures this.v == v
    {
      this.v := v;
    }
  }

  // A map[string]string.
  class StringMap {
    var m: map<string, string>

    constructor ()
      ensures m == map[]
    {
      m := map[];
    }
  }

  // A map[string][]string, such as http.Header.
  class ListMap {
    var m: map<string, array?<string>>

    constructor ()
      ensures m == map[]
    {
      m := map[];
    }
  }

  // JSON as interface{} values.
  datatype Value = Null | Scalar(text: string) | Object(o: JsonMap?) | List(l: JsonList?)

  class JsonMap {
    var m: map<string, Value>

    constructor (m: map<string, Value>)
      ensures this.m == m
    {
      this.m := m;
    }
  }

  class JsonList {
    var a: seq<Value>

    constructor ()
      ensures a == []
    {
      a := [];
    }
  }

  // ---- What they hold, as values ----

  // Everything that a value reaches in at most `n` steps is in `r`, and there
  // is nothing further down.
  ghost predicate Within(v: Value, n: nat, r: set<object>)
    reads r
    decreases n
  {
    match v
    case Null => true
    case Scalar(_) => true
    case Object(o) => o == null || (o in r && n > 0 && forall k <- o.m :: Within(o.m[k], n - 1, r))
    case List(l) => l == null || (l in r && n > 0 && forall i :: 0 <= i < |l.a| ==> Within(l.a[i], n - 1, r))
  }

  datatype Tree = NullTree | ScalarTree(text: string) | NilObject | NilList | ObjectTree(m: map<string,
      Tree>) | ListTree(a: seq<Tree>)

  ghost function TreeOf(v: Value, n: nat, r: set<object>): Tree
    requires Within(v, n, r)
    reads r
    decreases n
  {
    match v
    case Null => NullTree
    case Scalar(t) => ScalarTree(t)
    case Object(o) => if o == null then NilObject else ObjectTree(map k | k in o.m :: TreeOf(o.m[k], n - 1, r))
    case List(l) =>
      if l == null then NilList
      else
        ListTree(seq(|l.a|,
            i requires 0 <= i < |l.a| && Within(l.a[i], n - 1, r) reads r, l => TreeOf(l.a[i], n - 1, r)))
  }

  lemma {:induction false} WithinMore(v: Value, n: nat, r: set<object>, r': set<object>)
    requires Within(v, n, r) && r <= r'
    ensures Within(v, n, r') && TreeOf(v, n, r') == TreeOf(v, n, r)
    decreases n
  {
    match v
    case Null =>
    case Scalar(_) =>
    case Object(o) =>
      if o != null {
        forall k | k in o.m ensures Within(o.m[k], n - 1, r') && TreeOf(o.m[k], n - 1, r') == TreeOf(o.m[k], n - 1, r) {
          WithinMore(o.m[k], n - 1, r, r');
        }
      }
    case List(l) =>
      if l != null {
        forall i | 0 <= i < |l.a|
          ensures Within(l.a[i], n - 1, r') && TreeOf(l.a[i], n - 1, r') == TreeOf(l.a[i], n - 1, r)
        {
          WithinMore(l.a[i], n - 1, r, r');
        }
      }
  }

  // ---- Copying JSON ----

  method CopyValue(v: Value, ghost n: nat, ghost r: set<object>) returns (c: Value, ghost r': set<object>)
    requires Within(v, n, r)
    ensures fresh(r') && Within(c, n, r') && TreeOf(c, n, r') == old(TreeOf(v, n, r))
    decreases n, 1
  {
    r' := {};
    match v
    case Null => c := v;
    case Scalar(_) => c := v;
    case Object(o) =>
      if o == null {
        return v, {};
      }
      var o', more := CopyObject(o, n, r);
      c, r' := Object(o'), more;
    case List(l) =>
      if l == null {
        return v, {};
      }
      var l', more := CopyList(l, n, r);
      c, r' := List(l'), more;
  }

  // All entries of one map are copies of those of another.
  ghost predicate CopiedEntries(from: map<string, Value>, r: set<object>, to: map<string, Value>, r': set<object>,
      n: nat)
    reads r, r'
  {
    forall k <- to ::
      k in from && Within(from[k], n, r) && Within(to[k], n, r') && TreeOf(to[k], n, r') == TreeOf(from[k], n, r)
  }

  lemma CopiedMore(from: map<string, Value>, r: set<object>, to: map<string, Value>, kids: set<object>, n: nat,
      k: string, v: Value, more: set<object>)
    requires CopiedEntries(from, r, to, kids, n)
    requires k in from && Within(from[k], n, r) && Within(v, n, more) && TreeOf(v, n, more) == TreeOf(from[k], n, r)
    ensures CopiedEntries(from, r, to[k := v], kids + more, n)
  {
    WithinMore(v, n, more, kids + more);
    forall j | j in to ensures Within(to[j], n, kids + more) && TreeOf(to[j], n, kids + more) == TreeOf(from[j], n, r) {
      WithinMore(to[j], n, kids, kids + more);
    }
  }

  lemma ObjectIsCopied(o: JsonMap, r: set<object>, c: JsonMap, kids: set<object>, n: nat)
    requires n > 0 && Within(Object(o), n, r) && c.m.Keys == o.m.Keys && CopiedEntries(o.m, r, c.m, kids, n - 1)
    ensures Within(Object(c), n, kids + {c}) && TreeOf(Object(c), n, kids + {c}) == TreeOf(Object(o), n, r)
  {
    var r' := kids + {c};
    forall k | k in c.m ensures Within(c.m[k], n - 1, r') && TreeOf(c.m[k], n - 1, r') == TreeOf(o.m[k], n - 1, r) {
      WithinMore(c.m[k], n - 1, kids, r');
    }
  }

  method CopyObject(o: JsonMap, ghost n: nat, ghost r: set<object>) returns (c: JsonMap, ghost r': set<object>)
    requires Within(Object(o), n, r)
    ensures fresh(r') && Within(Object(c), n, r') && TreeOf(Object(c), n, r') == old(TreeOf(Object(o), n, r))
    decreases n, 0
  {
    var m: map<string, Value> := map[];
    ghost var kids: set<object> := {};
    var todo := o.m.Keys;
    while todo != {}
      invariant todo <= o.m.Keys && m.Keys == o.m.Keys - todo && fresh(kids)
      invariant CopiedEntries(o.m, r, m, kids, n - 1)
    {
      var k :| k in todo;
      var v, more := CopyValue(o.m[k], n - 1, r);
      CopiedMore(o.m, r, m, kids, n - 1, k, v, more);
      m := m[k := v];
      kids := kids + more;
      todo := todo - {k};
    }
    c := new JsonMap(m);
    r' := kids + {c};
    ObjectIsCopied(o, r, c, kids, n);
  }

  ghost predicate CopiedItems(from: seq<Value>, r: set<object>, to: seq<Value>, r': set<object>, n: nat)
    reads r, r'
  {
    |to| <= |from| && forall i :: 0 <= i < |to| ==>
      Within(from[i], n, r) && Within(to[i], n, r') && TreeOf(to[i], n, r') == TreeOf(from[i], n, r)
  }

  lemma CopiedOneMore(from: seq<Value>, r: set<object>, to: seq<Value>, kids: set<object>, n: nat, v: Value,
      more: set<object>)
    requires CopiedItems(from, r, to, kids, n) && |to| < |from|
    requires Within(from[|to|], n, r) && Within(v, n, more) && TreeOf(v, n, more) == TreeOf(from[|to|], n, r)
    ensures CopiedItems(from, r, to + [v], kids + more, n)
  {
    WithinMore(v, n, more, kids + more);
    forall i | 0 <= i < |to|
      ensures Within(to[i], n, kids + more) && TreeOf(to[i], n, kids + more) == TreeOf(from[i], n, r)
    {
      WithinMore(to[i], n, kids, kids + more);
    }
  }

  method CopyList(l: JsonList, ghost n: nat, ghost r: set<object>) returns (c: JsonList, ghost r': set<object>)
    requires Within(List(l), n, r)
    ensures fresh(r') && Within(List(c), n, r') && TreeOf(List(c), n, r') == old(TreeOf(List(l), n, r))
    decreases n, 0
  {
    c := new JsonList();
    ghost var kids: set<object> := {};
    for i := 0 to |l.a|
      invariant |c.a| == i && fresh(kids) && c !in kids
      invariant CopiedItems(l.a, r, c.a, kids, n - 1)
    {
      var v, more := CopyValue(l.a[i], n - 1, r);
      CopiedOneMore(l.a, r, c.a, kids, n - 1, v, more);
      c.a := c.a + [v];
      kids := kids + more;
    }
    r' := kids + {c};
    forall i | 0 <= i < |c.a|
      ensures Within(c.a[i], n - 1, r') && TreeOf(c.a[i], n - 1, r') == TreeOf(l.a[i], n - 1, r)
    {
      WithinMore(c.a[i], n - 1, kids, r');
    }
  }

  // ---- Pointers, maps and slices ----

  ghost function Pointed<T>(c: Cell?<T>): Option<T>
    reads c
  {
    if c == null then None else Some(c.v)
  }

  method CopyPointer<T>(c: Cell?<T>) returns (d: Cell?<T>)
    ensures d != null ==> fresh(d)
    ensures Pointed(d) == old(Pointed(c))
  {
    d := null;
    if c != null {
      d := new Cell(c.v);
    }
  }

  ghost function Entries(m: StringMap?): Option<map<string, string>>
    reads m
  {
    if m == null then None else Some(m.m)
  }

  method CopyStringMap(m: StringMap?) returns (d: StringMap?)
    ensures d != null ==> fresh(d)
    ensures Entries(d) == old(Entries(m))
  {
    d := null;
    if m != null {
      d := new StringMap();
      var todo := m.m.Keys;
      while todo != {}
        invariant todo <= m.m.Keys && d.m == m.m - todo
      {
        var k :| k in todo;
        d.m := d.m[k := m.m[k]];
        todo := todo - {k};
      }
      assert m.m - {} == m.m;
    }
  }

  ghost function Items(a: array?<string>): Option<seq<string>>
    reads a
  {
    if a == null then None else Some(a[..])
  }

  method CopyStrings(a: array?<string>) returns (b: array?<string>)
    ensures b != null ==> fresh(b)
    ensures Items(b) == old(Items(a))
  {
    b := null;
    if a != null {
      b := new string[a.Length](_ => "");
      for i := 0 to a.Length
        invariant b.Length == a.Length && b[..i] == a[..i]
      {
        b[i] := a[i];
      }
      assert b[..b.Length] == b[..] && a[..a.Length] == a[..];
    }
  }

  // The slices of the map belong to `r`.
  ghost predicate OwnedLists(m: map<string, array?<string>>, r: set<object>) {
    forall k <- m :: m[k] == null || m[k] in r
  }

  ghost function ListsOf(m: map<string, array?<string>>, r: set<object>): map<string, Option<seq<string>>>
    requires OwnedLists(m, r)
    reads r
  {
    map k | k in m :: Items(m[k])
  }

  lemma OwnedAnywhere(m: map<string, array?<string>>, r: set<object>, r': set<object>)
    requires OwnedLists(m, r) && r <= r'
    ensures OwnedLists(m, r') && ListsOf(m, r') == ListsOf(m, r)
  {
  }

  method CopyLists(h: ListMap, ghost r: set<object>) returns (d: ListMap, ghost r': set<object>)
    requires OwnedLists(h.m, r)
    ensures fresh(d) && fresh(r') && d !in r' && OwnedLists(d.m, r')
    ensures ListsOf(d.m, r') == old(ListsOf(h.m, r))
  {
    d := new ListMap();
    r' := {};
    var todo := h.m.Keys;
    while todo != {}
      invariant todo <= h.m.Keys && d.m.Keys == h.m.Keys - todo
      invariant fresh(r') && d !in r' && OwnedLists(d.m, r')
      invariant forall k <- d.m :: Items(d.m[k]) == Items(h.m[k])
    {
      var k :| k in todo;
      var copied := CopyStrings(h.m[k]);
      d.m := d.m[k := copied];
      if copied != null {
        r' := r' + {copied};
      }
      todo := todo - {k};
    }
  }

  // A pointer to a map variable, as in `header` and `httpHeaders`.
  ghost predicate OwnedHeader(c: Cell?<ListMap?>, r: set<object>)
    reads r
  {
    c == null || (c in r && (c.v == null || (c.v in r && OwnedLists(c.v.m, r))))
  }

  ghost function HeaderOf(c: Cell?<ListMap?>, r: set<object>): Option<Option<map<string, Option<seq<string>>>>>
    requires OwnedHeader(c, r)
    reads r
  {
    if c == null then None else if c.v == null then Some(None) else Some(Some(ListsOf(c.v.m, r)))
  }

  method CopyHeader(c: Cell?<ListMap?>, ghost r: set<object>) returns (d: Cell?<ListMap?>, ghost r': set<object>)
    requires OwnedHeader(c, r)
    ensures fresh(r') && OwnedHeader(d, r') && HeaderOf(d, r') == old(HeaderOf(c, r))
  {
    d, r' := null, {};
    if c != null {
      d := new Cell(null);
      r' := {d};
      if c.v != null {
        var lists, more := CopyLists(c.v, r);
        d.v := lists;
        r' := r' + {lists} + more;
        OwnedAnywhere(lists.m, more, r');
      }
    }
  }

  lemma HeaderAnywhere(c: Cell?<ListMap?>, r: set<object>, r': set<object>)
    requires OwnedHeader(c, r) && r <= r'
    ensures OwnedHeader(c, r') && HeaderOf(c, r') == HeaderOf(c, r)
  {
    if c != null && c.v != null {
      OwnedAnywhere(c.v.m, r, r');
    }
  }

  ghost predicate OwnedMapPointer(c: Cell?<StringMap?>, r: set<object>)
    reads r
  {
    c == null || (c in r && (c.v == null || c.v in r))
  }

  ghost function MapPointed(c: Cell?<StringMap?>, r: set<object>): Option<Option<map<string, string>>>
    requires OwnedMapPointer(c, r)
    reads r
  {
    if c == null then None else Some(Entries(c.v))
  }

  method CopyMapPointer(c: Cell?<StringMap?>, ghost r: set<object>)
      returns (d: Cell?<StringMap?>, ghost r': set<object>)
    requires OwnedMapPointer(c, r)
    ensures fresh(r') && OwnedMapPointer(d, r') && MapPointed(d, r') == old(MapPointed(c, r))
  {
    d, r' := null, {};
    if c != null {
      d := new Cell(null);
      r' := {d};
      if c.v != null {
        var m := CopyStringMap(c.v);
        d.v := m;
        r' := r' + {m};
      }
    }
  }

  // ---- Actions ----

  datatype Suffixes = Suffixes(get: Cell?<string>, post: Cell?<string>, patch: Cell?<string>, put: Cell?<string>,
      delete: Cell?<string>)

  // The fields that hold no reference.
  datatype Plain = Plain(
    privateName: string, templatedPayload: string, foundId: string, name: string, strategy: string,
    endpoint: string, findByJsonPathExpr: string, postIsPut: bool, payloadTemplate: string,
    patchPayloadTemplate: string, authMapRef: string)

  // An Action struct: assigning it copies the references only.
  datatype Action = Action(
    plain: Plain, header: Cell?<ListMap?>, order: Cell?<int>, suffixes: Suffixes,
    runtimeVars: StringMap?, httpHeaders: Cell?<StringMap?>, variables: JsonMap?)

  datatype ActionValue = ActionValue(
    plain: Plain, header: Option<Option<map<string, Option<seq<string>>>>>, order: Option<int>,
    suffixes: seq<Option<string>>, runtimeVars: Option<map<string, string>>,
    httpHeaders: Option<Option<map<string, string>>>, variables: Tree)

  ghost predicate OwnedCell<T>(c: Cell?<T>, r: set<object>) {
    c == null || c in r
  }

  ghost predicate OwnedSuffixes(s: Suffixes, r: set<object>) {
    && OwnedCell(s.get, r) && OwnedCell(s.post, r) && OwnedCell(s.patch, r) && OwnedCell(s.put, r)
    && OwnedCell(s.delete, r)
  }

  ghost function SuffixesOf(s: Suffixes, r: set<object>): seq<Option<string>>
    requires OwnedSuffixes(s, r)
    reads r
  {
    [Pointed(s.get), Pointed(s.post), Pointed(s.patch), Pointed(s.put), Pointed(s.delete)]
  }

  // Everything that the action reaches is in `r`; its JSON is at most `n` deep.
  ghost predicate Owned(a: Action, n: nat, r: set<object>)
    reads r
  {
    && OwnedHeader(a.header, r) && OwnedCell(a.order, r) && OwnedSuffixes(a.suffixes, r)
    && (a.runtimeVars == null || a.runtimeVars in r) && OwnedMapPointer(a.httpHeaders, r)
    && Within(Object(a.variables), n, r)
  }

  ghost function ValueOf(a: Action, n: nat, r: set<object>): ActionValue
    requires Owned(a, n, r)
    reads r
  {
    ActionValue(a.plain, HeaderOf(a.header, r), Pointed(a.order), SuffixesOf(a.suffixes, r),
                Entries(a.runtimeVars), MapPointed(a.httpHeaders, r), TreeOf(Object(a.variables), n, r))
  }

  lemma OwnedMore(a: Action, n: nat, r: set<object>, r': set<object>)
    requires Owned(a, n, r) && r <= r'
    ensures Owned(a, n, r') && ValueOf(a, n, r') == ValueOf(a, n, r)
  {
    HeaderAnywhere(a.header, r, r');
    WithinMore(Object(a.variables), n, r, r');
  }

  method CopySuffixes(s: Suffixes, ghost r: set<object>) returns (d: Suffixes, ghost r': set<object>)
    requires OwnedSuffixes(s, r)
    ensures fresh(r') && OwnedSuffixes(d, r') && SuffixesOf(d, r') == old(SuffixesOf(s, r))
  {
    var get := CopyPointer(s.get);
    var post := CopyPointer(s.post);
    var patch := CopyPointer(s.patch);
    var put := CopyPointer(s.put);
    var delete := CopyPointer(s.delete);
    d := Suffixes(get, post, patch, put, delete);
    r' := Own(get) + Own(post) + Own(patch) + Own(put) + Own(delete);
  }

  ghost function Own<T>(c: Cell?<T>): set<object> {
    if c == null then {} else {c}
  }

  // Parts that own what they reach make up an action that does.
  lemma Assembled(a: Action, n: nat, r: set<object>, r1: set<object>, r2: set<object>, r3: set<object>, r4: set<object>)
    requires OwnedHeader(a.header, r1) && OwnedSuffixes(a.suffixes, r2) && OwnedMapPointer(a.httpHeaders, r3)
    requires Within(Object(a.variables), n, r4)
    requires r1 <= r && r2 <= r && r3 <= r && r4 <= r && OwnedCell(a.order, r)
    requires a.runtimeVars == null || a.runtimeVars in r
    ensures Owned(a, n, r)
    ensures ValueOf(a, n, r) == ActionValue(
              a.plain, HeaderOf(a.header, r1), Pointed(a.order), SuffixesOf(a.suffixes, r2),
              Entries(a.runtimeVars), MapPointed(a.httpHeaders, r3), TreeOf(Object(a.variables), n, r4))
  {
    HeaderAnywhere(a.header, r1, r);
    WithinMore(Object(a.variables), n, r4, r);
  }

  method CopyPointers(a: Action, ghost r: set<object>)
      returns (header: Cell?<ListMap?>, order: Cell?<int>, suffixes: Suffixes, ghost r1: set<object>,
      ghost r2: set<object>)
    requires OwnedHeader(a.header, r) && OwnedSuffixes(a.suffixes, r)
    ensures fresh(r1) && OwnedHeader(header, r1) && HeaderOf(header, r1) == old(HeaderOf(a.header, r))
    ensures order != null ==> fresh(order)
    ensures Pointed(order) == old(Pointed(a.order))
    ensures fresh(r2) && OwnedSuffixes(suffixes, r2) && SuffixesOf(suffixes, r2) == old(SuffixesOf(a.suffixes, r))
  {
    header, r1 := CopyHeader(a.header, r);
    order := CopyPointer(a.order);
    suffixes, r2 := CopySuffixes(a.suffixes, r);
  }

  method CopyMaps(a: Action, ghost n: nat, ghost r: set<object>)
      returns (runtimeVars: StringMap?, httpHeaders: Cell?<StringMap?>, variables: JsonMap?, ghost r3: set<object>,
      ghost r4: set<object>)
    requires OwnedMapPointer(a.httpHeaders, r) && Within(Object(a.variables), n, r)
    ensures runtimeVars != null ==> fresh(runtimeVars)
    ensures Entries(runtimeVars) == old(Entries(a.runtimeVars))
    ensures fresh(r3) && OwnedMapPointer(httpHeaders, r3)
    ensures MapPointed(httpHeaders, r3) == old(MapPointed(a.httpHeaders, r))
    ensures fresh(r4) && Within(Object(variables), n, r4)
    ensures TreeOf(Object(variables), n, r4) == old(TreeOf(Object(a.variables), n, r))
  {
    runtimeVars := CopyStringMap(a.runtimeVars);
    httpHeaders, r3 := CopyMapPointer(a.httpHeaders, r);
    variables, r4 := CopyVariables(a.variables, n, r);
  }

  // Each reference is replaced by a copy of what it refers to.
  method CopyReferences(a: Action, ghost n: nat, ghost r: set<object>) returns (copy: Action, ghost r': set<object>)
    requires Owned(a, n, r)
    ensures fresh(r') && Owned(copy, n, r') && ValueOf(copy, n, r') == old(ValueOf(a, n, r))
  {
    var header, order, suffixes, r1, r2 := CopyPointers(a, r);
    var runtimeVars, httpHeaders, variables, r3, r4 := CopyMaps(a, n, r);
    copy := Action(a.plain, header, order, suffixes, runtimeVars, httpHeaders, variables);
    r' := r1 + Own(order) + r2 + (if runtimeVars == null then {} else {runtimeVars}) + r3 + r4;
    Assembled(copy, n, r', r1, r2, r3, r4);
  }

  method CopyVariables(o: JsonMap?, ghost n: nat, ghost r: set<object>) returns (c: JsonMap?, ghost r': set<object>)
    requires Within(Object(o), n, r)
    ensures fresh(r') && Within(Object(c), n, r') && TreeOf(Object(c), n, r') == old(TreeOf(Object(o), n, r))
  {
    if o == null {
      return null, {};
    }
    c, r' := CopyObject(o, n, r);
  }

  // A variable that holds an Action, as `in` and `out` point to.
  class ActionVar {
    var s: Action

    constructor (s: Action)
      ensures this.s == s
    {
      this.s := s;
    }

    // First the struct is assigned, which shares everything.
    method DeepCopyInto(out: ActionVar, ghost n: nat, ghost r: set<object>) returns (ghost r': set<object>)
      requires Owned(s, n, r) && out !in r && out != this
      modifies out
      ensures fresh(r') && Owned(out.s, n, r') && ValueOf(out.s, n, r') == old(ValueOf(s, n, r))
    {
      out.s := s;
      assert Owned(s, n, r) && ValueOf(s, n, r) == old(ValueOf(s, n, r));
      var copy, owned := CopyReferences(s, n, r);
      out.s := copy;
      r' := owned;
    }

    method DeepCopy(ghost n: nat, ghost r: set<object>) returns (out: ActionVar, ghost r': set<object>)
      requires Owned(s, n, r)
      ensures fresh(out) && fresh(r') && out !in r' && Owned(out.s, n, r')
      ensures ValueOf(out.s, n, r') == old(ValueOf(s, n, r))
    {
      out := new ActionVar(Action(s.plain, null, null, Suffixes(null, null, null, null, null), null, null, null));
      r' := DeepCopyInto(out, n, r);
    }
  }
}

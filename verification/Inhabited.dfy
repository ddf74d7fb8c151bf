// The hypotheses of the theorems about stores can be met: one collection, in
// which two FIND actions look for different items, a third action has a key of
// its own and a fourth posts an item in every run. The service either assigns
// ids or takes them from the content, and its listings show all items. Every
// verb has a suffix of its own. URLs are cut off at a fragment and escapes
// are decoded; paths and payloads may hold placeholders, and every action binds
// one and captures another.
module Inhabited {
  import opened Wire
  import opened Text
  import opened Engine
  import opened Steady
  import opened Store
  import opened Attempts
  import opened Retry
  import opened Convergence
  import opened Confluence
  import opened Guidance

  // ---- Texts and URLs ----

  const COLL := "c"

  // Where the character is first, or the length of the text.
  function IndexOf(text: string, c: char): (i: nat)
    ensures i <= |text|
    ensures i < |text| ==> text[i] == c
    ensures forall j :: 0 <= j < i ==> text[j] != c
  {
    if text == "" || text[0] == c then 0 else 1 + IndexOf(text[1..], c)
  }

  // A dollar sign begins a placeholder.
  function Parse(text: string): Template {
    var i := IndexOf(text, '$');
    Parts(if i == |text| then [Literal(text)] else [Literal(text[..i]), Variable(text[i + 1..])])
  }

  function Unescape(text: string): string {
    if text == "" then "" else (if text[0] == '%' then "" else [text[0]]) + Unescape(text[1..])
  }

  // Without the fragment, and decoded.
  function PathIn(endpoint: string): string {
    Unescape(endpoint[..IndexOf(endpoint, '#')])
  }

  // Neither fragment nor escape nor placeholder.
  predicate Plain(text: string) {
    '#' !in text && '%' !in text && '$' !in text
  }

  lemma {:induction false} NotThere(text: string, c: char)
    requires c !in text
    ensures IndexOf(text, c) == |text|
  {
    if text != "" {
      NotThere(text[1..], c);
    }
  }

  lemma {:induction false} ThereAfter(pre: string, c: char, post: string)
    requires c !in pre
    ensures IndexOf(pre + [c] + post, c) == |pre|
  {
    if pre == "" {
      assert (pre + [c] + post)[0] == c;
    } else {
      assert (pre + [c] + post)[1..] == pre[1..] + [c] + post && (pre + [c] + post)[0] == pre[0];
      ThereAfter(pre[1..], c, post);
    }
  }

  lemma Associate(a: string, b: string, c: string)
    ensures a + (b + c) == a + b + c
  {
  }

  lemma {:induction false} UnescapeAppend(a: string, b: string)
    ensures Unescape(a + b) == Unescape(a) + Unescape(b)
  {
    if a == "" {
      assert a + b == b;
    } else {
      assert (a + b)[1..] == a[1..] + b && (a + b)[0] == a[0];
      UnescapeAppend(a[1..], b);
      Associate(if a[0] == '%' then "" else [a[0]], Unescape(a[1..]), Unescape(b));
    }
  }

  lemma {:induction false} PlainIsDecoded(text: string)
    requires '%' !in text
    ensures Unescape(text) == text
  {
    if text != "" {
      PlainIsDecoded(text[1..]);
    }
  }

  lemma PlainPath(text: string)
    requires Plain(text)
    ensures PathIn(text) == text && Parse(text) == Parts([Literal(text)])
  {
    NotThere(text, '#');
    NotThere(text, '$');
    assert text[..|text|] == text;
    PlainIsDecoded(text);
  }

  lemma FragmentIsLost(text: string)
    requires Plain(text)
    ensures PathIn(text + "#x") == text
  {
    ThereAfter(text, '#', "x");
    assert text + "#x" == text + ['#'] + "x" && (text + "#x")[..|text|] == text;
    PlainIsDecoded(text);
  }

  lemma EscapeIsLost(base: string, id: string)
    requires Plain(base) && Plain(id)
    ensures PathIn(base + ("%" + id)) == base + id
  {
    var escaped := base + ("%" + id);
    NotThere(escaped, '#');
    assert escaped[..|escaped|] == escaped && ("%" + id)[1..] == id;
    UnescapeAppend(base, "%" + id);
    PlainIsDecoded(base);
    PlainIsDecoded(id);
  }

  // Different ids can lead to one path, and a path can mention a name: this is not
  // a library in which every text could be an id.
  lemma IdsCanBeLost(base: string, id: string)
    requires Plain(base) && Plain(id)
    ensures PathIn(base + id + "#x") == PathIn(base + id) == PathIn(base + ("%" + id)) == base + id
    ensures Parse(base + "$" + id) == Parts([Literal(base), Variable(id)])
  {
    PlainPath(base + id);
    FragmentIsLost(base + id);
    EscapeIsLost(base, id);
    ThereAfter(base, '$', id);
    var text := base + "$" + id;
    assert text == base + ['$'] + id && text[..|base|] == base && text[|base| + 1..] == id;
  }

  // ---- The service ----

  ghost predicate Longer(n: nat, ids: set<string>) {
    forall id <- ids :: |id| < n
  }

  lemma {:induction false} LongerThanAll(ids: set<string>) returns (n: nat)
    ensures Longer(n, ids)
  {
    if ids == {} {
      n := 0;
    } else {
      var id :| id in ids;
      var m := LongerThanAll(ids - {id});
      n := if |id| < m then m else |id| + 1;
      assert forall i <- ids :: i == id || i in ids - {id};
    }
  }

  // An id that no item has, made of the letter x.
  ghost function Unused(items: Items): (id: string)
    ensures id != "" && id[0] == 'x' && Plain(id) && forall k <- items :: k.id != id
  {
    var ids := set k | k in items :: k.id;
    assert exists n: nat :: Longer(n, ids) by {
      var n := LongerThanAll(ids);
    }
    var n: nat :| Longer(n, ids);
    assert forall k <- items :: k.id in ids;
    seq(n + 1, _ => 'x')
  }

  // The ids of a set, one after another.
  ghost function Listed(ids: set<string>): (r: seq<string>)
    ensures |r| == |ids| && forall id: string :: id in r <==> id in ids
  {
    if ids == {} then [] else
      var id :| id in ids;
      [id] + Listed(ids - {id})
  }

  // An item's first letter says which expression it satisfies.
  predicate Matches(expr: string, content: string) {
    content != "" && [content[0]] == expr
  }

  ghost function Matched(items: Items, tag: string): set<string> {
    set k | k in items && k.coll == COLL && k.id != "" && Plain(k.id) && Matches(tag, items[k]) :: k.id
  }

  // A document shows the items of two kinds, one line for each.
  function Lines(ids: seq<string>): string {
    if ids == [] then "" else ids[0] + ['#'] + Lines(ids[1..])
  }

  function Document(a: seq<string>, b: seq<string>): string {
    Lines(a) + ['$'] + Lines(b)
  }

  function IdsIn(lines: string): seq<string> {
    var i := IndexOf(lines, '#');
    if i == |lines| then [] else [lines[..i]] + IdsIn(lines[i + 1..])
  }

  function Found(doc: string, expr: string): seq<string> {
    var i := IndexOf(doc, '$');
    if expr == "a" then IdsIn(doc[..i])
    else if expr == "b" && i < |doc| then IdsIn(doc[i + 1..])
    else []
  }

  // JSON texts: the ids are quoted.
  function Quoted(ids: seq<string>): seq<Node> {
    seq(|ids|, i requires 0 <= i < |ids| => StringNode("\"" + ids[i] + "\"", Some(ids[i])))
  }

  ghost predicate AllPlain(ids: seq<string>) {
    forall i :: 0 <= i < |ids| ==> Plain(ids[i])
  }

  lemma {:induction false} LinesAreRead(ids: seq<string>)
    requires AllPlain(ids)
    ensures IdsIn(Lines(ids)) == ids && '$' !in Lines(ids)
  {
    if ids != [] {
      var id, rest := ids[0], Lines(ids[1..]);
      var text := id + ['#'] + rest;
      assert AllPlain(ids[1..]);
      LinesAreRead(ids[1..]);
      assert Plain(id);
      ThereAfter(id, '#', rest);
      assert text[..|id|] == id && text[|id| + 1..] == rest;
    }
  }

  lemma DocumentIsRead(a: seq<string>, b: seq<string>)
    requires AllPlain(a) && AllPlain(b)
    ensures Found(Document(a, b), "a") == a && Found(Document(a, b), "b") == b
  {
    var doc := Document(a, b);
    LinesAreRead(a);
    LinesAreRead(b);
    ThereAfter(Lines(a), '$', Lines(b));
    assert doc[..|Lines(a)|] == Lines(a) && doc[|Lines(a)| + 1..] == Lines(b);
  }

  function Lib(): Library {
    Library((text: string) => Parse(text), (text: string) => None,
            (doc: string, expr: string) => Nodes(Quoted(Found(doc, expr))),
            (endpoint: string) => Url("", PathIn(endpoint), ""), (endpoint: string) => None)
  }

  // The collection is "c", with a letter for each verb; an item has its id there.
  function KeyAt(path: string): Key {
    Key(COLL, if |path| >= 3 then path[3..] else "")
  }

  predicate IsItem(path: string, letter: char) {
    |path| > 3 && path[0] == 'c' && path[1] == letter && path[2] == '/'
  }

  function Route(req: Request): Op {
    match req.verb
    case GET =>
      if req.path == "cg" then List(COLL) else if IsItem(req.path, 'g') then Read(KeyAt(req.path)) else Unrouted
    case POST => if req.path == "co" then Create(COLL, req.body) else Unrouted
    case PUT => if IsItem(req.path, 'u') then Replace(KeyAt(req.path), req.body) else Unrouted
    case PATCH => if IsItem(req.path, 'p') then Merge(KeyAt(req.path), req.body) else Unrouted
    case DELETE => if IsItem(req.path, 'd') then Remove(KeyAt(req.path)) else Unrouted
  }

  ghost function NewId(stable: bool, items: Items, content: string): string {
    if content == Content(C) then "k" else if stable then content else Unused(items)
  }

  ghost function Small(stable: bool): Service {
    Service((req: Request) => Route(req),
            (items: Items, clock: nat, coll: string, content: string) => NewId(stable, items, content),
            (ids: set<string>) => Listed(ids),
            (expr: string, id: string, content: string) => Plain(id) && Matches(expr, content),
            (items: Items, coll: string) => Document(Listed(Matched(items, "a")), Listed(Matched(items, "b"))),
            (content: string) => "s",
            (old_: string, patch: string) => patch, true)
  }

  // ---- The actions ----

  // "a" and "b" look for their items, "c" knows its key and "d" always posts.
  datatype Tag = A | B | C | D

  function Label(tag: Tag): string {
    match tag case A => "a" case B => "b" case C => "c" case D => "d"
  }

  // An item's content begins with the label of the action that writes it.
  function Content(tag: Tag): string {
    Label(tag) + "1"
  }

  function Change(tag: Tag): string {
    Label(tag) + "2"
  }

  // Whether the strategy suits the action.
  predicate Suits(tag: Tag, s: Strategy) {
    match tag
    case A => Finds(s)
    case B => Finds(s)
    case C => ByKey(s)
    case D => s.PostOnly?
  }

  const NAME := "p"

  const PAYLOAD := "$p"

  // Every action has the same payload template, binds its own content to the name
  // in it, and captures something that no template mentions. Every verb has a
  // suffix of its own.
  function Sample(tag: Tag, strategy: string): Action {
    Action(Label(tag), strategy, None, COLL,
           Some(if tag.C? then "g/k" else "g"), Some("o"), Some("p"), Some(if tag.C? then "u/k" else "u"), Some("d"),
           Label(tag), false, PAYLOAD, Change(tag), map["seen" := "a"], map[NAME := Content(tag)])
  }

  function Aim(tag: Tag, s: Strategy): Target {
    Target(s, if tag.C? then Exactly(Key(COLL, "k")) else Matching(COLL, Label(tag)), Content(tag), Change(tag),
        (id: string) => id != "k" && Plain(id), tag.D?)
  }

  function SampleRequests(tag: Tag, strategy: string): Requests {
    RequestsOf(Lib(), Sample(tag, strategy), map[])
  }

  lemma LiteralText(text: string, env: Bindings)
    requires Plain(text)
    ensures Substitute(Lib(), text, env) == text
  {
    PlainPath(text);
    var parts: seq<Part> := [Literal(text)];
    assert parts[1..] == [];
    assert Render(parts, env) == text + Render(parts[1..], env);
    assert Render([], env) == "" && text + "" == text;
  }

  lemma PayloadParts()
    ensures Parse(PAYLOAD) == Parts([Literal(""), Variable(NAME)])
  {
    assert PAYLOAD[0] == '$' && IndexOf(PAYLOAD, '$') == 0;
    assert PAYLOAD[..0] == "" && PAYLOAD[1..] == NAME;
  }

  lemma PayloadText(env: Bindings)
    ensures Substitute(Lib(), PAYLOAD, env) == Value(env, NAME)
  {
    PayloadParts();
    var parts: seq<Part> := [Literal(""), Variable(NAME)];
    assert parts[1..] == [Variable(NAME)] && parts[1..][1..] == [];
    assert Render(parts, env) == "" + Render(parts[1..], env);
    assert Render(parts[1..], env) == Value(env, NAME) + Render([], env);
  }

  lemma ContentIsBound(tag: Tag)
    ensures Settable(NAME, Content(tag)) && Plain(Content(tag)) && Plain(Change(tag))
    ensures Value(Export(map[], map[NAME := Content(tag)]), NAME) == Content(tag)
  {
    assert Plain(Label(tag)) && '\0' !in Label(tag);
  }

  lemma PlainEndpoint(tag: Tag, strategy: string, verb: Verb, id: string)
    requires Plain(id)
    ensures Plain(Endpoint(Sample(tag, strategy), verb, id))
  {
    var a := Sample(tag, strategy);
    assert Plain(a.endpoint) && Plain(Suffix(a, verb)) && Plain("/");
  }

  lemma Requested(tag: Tag, strategy: string, h: seq<Sent>, verb: Verb, id: string)
    requires Plain(id)
    ensures var req := SampleRequests(tag, strategy)(h, verb, id);
            && req.verb == verb
            && req.path == Endpoint(Sample(tag, strategy), verb, id)
            && req.body == if verb.POST? || verb.PUT? then Content(tag) else if verb.PATCH? then Change(tag) else ""
  {
    var env := Export(map[], map[NAME := Content(tag)]);
    PlainEndpoint(tag, strategy, verb, id);
    PlainPath(Endpoint(Sample(tag, strategy), verb, id));
    LiteralText(Endpoint(Sample(tag, strategy), verb, id), env);
    ContentIsBound(tag);
    PayloadText(env);
    LiteralText(Change(tag), env);
  }

  lemma Endpoints(tag: Tag, strategy: string, verb: Verb, id: string)
    ensures var path := Endpoint(Sample(tag, strategy), verb, id);
            && (!tag.C? && verb.GET? ==> path == "cg")
            && (verb.POST? ==> path == "co")
            && (!tag.C? && id != "" && (verb.PUT? || verb.PATCH? || verb.DELETE?) ==>
                  IsItem(path, if verb.PUT? then 'u' else if verb.PATCH? then 'p' else 'd') && path[3..] == id)
            && (tag.C? && id == "" && verb.GET? ==> path == "cg/k")
            && (tag.C? && id == "" && verb.PUT? ==> path == "cu/k")
  {
    var a := Sample(tag, strategy);
    var base := a.endpoint + Suffix(a, verb);
    assert base + "" == base;
    if !tag.C? && id != "" && (verb.PUT? || verb.PATCH? || verb.DELETE?) {
      assert |base| == 2 && Endpoint(a, verb, id) == base + ("/" + id);
      assert (base + ("/" + id))[3..] == id;
    }
  }

  lemma MatchedIds(tag: Tag, s: Strategy, stable: bool, items: Items)
    requires (tag.A? || tag.B?) && Finds(s)
    ensures Ids(Zone(Small(stable), Aim(tag, s).claim, items)) == Matched(items, Label(tag))
  {
  }

  lemma ListedArePlain(items: Items, tag: string)
    ensures AllPlain(Listed(Matched(items, tag)))
  {
    var ids := Matched(items, tag);
    assert forall i :: 0 <= i < |Listed(ids)| ==> Listed(ids)[i] in ids;
  }

  lemma QuotedAreShown(doc: string, expr: string, ids: seq<string>)
    requires doc != "" && Found(doc, expr) == ids
    ensures ShowsIds(Lib(), doc, expr, ids)
  {
    assert Lib().jsonPath(doc, expr) == Nodes(Quoted(ids));
  }

  // The service's own functions, written out.
  lemma SmallIs(stable: bool, items: Items, ids: set<string>)
    ensures Small(stable).order(ids) == Listed(ids)
    ensures Small(stable).listing(items, COLL) == Document(Listed(Matched(items, "a")), Listed(Matched(items, "b")))
  {
  }

  // The listing shows all matches of either expression.
  lemma ListingShowsAll(tag: Tag, s: Strategy, stable: bool, items: Items)
    requires (tag.A? || tag.B?) && Finds(s)
    ensures ShowsMatches(Lib(), Small(stable), Aim(tag, s).claim, items)
  {
    var ids := Matched(items, Label(tag));
    var a, b := Listed(Matched(items, "a")), Listed(Matched(items, "b"));
    ListedArePlain(items, "a");
    ListedArePlain(items, "b");
    DocumentIsRead(a, b);
    QuotedAreShown(Document(a, b), Label(tag), Listed(ids));
    SmallIs(stable, items, ids);
    MatchedIds(tag, s, stable, items);
  }

  // Two items that match, and one that does not.
  function Three(): Items {
    map[Key(COLL, "7") := Content(A), Key(COLL, "9") := Change(A), Key(COLL, "5") := Content(B)]
  }

  lemma TwoMatch()
    ensures Matched(Three(), "a") == {"7", "9"} && |{"7", "9"}| == 2
  {
    FirstLetters(B, A);
    BeginsWithLabel(A);
    assert Key(COLL, "7") in Three() && Key(COLL, "9") in Three();
    assert {"7", "9"} - {"7"} == {"9"};
  }

  // There may be several matches. All are shown and the first counts.
  lemma SeveralMatches(stable: bool, s: Strategy)
    requires Finds(s)
    ensures var v, claim := Small(stable), Aim(A, s).claim;
            && |v.order(Ids(Zone(v, claim, Three())))| == 2 && ShowsMatches(Lib(), v, claim, Three())
  {
    TwoMatch();
    MatchedIds(A, s, stable, Three());
    SmallIs(stable, Three(), Matched(Three(), "a"));
    ListingShowsAll(A, s, stable, Three());
  }

  lemma PostsArePossible(tag: Tag, s: Strategy, strategy: string, h: seq<Sent>)
    requires Suits(tag, s)
    ensures !tag.C? ==> Route(SampleRequests(tag, strategy)(h, POST, "")) == Create(COLL, Content(tag))
  {
    Requested(tag, strategy, h, POST, "");
    Endpoints(tag, strategy, POST, "");
  }

  lemma ChangesArePossible(tag: Tag, s: Strategy, strategy: string, h: seq<Sent>, verb: Verb, id: string)
    requires (tag.A? || tag.B?) && Suits(tag, s) && ChangesBy(s, verb) && id != "" && Plain(id)
    ensures Route(SampleRequests(tag, strategy)(h, verb, id)) == ChangeOp(Aim(tag, s), verb, Key(COLL, id))
  {
    Requested(tag, strategy, h, verb, id);
    Endpoints(tag, strategy, verb, id);
  }

  lemma GetIsPossible(tag: Tag, s: Strategy, strategy: string)
    requires (tag.A? || tag.B?) && Suits(tag, s)
    ensures Route(SampleRequests(tag, strategy)([], GET, "")) == List(COLL)
  {
    Requested(tag, strategy, [], GET, "");
    Endpoints(tag, strategy, GET, "");
  }

  lemma BeginsWithLabel(tag: Tag)
    ensures Content(tag) != "" && [Content(tag)[0]] == Label(tag)
    ensures Change(tag) != "" && [Change(tag)[0]] == Label(tag)
  {
  }

  lemma WritesArePossible(tag: Tag, s: Strategy, stable: bool)
    requires (tag.A? || tag.B?) && Suits(tag, s)
    ensures WritesMatch(Small(stable), Aim(tag, s))
    ensures ListsAll(Small(stable))
  {
    BeginsWithLabel(tag);
  }

  lemma FindRoutesArePossible(tag: Tag, s: Strategy, strategy: string, stable: bool)
    requires (tag.A? || tag.B?) && Suits(tag, s)
    ensures FindRoutes(Lib(), Small(stable), Aim(tag, s), Sample(tag, strategy), SampleRequests(tag, strategy))
  {
    var reqs := SampleRequests(tag, strategy);
    GetIsPossible(tag, s, strategy);
    WritesArePossible(tag, s, stable);
    forall h: seq<Sent> ensures Route(reqs(h, POST, "")) == Create(COLL, Content(tag)) {
      PostsArePossible(tag, s, strategy, h);
    }
    forall h: seq<Sent>, verb, id: string | ChangesBy(s, verb) && Findable(Small(stable), Aim(tag, s), id)
      ensures Route(reqs(h, verb, id)) == ChangeOp(Aim(tag, s), verb, Key(COLL, id))
    {
      ChangesArePossible(tag, s, strategy, h, verb, id);
    }
    forall items: Items ensures ShowsMatches(Lib(), Small(stable), Aim(tag, s).claim, items) {
      ListingShowsAll(tag, s, stable, items);
    }
  }

  lemma PostRoutesArePossible(s: Strategy, strategy: string, stable: bool)
    requires s.PostOnly?
    ensures PostRoutes(Lib(), Small(stable), Aim(D, s), Sample(D, strategy), SampleRequests(D, strategy))
  {
    var reqs := SampleRequests(D, strategy);
    forall h: seq<Sent> ensures Route(reqs(h, POST, "")) == Create(COLL, Content(D)) {
      PostsArePossible(D, s, strategy, h);
    }
  }

  lemma KeyRequest(strategy: string, h: seq<Sent>, verb: Verb)
    requires verb in {GET, PUT, POST}
    ensures Route(SampleRequests(C, strategy)(h, verb, "")) ==
              match verb
              case GET => Read(Key(COLL, "k"))
              case PUT => Replace(Key(COLL, "k"), Content(C))
              case _ => Create(COLL, Content(C))
  {
    Endpoints(C, strategy, verb, "");
    Requested(C, strategy, h, verb, "");
  }

  lemma KeyRequests(strategy: string, stable: bool, h: seq<Sent>)
    ensures var v, reqs := Small(stable), SampleRequests(C, strategy);
            && v.route(reqs(h, GET, "")) == Read(Key(COLL, "k"))
            && v.route(reqs(h, PUT, "")) == Replace(Key(COLL, "k"), Content(C))
            && v.route(reqs(h, POST, "")) == Create(COLL, Content(C))
  {
    KeyRequest(strategy, h, GET);
    KeyRequest(strategy, h, PUT);
    KeyRequest(strategy, h, POST);
  }

  lemma KeyRoutesFrom(lib: Library, v: Service, g: Target, a: Action, reqs: Requests)
    requires g.claim.Exactly? && !g.posts && v.route(reqs([], GET, "")) == Read(g.claim.key)
    requires forall h: seq<Sent> :: v.route(reqs(h, PUT, "")) == Replace(g.claim.key, g.content)
    requires forall h: seq<Sent> :: v.route(reqs(h, POST, "")) == Create(g.claim.key.coll, g.content)
    requires forall content: string :: v.show(content) != ""
    requires forall items: Items, clock: nat :: v.newId(items, clock, g.claim.key.coll, g.content) == g.claim.key.id
    ensures RoutedByKey(lib, v, g, a, reqs)
  {
  }

  lemma KeyServes(s: Strategy, stable: bool)
    requires ByKey(s)
    ensures var v, g := Small(stable), Aim(C, s);
            && (forall content: string :: v.show(content) != "")
            && forall items: Items, clock: nat ::
                 v.newId(items, clock, g.claim.key.coll, g.content) == g.claim.key.id
  {
  }

  lemma KeyRoutesArePossible(s: Strategy, strategy: string, stable: bool)
    requires ByKey(s)
    ensures RoutedByKey(Lib(), Small(stable), Aim(C, s), Sample(C, strategy), SampleRequests(C, strategy))
  {
    var v, g, reqs := Small(stable), Aim(C, s), SampleRequests(C, strategy);
    KeyRequests(strategy, stable, []);
    KeyServes(s, stable);
    forall h: seq<Sent>
      ensures v.route(reqs(h, PUT, "")) == Replace(g.claim.key, g.content)
      ensures v.route(reqs(h, POST, "")) == Create(g.claim.key.coll, g.content)
    {
      KeyRequests(strategy, stable, h);
    }
    KeyRoutesFrom(Lib(), v, g, Sample(C, strategy), reqs);
  }

  // ---- The plan ----

  // Four actions for one collection, with any strategies that suit them.
  type Names = Tag -> string

  ghost predicate Suitable(n: Names) {
    forall tag :: Registered(n(tag)).Some? && Suits(tag, Registered(n(tag)).value)
  }

  lemma LabelsDiffer(tag1: Tag, tag2: Tag)
    requires Label(tag1) == Label(tag2)
    ensures tag1 == tag2
  {
    assert Label(tag1)[0] == Label(tag2)[0];
  }

  ghost function Four(n: Names): (plan: Plan)
    requires Suitable(n)
    ensures forall tag :: Sample(tag, n(tag)) in plan
  {
    assert forall t1, t2 :: Sample(t1, n(t1)) == Sample(t2, n(t2)) ==> t1 == t2 by {
      forall t1, t2 | Sample(t1, n(t1)) == Sample(t2, n(t2)) ensures t1 == t2 {
        LabelsDiffer(t1, t2);
      }
    }
    map tag | tag in {A, B, C, D} :: Sample(tag, n(tag)) := Aim(tag, Registered(n(tag)).value)
  }

  ghost function Here(stable: bool): Setting {
    Setting(Lib(), Small(stable), None)
  }

  // An action of this kind with its target, and a plan of such actions.
  ghost predicate IsSample(act: Action, g: Target, tag: Tag, s: Strategy) {
    act == Sample(tag, act.strategy) && Registered(act.strategy) == Some(s) && Suits(tag, s) && g == Aim(tag, s)
  }

  ghost predicate Sampled(plan: Plan, act: Action) {
    act in plan && exists tag, s :: IsSample(act, plan[act], tag, s)
  }

  ghost predicate Suited(plan: Plan) {
    && (forall act {:trigger Sampled(plan, act)} :: act in plan ==> Sampled(plan, act))
    && (forall a, b :: a in plan && b in plan && a != b ==> a.name != b.name)
  }

  lemma FourAreSampled(n: Names, act: Action) returns (tag: Tag)
    requires Suitable(n) && act in Four(n)
    ensures act == Sample(tag, n(tag)) && Sampled(Four(n), act)
  {
    tag :| tag in {A, B, C, D} && act == Sample(tag, n(tag));
    assert IsSample(act, Four(n)[act], tag, Registered(n(tag)).value);
  }

  lemma FourIsSuited(n: Names)
    requires Suitable(n)
    ensures Suited(Four(n))
  {
    forall act | act in Four(n) ensures Sampled(Four(n), act) {
      var tag := FourAreSampled(n, act);
    }
    forall a, b | a in Four(n) && b in Four(n) && a != b ensures a.name != b.name {
      var tag1 := FourAreSampled(n, a);
      var tag2 := FourAreSampled(n, b);
      if a.name == b.name {
        LabelsDiffer(tag1, tag2);
      }
    }
  }

  lemma EachIsPlanned(plan: Plan, act: Action) returns (tag: Tag, strategy: string, s: Strategy)
    requires Suited(plan) && act in plan
    ensures act == Sample(tag, strategy) && act.name == Label(tag)
    ensures Registered(strategy) == Some(s) && Suits(tag, s) && plan[act] == Aim(tag, s)
  {
    assert Sampled(plan, act);
    strategy := act.strategy;
    tag, s :| IsSample(act, plan[act], tag, s);
  }

  // Whatever it can find, the action's texts mention one name only.
  lemma OneNameIsMentioned(tag: Tag, s: Strategy, strategy: string, ids: Finding, n: string)
    requires Suits(tag, s) && Registered(strategy) == Some(s)
    requires forall id: string :: ids(Sample(tag, strategy), id) ==> Plain(id)
    ensures Mentions(Lib(), ids, Sample(tag, strategy), n) ==> n == NAME
  {
    var a := Sample(tag, strategy);
    PayloadParts();
    ContentIsBound(tag);
    PlainPath(Change(tag));
    forall verb, id: string | Sendable(ids, a, verb, id)
      ensures !MentionedIn(Lib(), Lib().url(Endpoint(a, verb, id)).path, n)
    {
      PlainEndpoint(tag, strategy, verb, id);
      PlainPath(Endpoint(a, verb, id));
    }
  }

  lemma FoundIdsArePlain(stable: bool, plan: Plan, act: Action, id: string)
    requires Suited(plan) && act in plan && IdsOf(Here(stable), plan)(act, id)
    ensures Plain(id)
  {
    assert Findable(Small(stable), plan[act], id);
  }

  lemma MentionsItsOwn(stable: bool, plan: Plan, a: Action, name: string)
    requires Suited(plan) && a in plan && Mentions(Lib(), IdsOf(Here(stable), plan), a, name)
    ensures name == NAME
  {
    var ids := IdsOf(Here(stable), plan);
    var tag, strategy, s := EachIsPlanned(plan, a);
    forall id: string | ids(a, id) ensures Plain(id) {
      FoundIdsArePlain(stable, plan, a, id);
    }
    OneNameIsMentioned(tag, s, strategy, ids, name);
  }

  lemma BindsItsOwn(plan: Plan, a: Action)
    requires Suited(plan) && a in plan
    ensures NAME in a.variables && Settable(NAME, a.variables[NAME]) && NAME !in a.captures
  {
    var tag, strategy, s := EachIsPlanned(plan, a);
    ContentIsBound(tag);
  }

  // No action captures the name that all of them mention and bind.
  lemma OwnNamesAreIndependent(lib: Library, ids: Finding, acts: set<Action>)
    requires forall a, n {:trigger Mentions(lib, ids, a, n)} :: a in acts && Mentions(lib, ids, a, n) ==> n == NAME
    requires forall a <- acts :: NAME in a.variables && Settable(NAME, a.variables[NAME]) && NAME !in a.captures
    ensures Independent(lib, ids, acts)
  {
  }

  lemma TheyAreIndependent(stable: bool, plan: Plan, ids: Finding, acts: set<Action>)
    requires Suited(plan) && ids == IdsOf(Here(stable), plan) && acts == plan.Keys
    ensures Independent(Lib(), ids, acts)
  {
    forall a | a in acts ensures NAME in a.variables && Settable(NAME, a.variables[NAME]) && NAME !in a.captures {
      BindsItsOwn(plan, a);
    }
    forall a, n: string {:trigger Mentions(Lib(), ids, a, n)} | a in acts && Mentions(Lib(), ids, a, n)
      ensures n == NAME
    {
      MentionsItsOwn(stable, plan, a, n);
    }
    OwnNamesAreIndependent(Lib(), ids, acts);
  }

  lemma OursAreAll(plan: Plan)
    ensures Ours(None, plan) == plan.Keys
  {
  }

  lemma BeginIsUndisturbed(stable: bool, plan: Plan)
    requires Suited(plan)
    ensures Undisturbed(Lib(), IdsOf(Here(stable), plan), Ours(None, plan), map[], Begin())
  {
  }

  ghost function Begin(): World<Backend> {
    Fresh(Backend(map[], 0), map[])
  }

  lemma FirstLetters(tag1: Tag, tag2: Tag)
    requires tag1 != tag2
    ensures !Matches(Label(tag2), Content(tag1)) && !Matches(Label(tag2), Change(tag1))
    ensures Matches(Label(tag1), Content(tag1)) && Matches(Label(tag1), Change(tag1))
  {
    BeginsWithLabel(tag1);
    assert Label(tag1)[0] != Label(tag2)[0];
  }

  predicate OwnsItem(tag: Tag, k: Key, c: string) {
    if tag.C? then k == Key(COLL, "k") else k.coll == COLL && k.id != "" && Plain(k.id) && Matches(Label(tag), c)
  }

  lemma OwnsOf(stable: bool, tag: Tag, s: Strategy, k: Key, c: string)
    requires Suits(tag, s)
    ensures Owns(Small(stable), Aim(tag, s).claim, k, c)
       <==> OwnsItem(tag, k, c)
  {
  }

  lemma TheyLeaveEachOtherAlone(stable: bool, tag1: Tag, s1: Strategy, tag2: Tag, s2: Strategy)
    requires Suits(tag1, s1) && Suits(tag2, s2) && tag1 != tag2
    ensures LeavesAlone(Small(stable), Aim(tag1, s1), Aim(tag2, s2))
  {
    var v, g, h := Small(stable), Aim(tag1, s1), Aim(tag2, s2);
    FirstLetters(tag1, tag2);
    forall k, c
      ensures Owns(v, h.claim, k, c)
         <==> OwnsItem(tag2, k, c)
    {
      OwnsOf(stable, tag2, s2, k, c);
    }
  }

  lemma IdsAreAssigned(tag: Tag, s: Strategy)
    requires Suits(tag, s) && !tag.C?
    ensures AssignsIds(Small(false), Aim(tag, s))
  {
    FirstLetters(tag, C);
  }

  lemma AddressedIsPossible(tag: Tag, s: Strategy, strategy: string)
    requires Suits(tag, s)
    ensures Addressed(Lib(), Small(false), Aim(tag, s), Sample(tag, strategy), SampleRequests(tag, strategy))
  {
    if tag.C? {
      KeyRoutesArePossible(s, strategy, false);
    } else if tag.D? {
      PostRoutesArePossible(s, strategy, false);
      IdsAreAssigned(tag, s);
    } else {
      FindRoutesArePossible(tag, s, strategy, false);
      IdsAreAssigned(tag, s);
    }
  }

  lemma AllAddressed(plan: Plan)
    requires Suited(plan)
    ensures AddressedFrom(Here(false), plan, map[])
    ensures forall act <- plan :: Proper(Small(false), plan[act])
  {
    forall act | act in plan
      ensures Registered(act.strategy) == Some(plan[act].strategy) && Proper(Small(false), plan[act])
      ensures Addressed(Lib(), Small(false), plan[act], act, RequestsOf(Lib(), act, map[]))
    {
      var tag, strategy, s := EachIsPlanned(plan, act);
      AddressedIsPossible(tag, s, strategy);
      AddressedFacts(Lib(), Small(false), plan[act], act, SampleRequests(tag, strategy), map[]);
    }
  }

  lemma AllLeaveAlone(plan: Plan)
    requires Suited(plan)
    ensures forall a1, a2 :: a1 in plan && a2 in plan && a1 != a2 ==>
      LeavesAlone(Small(false), plan[a1], plan[a2])
  {
    forall a1, a2 | a1 in plan && a2 in plan && a1 != a2
      ensures LeavesAlone(Small(false), plan[a1], plan[a2])
    {
      var tag1, strategy1, s1 := EachIsPlanned(plan, a1);
      var tag2, strategy2, s2 := EachIsPlanned(plan, a2);
      TheyLeaveEachOtherAlone(false, tag1, s1, tag2, s2);
    }
  }

  lemma SuitedIsSensible(plan: Plan)
    requires Suited(plan)
    ensures Sensible(Here(false), plan) && Separate(Here(false), plan, map[])
  {
    AllAddressed(plan);
    AllLeaveAlone(plan);
  }

  lemma SuitedIsOnTarget(plan: Plan, faults: nat -> Fault, failFast: bool, runs: seq<seq<Action>>)
    requires Suited(plan) && forall run <- runs :: Planned(plan.Keys, run)
    ensures AllOnTarget(Here(false), plan, faults, failFast, runs, Begin())
  {
    AllAddressed(plan);
    OursAreAll(plan);
    TheyAreIndependent(false, plan, IdsOf(Here(false), plan), plan.Keys);
    BeginIsUndisturbed(false, plan);
    IndependentIsOnTarget(Here(false), plan, map[], faults, failFast, runs, Begin());
  }

  // A setting, a plan of four actions for one collection and a world that the
  // theorems about whole runs apply to, for every choice of strategies, whatever
  // fails and in whatever orders the actions are run.
  lemma SensibleIsPossible(n: Names, faults: nat -> Fault, failFast: bool, runs: seq<seq<Action>>)
    requires Suitable(n) && forall run <- runs :: Planned(Four(n).Keys, run)
    ensures Sensible(Here(false), Four(n)) && Separate(Here(false), Four(n), map[])
    ensures AllOnTarget(Here(false), Four(n), faults, failFast, runs, Begin())
  {
    FourIsSuited(n);
    SuitedIsSensible(Four(n));
    SuitedIsOnTarget(Four(n), faults, failFast, runs);
  }

  // ---- Ids that follow from the content ----

  lemma IdsAreStable(tag: Tag, s: Strategy)
    requires Suits(tag, s) && !tag.C?
    ensures StableIds(Small(true), Aim(tag, s))
  {
  }

  lemma StableKeyIsPossible(s: Strategy, strategy: string)
    requires ByKey(s)
    ensures StablyAddressed(Lib(), Small(true), Aim(C, s), Sample(C, strategy), SampleRequests(C, strategy))
  {
    KeyRoutesArePossible(s, strategy, true);
  }

  lemma StablePostIsPossible(s: Strategy, strategy: string)
    requires s.PostOnly?
    ensures StablyAddressed(Lib(), Small(true), Aim(D, s), Sample(D, strategy), SampleRequests(D, strategy))
  {
    PostRoutesArePossible(s, strategy, true);
    IdsAreStable(D, s);
  }

  lemma StableFindIsPossible(tag: Tag, s: Strategy, strategy: string)
    requires (tag.A? || tag.B?) && Finds(s)
    ensures StablyAddressed(Lib(), Small(true), Aim(tag, s), Sample(tag, strategy), SampleRequests(tag, strategy))
  {
    FindRoutesArePossible(tag, s, strategy, true);
    IdsAreStable(tag, s);
  }

  lemma StableIdsArePossible(tag: Tag, s: Strategy, strategy: string)
    requires Suits(tag, s)
    ensures StablyAddressed(Lib(), Small(true), Aim(tag, s), Sample(tag, strategy), SampleRequests(tag, strategy))
  {
    match tag
    case C => StableKeyIsPossible(s, strategy);
    case D => StablePostIsPossible(s, strategy);
    case _ => StableFindIsPossible(tag, s, strategy);
  }

  function Fixed(tag: Tag): Key {
    Key(COLL, if tag.C? then "k" else Content(tag))
  }

  // Which items concern an action, by the first letter of their content.
  predicate Concerns(tag: Tag, k: Key, letter: string) {
    (!tag.C? && letter == Label(tag) && k.coll == COLL && k.id != "" && Plain(k.id)) || k == Fixed(tag)
  }

  lemma DomainOf(tag: Tag, s: Strategy, k: Key, c: string)
    requires Suits(tag, s)
    ensures Domain(Small(true), Aim(tag, s), k, c) <==> Concerns(tag, k, Letter(c))
    ensures !tag.C? ==> NewKey(Small(true), Aim(tag, s)) == Fixed(tag)
  {
    if !tag.C? {
      BeginsWithLabel(tag);
      BeginsWithLabel(C);
    }
  }

  function Letter(c: string): string {
    if c == "" then "" else [c[0]]
  }

  // Writes that all begin with one letter.
  lemma SameLetterKeepsApart(v: Service, a: Target, g: Target, h: Target, both: (Key, string) -> bool, letter: string)
    requires forall k, c :: Both(v, g, h, k, c) <==> both(k, Letter(c))
    requires Letter(a.content) == letter && forall c: string :: Letter(v.merge(c, a.patch)) == letter
    requires a.claim.Matching? ==> forall k, c :: Owns(v, a.claim, k, c) ==> Letter(c) == letter
    requires ByKey(a.strategy) && a.claim.Exactly? ==> !both(a.claim.key, letter)
    requires Creates(a) ==> !both(NewKey(v, a), letter) && a.claim.Matching?
    ensures KeepsApart(v, a, g, h)
  {
  }

  ghost predicate BothConcerned(tag2: Tag, tag3: Tag, k: Key, letter: string) {
    Concerns(tag2, k, letter) && Concerns(tag3, k, letter)
  }

  lemma BothOf(tag2: Tag, s2: Strategy, tag3: Tag, s3: Strategy, k: Key, c: string)
    requires Suits(tag2, s2) && Suits(tag3, s3)
    ensures Both(Small(true), Aim(tag2, s2), Aim(tag3, s3), k, c) <==> BothConcerned(tag2, tag3, k, Letter(c))
  {
    DomainOf(tag2, s2, k, c);
    DomainOf(tag3, s3, k, c);
  }

  lemma FixedDiffer(tag1: Tag, tag2: Tag)
    requires tag1 != tag2
    ensures Fixed(tag1) != Fixed(tag2)
  {
    BeginsWithLabel(tag1);
    BeginsWithLabel(tag2);
    assert Label(tag1)[0] != Label(tag2)[0] && Label(tag1)[0] != 'k' && Label(tag2)[0] != 'k';
  }

  lemma NotBoth(tag1: Tag, tag2: Tag, tag3: Tag)
    requires tag2 != tag3
    ensures !BothConcerned(tag2, tag3, Fixed(tag1), Label(tag1))
  {
    if tag1 != tag2 {
      FixedDiffer(tag1, tag2);
    }
    if tag1 != tag3 {
      FixedDiffer(tag1, tag3);
    }
  }

  lemma TheyKeepApart(tag1: Tag, s1: Strategy, tag2: Tag, s2: Strategy, tag3: Tag, s3: Strategy)
    requires Suits(tag1, s1) && Suits(tag2, s2) && Suits(tag3, s3) && tag2 != tag3
    ensures KeepsApart(Small(true), Aim(tag1, s1), Aim(tag2, s2), Aim(tag3, s3))
  {
    var v, a, g, h := Small(true), Aim(tag1, s1), Aim(tag2, s2), Aim(tag3, s3);
    var both: (Key, string) -> bool := (k, letter) => BothConcerned(tag2, tag3, k, letter);
    BeginsWithLabel(tag1);
    forall k, c ensures Both(v, g, h, k, c) <==> both(k, Letter(c)) {
      BothOf(tag2, s2, tag3, s3, k, c);
    }
    NotBoth(tag1, tag2, tag3);
    DomainOf(tag1, s1, Fixed(tag1), "");
    SameLetterKeepsApart(v, a, g, h, both, Label(tag1));
  }

  lemma AllStablyAddressed(plan: Plan)
    requires Suited(plan)
    ensures StablyAddressedFrom(Here(true), plan, map[])
    ensures forall act <- plan :: Closed(Small(true), plan[act])
  {
    forall act | act in plan
      ensures Registered(act.strategy) == Some(plan[act].strategy) && Closed(Small(true), plan[act])
      ensures StablyAddressed(Lib(), Small(true), plan[act], act, RequestsOf(Lib(), act, map[]))
    {
      var tag, strategy, s := EachIsPlanned(plan, act);
      StableIdsArePossible(tag, s, strategy);
    }
  }

  lemma AllKeepApart(plan: Plan)
    requires Suited(plan)
    ensures forall a, b, d :: a in plan && Tied(plan, b, d) ==>
      KeepsApart(Small(true), plan[a], plan[b], plan[d])
  {
    forall a, b, d | a in plan && Tied(plan, b, d)
      ensures KeepsApart(Small(true), plan[a], plan[b], plan[d])
    {
      var tag1, strategy1, s1 := EachIsPlanned(plan, a);
      var tag2, strategy2, s2 := EachIsPlanned(plan, b);
      var tag3, strategy3, s3 := EachIsPlanned(plan, d);
      TheyKeepApart(tag1, s1, tag2, s2, tag3, s3);
    }
  }

  lemma AllStayOnTarget(plan: Plan, failFast: bool, run: seq<Action>)
    requires Suited(plan) && Planned(plan.Keys, run)
    ensures StablyOnTarget(Here(true), plan, failFast, run, Begin())
  {
    AllStablyAddressed(plan);
    OursAreAll(plan);
    TheyAreIndependent(true, plan, IdsOf(Here(true), plan), plan.Keys);
    BeginIsUndisturbed(true, plan);
    IndependentIsStablyOnTarget(Here(true), plan, map[], failFast, run, Begin());
  }

  lemma SuitedIsOrderless(plan: Plan)
    requires Suited(plan)
    ensures Orderless(Here(true), plan) && TiesApart(Here(true), plan, map[])
  {
    AllStablyAddressed(plan);
    AllKeepApart(plan);
  }

  lemma AllAreTied(n: Names)
    requires Suitable(n)
    ensures Tied(Four(n), Sample(A, n(A)), Sample(B, n(B))) && Tied(Four(n), Sample(A, n(A)), Sample(C, n(C)))
  {
    assert Sample(A, n(A)).name == "a" && Sample(B, n(B)).name == "b" && Sample(C, n(C)).name == "c";
  }

  // The same four actions, all of equal Order, meet the hypotheses of order
  // confluence when ids follow from the content.
  lemma OrderlessIsPossible(n: Names, failFast: bool, run: seq<Action>)
    requires Suitable(n) && Planned(Four(n).Keys, run)
    ensures Orderless(Here(true), Four(n)) && TiesApart(Here(true), Four(n), map[])
    ensures StablyOnTarget(Here(true), Four(n), failFast, run, Begin())
    ensures Tied(Four(n), Sample(A, n(A)), Sample(B, n(B))) && Tied(Four(n), Sample(A, n(A)), Sample(C, n(C)))
  {
    FourIsSuited(n);
    SuitedIsOrderless(Four(n));
    AllStayOnTarget(Four(n), failFast, run);
    AllAreTied(n);
  }
}

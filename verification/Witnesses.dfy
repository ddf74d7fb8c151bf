// The request languages of Traces.dfy are not too large: each of their words
// is what some server makes the strategy say.
module Witnesses {
  import opened Wire
  import opened Text
  import opened Engine
  import opened Traces

  // A server that plays back a list of replies.
  function PlayBack(replies: seq<Reply>, req: Request): (seq<Reply>, Reply) {
    if replies == [] then (replies, NetworkFailure("")) else (replies[1..], replies[0])
  }

  // An id is found in the document "found" and nowhere else; the endpoint
  // "bad" cannot be built.
  function Lookup(doc: string, expr: string): PathResult {
    Nodes(if doc == "found" then [NumericNode("7")] else [])
  }

  function Scripted(): Ctx<seq<Reply>> {
    Ctx(Library((text: string) => Malformed, (text: string) => None, (doc: string, expr: string) => Lookup(doc, expr),
                (endpoint: string) => Url("", "", ""),
                (endpoint: string) => if endpoint == "bad" then Some("bad") else None),
        (replies: seq<Reply>, req: Request) => PlayBack(replies, req))
  }

  function Probe(word: seq<Verb>): Action {
    Action("", "", None, if word == [] then "bad" else "ok", None, None, None, None, None, "$", false, "", "", map[],
        map[])
  }

  // Replies under which the strategy speaks the word.
  function Script(s: Strategy, word: seq<Verb>): seq<Reply> {
    if |word| == 3 then [Answer(200, "found"), Answer(200, ""), Answer(200, "")]
    else if word == [PUT, POST] then [Answer(404, ""), Answer(201, "")]
    else if word == [GET, POST] then [Answer(200, if Finds(s) then "none" else ""), Answer(201, "")]
    else if |word| == 2 then [Answer(200, "found"), Answer(500, "")]
    else [NetworkFailure("")]
  }

  lemma SpokenStep(a: Action, w: World<seq<Reply>>, verb: Verb, id: string)
    requires w.server != [] && (verb.GET? ==> a.endpoint != "bad") && a.getSuffix.None?
    ensures var (w', r) := Send(Scripted(), a, w, verb, id);
            && w'.server == w.server[1..] && |w'.log| == |w.log| + 1 && w'.log[..|w.log|] == w.log
            && w'.log[|w.log|].request.verb == verb
            && r == Classify(a.name, w'.log[|w.log|].request, w.server[0])
  {
    assert a.endpoint + "" + "" == a.endpoint;
  }

  // The results `h` are those of the first scripted replies.
  ghost predicate Fits(h: seq<Sent>, replies: seq<Reply>) {
    |h| <= |replies| && forall j :: 0 <= j < |h| ==> FitsReply(h[j], replies[j])
  }

  ghost predicate FitsReply(c: Sent, r: Reply) {
    && (c.Body? <==> Succeeded(r)) && (c.Body? ==> c.text == r.body)
    && (c.Failed? ==>
         c.error.Diagnosed? && !c.error.d.isFatal == r.Answer? && c.error.d.proceedFallback == AllowsFallback(r))
  }

  // Whatever the requests were, the strategy reacts with the next verb of the
  // word, and stops at its end.
  ghost predicate Reacts(s: Strategy, a: Action, word: seq<Verb>, replies: seq<Reply>) {
    forall h :: Fits(h, replies) ==>
      var d := Decide(Scripted().lib, s, a, "", h);
      if |h| < |word| then d.Issue? && d.verb == word[|h|] else |h| == |word| ==> d.Return?
  }

  lemma ScriptWorks(s: Strategy, word: seq<Verb>)
    requires word in Language(s) && word != []
    ensures |Script(s, word)| == |word| && Reacts(s, Probe(word), word, Script(s, word))
  {
    var replies := Script(s, word);
    forall h | Fits(h, replies)
      ensures var d := Decide(Scripted().lib, s, Probe(word), "", h);
              if |h| < |word| then d.Issue? && d.verb == word[|h|] else |h| == |word| ==> d.Return?
    {
      if |h| == 1 {
        assert FitsReply(h[0], replies[0]);
      } else if |h| >= 2 {
        assert FitsReply(h[0], replies[0]) && FitsReply(h[1], replies[1]);
        assert h[..1] == [h[0]];
      }
    }
  }

  lemma SpokenOn(a: Action, word: seq<Verb>, replies: seq<Reply>, w: World<seq<Reply>>, h: seq<Sent>, verb: Verb,
      id: string)
    requires a.endpoint != "bad" && a.getSuffix.None?
    requires |word| == |replies| && |h| < |word| && verb == word[|h|]
    requires Fits(h, replies) && w.server == replies[|h|..] && Verbs(w.log) == word[..|h|]
    ensures var (w', r) := Send(Scripted(), a, w, verb, id);
            Fits(h + [r], replies) && w'.server == replies[|h| + 1..] && Verbs(w'.log) == word[..|h| + 1]
  {
    SpokenStep(a, w, verb, id);
    var (w', r) := Send(Scripted(), a, w, verb, id);
    SaidSoFar(w.log, w'.log, verb);
    ClassifyFacts(a.name, w'.log[|w.log|].request, replies[|h|]);
    assert FitsReply(r, replies[|h|]);
  }

  lemma {:induction false} Converse(s: Strategy, a: Action, word: seq<Verb>, replies: seq<Reply>,
      w: World<seq<Reply>>, h: seq<Sent>)
    requires a.endpoint != "bad" && a.getSuffix.None?
    requires |word| == |replies| <= 3 && Reacts(s, a, word, replies)
    requires Fits(h, replies) && w.server == replies[|h|..] && Verbs(w.log) == word[..|h|]
    ensures Verbs(Play(Scripted(), s, a, "", w, h).0.log) == word
    decreases 3 - |h|
  {
    match Decide(Scripted().lib, s, a, "", h)
    case Return(_) =>
    case Issue(verb, id) =>
      SpokenOn(a, word, replies, w, h, verb, id);
      var (w', r) := Send(Scripted(), a, w, verb, id);
      Converse(s, a, word, replies, w', h + [r]);
  }

  lemma SaidSoFar(log: seq<Exchange>, log': seq<Exchange>, verb: Verb)
    requires |log'| == |log| + 1 && log'[..|log|] == log && log'[|log|].request.verb == verb
    ensures Verbs(log') == Verbs(log) + [verb]
  {
    forall i | 0 <= i < |log| ensures log'[i] == log[i] {
      assert log'[..|log|][i] == log[i];
    }
  }

  // Every word of every language is spoken to some server.
  lemma EveryWordIsSpoken(s: Strategy, word: seq<Verb>, env: Bindings)
    requires word in Language(s)
    ensures Verbs(RunStrategy(Scripted(), s, Probe(word), "", Fresh(Script(s, word), env)).0.log) == word
  {
    var w := Fresh(Script(s, word), env);
    if word == [] {
      assert "bad" + "" + "" == "bad";
      UnbuildableGet(Scripted(), s, Probe(word), "", w);
    } else {
      ScriptWorks(s, word);
      Converse(s, Probe(word), word, Script(s, word), Retemplate(Scripted().lib, w, "", map[]), []);
    }
  }
}

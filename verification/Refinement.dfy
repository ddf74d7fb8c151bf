// What one worker does with one item, without interruption, is a sequence of
// steps of the machine: the same queue, the same lookup, an execution recorded
// exactly when the service runs, and the same status write
// (controller/internal/k8s/controller.go, processNextWorkItem).
module Refinement {
  import opened Wire
  import opened WorkQueue
  import opened Reconcile
  import C = Controller

  // ---- Queues of keys and of items ----

  // The machine's queue, as the object holds it.
  function Texts(q: Queue<Key>): Queue<C.Item> {
    Queue(set k | k in q.dirty :: C.Text(k), set k | k in q.processing :: C.Text(k),
          seq(|q.queue|, i requires 0 <= i < |q.queue| => C.Text(q.queue[i])),
          set k | k in q.delayed :: C.Text(k))
  }

  lemma TextsOfGet(q: Queue<Key>)
    requires q.queue != []
    ensures Texts(q).queue != [] && Texts(q).queue[0] == C.Text(q.queue[0])
    ensures Texts(Get(q)) == Get(Texts(q))
  {
    var k := q.queue[0];
    assert Texts(Get(q)).dirty == Get(Texts(q)).dirty;
    assert Texts(Get(q)).processing == Get(Texts(q)).processing;
    assert Texts(Get(q)).queue == Get(Texts(q)).queue;
  }

  lemma TextsOfAddRateLimited(q: Queue<Key>, k: Key)
    ensures Texts(AddRateLimited(q, k)) == AddRateLimited(Texts(q), C.Text(k))
  {
    assert Texts(AddRateLimited(q, k)).delayed == AddRateLimited(Texts(q), C.Text(k)).delayed;
  }

  lemma TextsOfDone(q: Queue<Key>, k: Key)
    ensures Texts(Done(q, k)) == Done(Texts(q), C.Text(k))
  {
    assert Texts(Done(q, k)).processing == Done(Texts(q), C.Text(k)).processing;
    assert k in q.dirty <==> C.Text(k) in Texts(q).dirty;
    assert Texts(Done(q, k)).queue == Done(Texts(q), C.Text(k)).queue;
  }

  // ---- The steps for one item ----

  lemma Prepend(s: Cluster, step: Step, steps: seq<Step>, s': Cluster)
    requires Enabled(s, step) && Leads(Apply(s, step), steps, s')
    ensures Leads(s, [step] + steps, s')
  {
    assert ([step] + steps)[0] == step && ([step] + steps)[1..] == steps;
  }

  // The worker is idle again; `executed` and `refused` are what it has recorded,
  // `status` whether it has written the status of what it had seen.
  ghost predicate Finishes(s: Cluster, s': Cluster, w: nat, k: Key, wq: Queue<Key>, executed: set<Spec>,
      refused: set<Spec>, status: bool)
    requires w < |s.workers|
  {
    && s'.workers == s.workers[w := Idle] && s'.wq == Done(wq, k) && s'.cached == s.cached && s'.notes == s.notes
    && s'.executed == s.executed + executed && s'.refused == s.refused + refused
    && s'.clock == s.clock + (if status then 1 else 0)
    && (forall j :: j != k || !status ==> Ahead(s', j) == Ahead(s, j))
  }

  lemma FromReleasing(s: Cluster, w: nat) returns (s': Cluster, steps: seq<Step>)
    requires w < |s.workers| && s.workers[w].Releasing?
    ensures Leads(s, steps, s') && Finishes(s, s', w, s.workers[w].key, s.wq, {}, {}, false)
  {
    s' := Apply(s, Release(w));
    Prepend(s, Release(w), [], s');
    steps := [Release(w)] + [];
  }

  lemma FromErred(s: Cluster, w: nat) returns (s': Cluster, steps: seq<Step>)
    requires w < |s.workers| && s.workers[w].Erred?
    ensures Leads(s, steps, s')
    ensures Finishes(s, s', w, s.workers[w].key, AddRateLimited(s.wq, s.workers[w].key), {}, {}, false)
  {
    var rest;
    s', rest := FromReleasing(Apply(s, PutBack(w)), w);
    Prepend(s, PutBack(w), rest, s');
    steps := [PutBack(w)] + rest;
  }

  lemma FromExecuted(s: Cluster, w: nat, status: bool) returns (s': Cluster, steps: seq<Step>)
    requires w < |s.workers| && s.workers[w].Executed? && Enabled(s, Report(w, status))
    ensures Leads(s, steps, s') && Finishes(s, s', w, s.workers[w].key, s.wq, {}, {}, status)
    ensures status ==> Latest(s', s.workers[w].key) == s.workers[w].seen.(rv := s.clock)
  {
    var rest;
    s', rest := FromReleasing(Apply(s, Report(w, status)), w);
    Prepend(s, Report(w, status), rest, s');
    steps := [Report(w, status)] + rest;
  }

  // Exactly one of the two sets gets the spec.
  function Recorded(spec: Spec, b: bool): set<Spec> {
    if b then {spec} else {}
  }

  lemma FromLooked(s: Cluster, w: nat, replaced: bool, status: bool) returns (s': Cluster, steps: seq<Step>)
    requires w < |s.workers| && s.workers[w].Looked? && s.workers[w].seen.Live?
    requires status ==> replaced && Latest(s, s.workers[w].key) == s.workers[w].seen
    ensures Leads(s, steps, s')
    ensures var k, seen := s.workers[w].key, s.workers[w].seen;
            var spec := (k, seen.uid, seen.gen);
            && Finishes(s, s', w, k, s.wq, Recorded(spec, replaced), Recorded(spec, !replaced), status)
            && (status ==> Latest(s', k) == seen.(rv := s.clock))
  {
    var s1, rest := Apply(s, Sync(w, replaced)), [];
    if replaced {
      s', rest := FromExecuted(s1, w, status);
    } else {
      s', rest := FromReleasing(s1, w);
    }
    Prepend(s, Sync(w, replaced), rest, s');
    steps := [Sync(w, replaced)] + rest;
  }

  // The machine's steps for the first key in line, given how the lookup and the
  // replacement go and whether the status write is accepted.
  lemma ItemSteps(s: Cluster, w: nat, fails: bool, replaced: bool, status: bool) returns (s': Cluster, steps: seq<Step>)
    requires w < |s.workers| && s.workers[w].Idle? && s.wq.queue != []
    requires status ==>
        !fails && replaced && Cached(s, s.wq.queue[0]).Live? && Latest(s, s.wq.queue[0]) == Cached(s, s.wq.queue[0])
    ensures Leads(s, steps, s')
    ensures var k := s.wq.queue[0];
            var found := !fails && Cached(s, k).Live?;
            var wq := if fails then AddRateLimited(Get(s.wq), k) else Get(s.wq);
            && Finishes(s, s', w, k, wq,
                if found then Recorded((k, Cached(s, k).uid, Cached(s, k).gen), replaced) else {},
                if found then Recorded((k, Cached(s, k).uid, Cached(s, k).gen), !replaced) else {}, status)
            && (status ==> Latest(s', k) == Cached(s, k).(rv := s.clock))
  {
    var k := s.wq.queue[0];
    var s1 := Apply(s, Take(w));
    var s2 := Apply(s1, Look(w, fails));
    assert s2.workers[w := Idle] == s.workers[w := Idle];
    assert Cached(s1, k) == Cached(s, k) && Latest(s2, k) == Latest(s, k);
    var rest;
    if fails {
      s', rest := FromErred(s2, w);
    } else if Cached(s, k).Gone? {
      s', rest := FromReleasing(s2, w);
    } else {
      s', rest := FromLooked(s2, w, replaced, status);
    }
    Prepend(s1, Look(w, fails), rest, s');
    Prepend(s, Take(w), [Look(w, fails)] + rest, s');
    steps := [Take(w)] + ([Look(w, fails)] + rest);
  }

  // ---- The object and the machine ----

  // What the lister and the API server say about a key is what the machine says.
  ghost predicate Mirrors<S>(c: C.Controller<S>, s: Cluster, k: Key)
    reads c.lister, c.api
  {
    && c.api.clock == s.clock
    && (match c.LookupOf(k)
        case Found(r) => Cached(s, k) == r.version && C.SplitKey(k) == Some((r.namespace, r.name))
        case NotFound => Cached(s, k).Gone?
        case LookupError(_) => true)
    && (match C.SplitKey(k)
        case None => true
        case Some(at) => Stored(c.api, at) == Latest(s, k))
  }

  ghost function Stored(api: C.StatusApi, at: (string, string)): Version
    reads api
  {
    if at in api.stored then api.stored[at].version else Gone
  }

  // The same run, seen from the object.
  lemma ItemRun(s: Cluster, w: nat, fails: bool, replaced: bool, status: bool) returns (s': Cluster, steps: seq<Step>)
    requires w < |s.workers| && s.workers[w].Idle? && s.wq.queue != []
    requires status ==>
        !fails && replaced && Cached(s, s.wq.queue[0]).Live? && Latest(s, s.wq.queue[0]) == Cached(s, s.wq.queue[0])
    ensures Leads(s, steps, s') && s'.workers == s.workers && Texts(s.wq).queue != []
    ensures var k := s.wq.queue[0];
            var item := C.Text(k);
            var got := Get(Texts(s.wq));
            && Texts(s.wq).queue[0] == item
            && Texts(s'.wq) == Done(if fails then AddRateLimited(got, item) else got, item)
            && Cached(s', k) == Cached(s, k)
            && s'.clock == s.clock + (if status then 1 else 0)
            && Latest(s', k) == (if status then Cached(s, k).(rv := s.clock) else Latest(s, k))
            && (var found := !fails && Cached(s, k).Live?;
                var spec := if found then {(k, Cached(s, k).uid, Cached(s, k).gen)} else {};
                && s'.executed == s.executed + (if replaced then spec else {})
                && s'.refused == s.refused + (if replaced then {} else spec))
  {
    var k := s.wq.queue[0];
    s', steps := ItemSteps(s, w, fails, replaced, status);
    assert s'.workers == s.workers;
    TextsOfGet(s.wq);
    TextsOfAddRateLimited(Get(s.wq), k);
    TextsOfDone(if fails then AddRateLimited(Get(s.wq), k) else Get(s.wq), k);
  }

  // One call of ProcessNextWorkItem is a run of the machine. In it a worker
  // takes the first key, the lookup fails when the lister's does, and the
  // execution of the service, or that the spec was dropped, is recorded.
  method ProcessInTheMachine<S>(c: C.Controller<S>, ghost s: Cluster, ghost w: nat)
    returns (ghost s': Cluster, ghost steps: seq<Step>)
    requires w < |s.workers| && s.workers[w].Idle? && s.wq.queue != []
    requires c.workqueue.q == Texts(s.wq) && Mirrors(c, s, s.wq.queue[0])
    modifies c.workqueue, c.api, c.target
    ensures Leads(s, steps, s') && s'.workers == s.workers && c.workqueue.q == Texts(s'.wq)
    ensures Mirrors(c, s', s.wq.queue[0])
    ensures c.SyncedAs(s.wq.queue[0])
    ensures var k := s.wq.queue[0];
            var found := c.LookupOf(k).Found?;
            var spec := if found then {(k, Cached(s, k).uid, Cached(s, k).gen)} else {};
            && s'.executed == s.executed + (if c.Runs(k) then spec else {})
            && s'.refused == s.refused + (if c.Runs(k) then {} else spec)
  {
    ghost var k := s.wq.queue[0];
    ghost var l := c.LookupOf(k);
    ghost var fails, replaced := l.LookupError?, c.Runs(k);
    ghost var status := replaced && c.api.Accepts(l.resource);
    s', steps := ItemRun(s, w, fails, replaced, status);
    var more := c.ProcessNextWorkItem();
  }
}

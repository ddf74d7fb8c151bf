// What the reconcile machine guarantees over all of its runs: no lost update,
// no self-triggering, one worker a key, and that it comes to rest.
module Settling {
  import opened WorkQueue
  import opened Reconcile

  // No handler call, delivery, key or worker is outstanding.
  ghost predicate Quiet(s: Cluster) {
    && (forall k :: Ahead(s, k) == [])
    && s.notes == [] && s.wq.dirty == {} && s.wq.delayed == {}
    && (forall i :: 0 <= i < |s.workers| ==> s.workers[i].Idle?)
  }

  // In every reachable interleaving, each cached resource has been handled at
  // its cached generation, is in the hands of a worker that has looked it up at
  // that generation, or will be looked at; and no key that is to be looked at is
  // out of reach of the workers.
  lemma NoLostUpdate(workers: nat, s: Cluster, k: Key)
    requires Reachable(workers, s)
    ensures Covered(s, k)
    ensures k in s.wq.dirty ==> k in s.wq.queue || Held(s.workers, k)
  {
    ReachableInvariant(workers, s);
    assert ChainedAt(s, k) && Covered(s, k) && Restrained(s, k);
    assert k in s.wq.queue <==> k in s.wq.dirty && k !in s.wq.processing;
  }

  // So at rest the service has been executed with the latest generation of each
  // resource, or its placeholders could not be replaced.
  lemma QuietIsHandled(workers: nat, s: Cluster, k: Key)
    requires Reachable(workers, s) && Quiet(s) && Latest(s, k).Live?
    ensures Handled(s, (k, Latest(s, k).uid, Latest(s, k).gen))
  {
    NoLostUpdate(workers, s, k);
    assert Ahead(s, k) == [];
    assert !Expected(s, k);
  }

  // Whether placeholders can be replaced depends on the spec alone.
  ghost predicate Obeys(s: Cluster, steps: seq<Step>, resolvable: Spec -> bool)
    decreases |steps|
  {
    steps != [] && Enabled(s, steps[0]) ==>
      && (steps[0].Sync? ==> Decided(s, steps[0].w, steps[0].replaced, resolvable))
      && Obeys(Apply(s, steps[0]), steps[1..], resolvable)
  }

  ghost predicate Decided(s: Cluster, w: nat, replaced: bool, resolvable: Spec -> bool)
    requires Enabled(s, Sync(w, replaced))
  {
    replaced == resolvable((s.workers[w].key, s.workers[w].seen.uid, s.workers[w].seen.gen))
  }

  ghost predicate Honest(s: Cluster, resolvable: Spec -> bool) {
    (forall spec <- s.executed :: resolvable(spec)) && forall spec <- s.refused :: !resolvable(spec)
  }

  lemma {:induction false} StaysHonest(s: Cluster, steps: seq<Step>, s': Cluster, resolvable: Spec -> bool)
    requires Leads(s, steps, s') && Obeys(s, steps, resolvable) && Honest(s, resolvable)
    ensures Honest(s', resolvable)
    decreases |steps|
  {
    if steps != [] {
      HonestStep(s, steps[0], resolvable);
      StaysHonest(Apply(s, steps[0]), steps[1..], s', resolvable);
    }
  }

  lemma HonestStep(s: Cluster, step: Step, resolvable: Spec -> bool)
    requires Enabled(s, step) && Honest(s, resolvable)
    requires step.Sync? ==> Decided(s, step.w, step.replaced, resolvable)
    ensures Honest(Apply(s, step), resolvable)
  {
  }

  // Then the service has been executed with the latest generation of exactly
  // those resources whose placeholders can be replaced.
  lemma QuietIsExecuted(workers: nat, steps: seq<Step>, s: Cluster, resolvable: Spec -> bool, k: Key)
    requires Leads(Initial(workers), steps, s) && Obeys(Initial(workers), steps, resolvable)
    requires Quiet(s) && Latest(s, k).Live?
    ensures var spec := (k, Latest(s, k).uid, Latest(s, k).gen);
            spec in s.executed <==> resolvable(spec)
  {
    QuietIsHandled(workers, s, k);
    StaysHonest(Initial(workers), steps, s, resolvable);
  }

  // No two workers hold the same key; a key has been taken exactly once more
  // than released while some worker holds it, and equally often otherwise.
  lemma OneWorkerPerKey(workers: nat, s: Cluster, k: Key)
    requires Reachable(workers, s)
    ensures forall i, j :: 0 <= i < j < |s.workers| && !s.workers[i].Idle? && !s.workers[j].Idle? ==>
        s.workers[i].key != s.workers[j].key
    ensures s.gets[k] == s.dones[k] + if Held(s.workers, k) then 1 else 0
  {
    ReachableInvariant(workers, s);
    if Held(s.workers, k) {
      var i :| 0 <= i < |s.workers| && !s.workers[i].Idle? && s.workers[i].key == k;
      assert k in s.wq.processing;
    }
    assert k in s.wq.processing <==> Held(s.workers, k);
  }

  // Outside resync ticks a key is enqueued by the handlers at most once for
  // each creation or change of its spec, however many status writes there are.
  lemma NoSelfTriggering(workers: nat, s: Cluster, k: Key)
    requires Reachable(workers, s)
    ensures s.enqueued[k] <= s.specWrites[k]
  {
    ReachableInvariant(workers, s);
    assert ChainedAt(s, k) && Covered(s, k) && Restrained(s, k);
  }

  // An update that skips any number of versions is enqueued exactly when one
  // of them was a change of the spec. A resync note alone is never enqueued.
  lemma UpdatesTriggerExactly(workers: nat, s: Cluster, k: Key, n: nat)
    requires Reachable(workers, s) && Enabled(s, Deliver(k, n)) && Cached(s, k).Live? && Ahead(s, k)[n - 1].Live?
    ensures Enqueues(NoteOf(k, Cached(s, k), Ahead(s, k)[n - 1]), false) <==>
        Changes(Cached(s, k), Ahead(s, k)[..n]) > 0
    ensures !Enqueues(Updated(k, Cached(s, k), Cached(s, k)), false)
  {
    ReachableInvariant(workers, s);
    assert ChainedAt(s, k) && Covered(s, k) && Restrained(s, k);
    Delivery(Cached(s, k), Ahead(s, k), n, s.clock);
  }

  // The status write of a worker is no change of the spec.
  lemma StatusIsNoChange(workers: nat, s: Cluster, w: nat)
    requires Reachable(workers, s) && Enabled(s, Report(w, true))
    ensures var k := s.workers[w].key;
            var s' := Apply(s, Report(w, true));
            && |Ahead(s', k)| == |Ahead(s, k)| + 1
            && Changes(Cached(s', k), Ahead(s', k)) == Changes(Cached(s, k), Ahead(s, k))
  {
    ReachableInvariant(workers, s);
    var k := s.workers[w].key;
    assert ChainedAt(s, k) && Covered(s, k) && Restrained(s, k);
    ReportSucceeds(s, w);
    AppendIsChained(s, k, s.workers[w].seen.(rv := s.clock), k);
  }

  // ---- Coming to rest ----

  // The steps of the controller itself when no lookup fails.
  predicate Calm(step: Step) {
    match step
    case Write(_, _) => false
    case Resync(_) => false
    case Handle(due) => !due
    case Look(_, fails) => !fails
    case _ => true
  }

  function NoteRank(note: Note): nat {
    if Enqueues(note, false) then 8 else 1
  }

  function NotesRank(notes: seq<Note>): nat {
    if notes == [] then 0 else NoteRank(notes[0]) + NotesRank(notes[1..])
  }

  function WorkerRank(w: Worker): nat {
    match w
    case Idle => 0
    case Holding(_) => 6
    case Erred(_) => 10
    case Looked(_, _) => 5
    case Executed(_, _) => 4
    case Releasing(_) => 1
  }

  function WorkersRank(ws: seq<Worker>): nat {
    if ws == [] then 0 else WorkerRank(ws[0]) + WorkersRank(ws[1..])
  }

  function AheadRank(s: Cluster, k: Key): nat {
    2 * |Ahead(s, k)| + 7 * Changes(Cached(s, k), Ahead(s, k))
  }

  function AheadsRank(s: Cluster, keys: seq<Key>): nat {
    if keys == [] then 0 else AheadRank(s, keys[0]) + AheadsRank(s, keys[1..])
  }

  // A bound on the number of steps to come.
  function Rank(s: Cluster, keys: seq<Key>): nat {
    AheadsRank(s, keys) + NotesRank(s.notes) + WorkersRank(s.workers) + 7 * |s.wq.dirty| + 8 * |s.wq.delayed|
  }

  ghost predicate Unrepeated(keys: seq<Key>) {
    forall i, j :: 0 <= i < j < |keys| ==> keys[i] != keys[j]
  }

  // The list names every key that is about, once.
  ghost predicate Lists(keys: seq<Key>, s: Cluster) {
    && Unrepeated(keys)
    && (forall k :: k in s.ahead || k in s.wq.dirty || k in s.wq.delayed ==> k in keys)
    && (forall i :: 0 <= i < |s.notes| ==> s.notes[i].key in keys)
    && (forall i :: 0 <= i < |s.workers| && !s.workers[i].Idle? ==> s.workers[i].key in keys)
  }

  lemma {:induction false} NotesRankAppend(notes: seq<Note>, note: Note)
    ensures NotesRank(notes + [note]) == NotesRank(notes) + NoteRank(note)
  {
    if notes == [] {
      assert notes + [note] == [note];
    } else {
      assert (notes + [note])[1..] == notes[1..] + [note];
      NotesRankAppend(notes[1..], note);
    }
  }

  lemma {:induction false} WorkersRankUpdate(ws: seq<Worker>, w: nat, worker: Worker)
    requires w < |ws|
    ensures WorkersRank(ws[w := worker]) + WorkerRank(ws[w]) == WorkersRank(ws) + WorkerRank(worker)
  {
    if w == 0 {
      assert ws[0 := worker][1..] == ws[1..];
    } else {
      assert ws[w := worker][1..] == ws[1..][w - 1 := worker];
      WorkersRankUpdate(ws[1..], w - 1, worker);
    }
  }

  ghost predicate SameElsewhere(s: Cluster, s': Cluster, key: Key) {
    forall k :: k != key ==> Ahead(s', k) == Ahead(s, k) && Cached(s', k) == Cached(s, k)
  }

  lemma {:induction false} AheadsRankUpdate(s: Cluster, s': Cluster, keys: seq<Key>, key: Key)
    requires SameElsewhere(s, s', key) && Unrepeated(keys)
    ensures key in keys ==> AheadsRank(s', keys) + AheadRank(s, key) == AheadsRank(s, keys) + AheadRank(s', key)
    ensures key !in keys ==> AheadsRank(s', keys) == AheadsRank(s, keys)
  {
    if keys != [] {
      AheadsRankUpdate(s, s', keys[1..], key);
      if key == keys[0] {
        assert key !in keys[1..];
      } else {
        assert AheadRank(s', keys[0]) == AheadRank(s, keys[0]);
      }
    }
  }

  lemma StillLists(s: Cluster, step: Step, keys: seq<Key>)
    requires Enabled(s, step) && Calm(step) && Lists(keys, s) && Sound(s.wq)
    ensures Lists(keys, Apply(s, step))
  {
    match step
    case Take(_) =>
      assert s.wq.queue[0] in s.wq.queue;
    case Deliver(k, _) =>
      assert k in s.ahead;
    case _ =>
  }

  lemma DeliverRanks(s: Cluster, k: Key, n: nat, keys: seq<Key>)
    requires Enabled(s, Deliver(k, n)) && ChainedAt(s, k) && Unrepeated(keys) && k in keys
    ensures Rank(Apply(s, Deliver(k, n)), keys) < Rank(s, keys)
  {
    var s' := Apply(s, Deliver(k, n));
    var xs := Ahead(s, k);
    var note := NoteOf(k, Cached(s, k), xs[n - 1]);
    Delivery(Cached(s, k), xs, n, s.clock);
    assert Ahead(s', k) == xs[n..] && Cached(s', k) == xs[n - 1];
    assert AheadRank(s', k) + NoteRank(note) < AheadRank(s, k);
    AheadsRankUpdate(s, s', keys, k);
    NotesRankAppend(s.notes, note);
  }

  lemma HandleRanks(s: Cluster, keys: seq<Key>)
    requires Enabled(s, Handle(false)) && Unrepeated(keys)
    ensures Rank(Apply(s, Handle(false)), keys) < Rank(s, keys)
  {
    SameAhead(s, Apply(s, Handle(false)), keys);
    AddCosts(s.wq, s.notes[0].key);
  }

  lemma {:induction false} SameAhead(s: Cluster, s': Cluster, keys: seq<Key>)
    requires s'.ahead == s.ahead && s'.cached == s.cached
    ensures AheadsRank(s', keys) == AheadsRank(s, keys)
  {
    if keys != [] {
      SameAhead(s, s', keys[1..]);
    }
  }

  lemma AddCosts(q: Queue<Key>, k: Key)
    ensures |Add(q, k).dirty| <= |q.dirty| + 1 && Add(q, k).delayed == q.delayed
  {
  }

  lemma RipeRanks(s: Cluster, k: Key, keys: seq<Key>)
    requires Enabled(s, Ripe(k))
    ensures Rank(Apply(s, Ripe(k)), keys) < Rank(s, keys)
  {
    SameAhead(s, Apply(s, Ripe(k)), keys);
    AddCosts(s.wq.(delayed := s.wq.delayed - {k}), k);
  }

  lemma TakeRanks(s: Cluster, w: nat, keys: seq<Key>)
    requires Enabled(s, Take(w)) && Sound(s.wq)
    ensures Rank(Apply(s, Take(w)), keys) < Rank(s, keys)
  {
    GetIsSound(s.wq);
    SameAhead(s, Apply(s, Take(w)), keys);
    WorkersRankUpdate(s.workers, w, Holding(s.wq.queue[0]));
  }

  lemma WorkerRanks(s: Cluster, step: Step, w: nat, keys: seq<Key>)
    requires Enabled(s, step)
    requires step == Look(w, false) || (step.Sync? && step.w == w) || step == Report(w, false) || step == Release(w)
    ensures Rank(Apply(s, step), keys) < Rank(s, keys)
  {
    var s' := Apply(s, step);
    SameAhead(s, s', keys);
    WorkersRankUpdate(s.workers, w, s'.workers[w]);
  }

  lemma PutBackRanks(s: Cluster, w: nat, keys: seq<Key>)
    requires Enabled(s, PutBack(w))
    ensures Rank(Apply(s, PutBack(w)), keys) < Rank(s, keys)
  {
    SameAhead(s, Apply(s, PutBack(w)), keys);
    WorkersRankUpdate(s.workers, w, Releasing(s.workers[w].key));
  }

  lemma ReportRanks(s: Cluster, w: nat, keys: seq<Key>)
    requires Enabled(s, Report(w, true)) && Unrepeated(keys) && s.workers[w].key in keys
    requires ChainedAt(s, s.workers[w].key)
    ensures Rank(Apply(s, Report(w, true)), keys) < Rank(s, keys)
  {
    var s' := Apply(s, Report(w, true));
    var k := s.workers[w].key;
    ReportSucceeds(s, w);
    AppendIsChained(s, k, s.workers[w].seen.(rv := s.clock), k);
    assert AheadRank(s', k) == AheadRank(s, k) + 2;
    AheadsRankUpdate(s, s', keys, k);
    WorkersRankUpdate(s.workers, w, Releasing(k));
  }

  lemma CalmStepRanks(s: Cluster, step: Step, keys: seq<Key>)
    requires Enabled(s, step) && Calm(step) && Invariant(s) && Lists(keys, s)
    ensures Rank(Apply(s, step), keys) < Rank(s, keys)
  {
    match step
    case Deliver(k, n) =>
      assert ChainedAt(s, k) && Covered(s, k) && Restrained(s, k);
      assert k in s.ahead;
      DeliverRanks(s, k, n, keys);
    case Handle(_) => HandleRanks(s, keys);
    case Ripe(k) => RipeRanks(s, k, keys);
    case Take(w) => TakeRanks(s, w, keys);
    case Look(w, _) => WorkerRanks(s, step, w, keys);
    case Sync(w, _) => WorkerRanks(s, step, w, keys);
    case PutBack(w) => PutBackRanks(s, w, keys);
    case Report(w, written) =>
      if written {
        var k := s.workers[w].key;
        assert ChainedAt(s, k) && Covered(s, k) && Restrained(s, k);
        ReportRanks(s, w, keys);
      } else {
        WorkerRanks(s, step, w, keys);
      }
    case Release(w) => WorkerRanks(s, step, w, keys);
  }

  // Every run of calm steps is at most as long as the rank it starts from: the
  // controller does not keep itself busy.
  lemma {:induction false} CalmRunsAreBounded(s: Cluster, steps: seq<Step>, s': Cluster, keys: seq<Key>)
    requires Leads(s, steps, s') && (forall step <- steps :: Calm(step)) && Invariant(s) && Lists(keys, s)
    ensures |steps| + Rank(s', keys) <= Rank(s, keys)
    decreases |steps|
  {
    if steps != [] {
      assert steps[0] in steps && forall step <- steps[1..] :: step in steps;
      CalmStepRanks(s, steps[0], keys);
      StillLists(s, steps[0], keys);
      InvariantStep(s, steps[0]);
      CalmRunsAreBounded(Apply(s, steps[0]), steps[1..], s', keys);
    }
  }

  // When no calm step is left and there is a worker, nothing is outstanding.
  lemma StuckIsQuiet(s: Cluster)
    requires Invariant(s) && s.workers != []
    requires forall step :: Calm(step) ==> !Enabled(s, step)
    ensures Quiet(s)
  {
    forall k ensures Ahead(s, k) == [] {
      assert Calm(Deliver(k, 1)) && !Enabled(s, Deliver(k, 1));
    }
    assert Calm(Handle(false)) && !Enabled(s, Handle(false));
    forall i | 0 <= i < |s.workers| ensures s.workers[i].Idle? {
      assert Calm(Look(i, false)) && Calm(Sync(i, true)) && Calm(PutBack(i));
      assert Calm(Report(i, false)) && Calm(Release(i));
      assert !Enabled(s, Look(i, false)) && !Enabled(s, Sync(i, true)) && !Enabled(s, PutBack(i));
      assert !Enabled(s, Report(i, false)) && !Enabled(s, Release(i));
    }
    assert Calm(Take(0)) && !Enabled(s, Take(0));
    forall k ensures k !in s.wq.delayed && k !in s.wq.dirty {
      assert Calm(Ripe(k)) && !Enabled(s, Ripe(k));
      assert k in s.wq.queue <==> k in s.wq.dirty && k !in s.wq.processing;
    }
  }

  lemma QuietIsSettled(s: Cluster, k: Key)
    requires Invariant(s) && Quiet(s) && Latest(s, k).Live?
    ensures Handled(s, (k, Latest(s, k).uid, Latest(s, k).gen))
  {
    assert ChainedAt(s, k) && Covered(s, k) && Restrained(s, k);
    assert Ahead(s, k) == [] && !Expected(s, k);
  }

  // Whatever has happened before: once writes, ticks and lookup failures stop,
  // the controller comes to rest within its rank, with every resource handled at
  // its latest generation.
  lemma Settles(workers: nat, s: Cluster, steps: seq<Step>, s': Cluster, keys: seq<Key>, k: Key)
    requires Reachable(workers, s) && s.workers != [] && Lists(keys, s)
    requires Leads(s, steps, s') && (forall step <- steps :: Calm(step))
    requires Latest(s', k).Live?
    ensures |steps| <= Rank(s, keys)
    ensures (forall step :: Calm(step) ==> !Enabled(s', step)) ==>
        Handled(s', (k, Latest(s', k).uid, Latest(s', k).gen))
  {
    ReachableInvariant(workers, s);
    CalmRunsAreBounded(s, steps, s', keys);
    InvariantRun(s, steps, s');
    SameWorkers(s, steps, s');
    if forall step :: Calm(step) ==> !Enabled(s', step) {
      StuckIsQuiet(s');
      QuietIsSettled(s', k);
    }
  }

  // A run from the beginning, which goes on with calm steps until none is left.
  ghost predicate ComesToRest(workers: nat, before: seq<Step>, s: Cluster, steps: seq<Step>, s': Cluster) {
    && workers > 0 && Leads(Initial(workers), before, s)
    && Leads(s, steps, s') && (forall step <- steps :: Calm(step))
    && forall step :: Calm(step) ==> !Enabled(s', step)
  }

  // And if it depends on the spec alone whether placeholders can be replaced,
  // the service has then been executed with the latest generation of exactly the
  // resources whose placeholders can be.
  lemma SettlesExecuted(workers: nat, before: seq<Step>, s: Cluster, steps: seq<Step>, s': Cluster,
      resolvable: Spec -> bool, k: Key)
    requires ComesToRest(workers, before, s, steps, s') && Latest(s', k).Live?
    requires Obeys(Initial(workers), before, resolvable) && Obeys(s, steps, resolvable)
    ensures var spec := (k, Latest(s', k).uid, Latest(s', k).gen);
            spec in s'.executed <==> resolvable(spec)
  {
    ReachableInvariant(workers, s);
    InvariantRun(s, steps, s');
    SameWorkers(Initial(workers), before, s);
    SameWorkers(s, steps, s');
    StuckIsQuiet(s');
    QuietIsSettled(s', k);
    StaysHonest(Initial(workers), before, s, resolvable);
    StaysHonest(s, steps, s', resolvable);
  }

  lemma {:induction false} SameWorkers(s: Cluster, steps: seq<Step>, s': Cluster)
    requires Leads(s, steps, s')
    ensures |s'.workers| == |s.workers|
    decreases |steps|
  {
    if steps != [] {
      SameWorkers(Apply(s, steps[0]), steps[1..], s');
    }
  }
}

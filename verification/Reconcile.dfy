// The controller as a state machine: writes to the API, deliveries to the
// informer's cache, handler calls, the work queue and any number of workers,
// interleaved in every possible way (controller/internal/k8s/controller.go).
module Reconcile {
  import opened WorkQueue

  // What the API server stores under a key. Every write has its own resource
  // version; only writes of the spec change the generation.
  datatype Version = Gone | Live(uid: nat, gen: nat, rv: nat)

  // A handler call that is due: the cache has changed, or a resync has begun.
  datatype Note =
    | Added(key: Key, now: Version)
    | Updated(key: Key, before: Version, now: Version)
    | Deleted(key: Key)

  // A worker between two of its steps: without a key, with a key that it has
  // not looked up, after a failed lookup, after a lookup, after the service was
  // executed, and just before Done.
  datatype Worker =
    | Idle | Holding(key: Key) | Erred(key: Key) | Looked(key: Key, seen: Version) | Executed(key: Key, seen: Version)
    | Releasing(key: Key)

  // One generation of one object.
  type Spec = (Key, nat, nat)

  datatype Cluster = Cluster(
    cached: map<Key, Version>, ahead: map<Key, seq<Version>>, notes: seq<Note>,
    wq: Queue<Key>, workers: seq<Worker>, clock: nat,
    executed: set<Spec>, refused: set<Spec>,
    gets: multiset<Key>, dones: multiset<Key>,
    specWrites: multiset<Key>, enqueued: multiset<Key>)

  datatype WriteKind = Create | ChangeSpec | ChangeOther | Remove

  datatype Step =
    | Write(key: Key, kind: WriteKind)
    | Deliver(key: Key, n: nat)
    | Resync(key: Key)
    | Handle(due: bool)
    | Ripe(key: Key)
    | Take(w: nat)
    | Look(w: nat, fails: bool)
    | Sync(w: nat, replaced: bool)
    | PutBack(w: nat)
    | Report(w: nat, written: bool)
    | Release(w: nat)

  function Initial(workers: nat): Cluster {
    Cluster(map[], map[], [], Empty(), seq(workers, _ => Idle), 1, {}, {}, multiset{}, multiset{}, multiset{},
        multiset{})
  }

  function Cached(s: Cluster, k: Key): Version {
    if k in s.cached then s.cached[k] else Gone
  }

  function Ahead(s: Cluster, k: Key): seq<Version> {
    if k in s.ahead then s.ahead[k] else []
  }

  // What the API server has now.
  function Latest(s: Cluster, k: Key): Version {
    var xs := Ahead(s, k);
    if xs == [] then Cached(s, k) else xs[|xs| - 1]
  }

  // versionsDiffer.
  predicate VersionsDiffer(now: Version, before: Version) {
    match (now, before)
    case (Live(_, g1, r1), Live(_, g2, r2)) => r2 != r1 && g2 != g1
    case (_, _) => false
  }

  // The handlers: createCustomResource and updateCustomResource.
  predicate Enqueues(note: Note, due: bool) {
    match note
    case Added(_, _) => true
    case Updated(_, before, now) => due || VersionsDiffer(now, before)
    case Deleted(_) => false
  }

  function Written(s: Cluster, k: Key, kind: WriteKind): Version
    requires Writable(s, k, kind)
  {
    match kind
    case Create => Live(s.clock, 1, s.clock)
    case ChangeSpec => Latest(s, k).(gen := Latest(s, k).gen + 1, rv := s.clock)
    case ChangeOther => Latest(s, k).(rv := s.clock)
    case Remove => Gone
  }

  predicate Writable(s: Cluster, k: Key, kind: WriteKind) {
    if kind.Create? then Latest(s, k).Gone? else Latest(s, k).Live?
  }

  function Append(s: Cluster, k: Key, v: Version): Cluster {
    s.(ahead := s.ahead[k := Ahead(s, k) + [v]], clock := s.clock + 1)
  }

  // A delivery may skip versions, but no deletion.
  predicate Deliverable(xs: seq<Version>, n: nat) {
    1 <= n <= |xs| && forall i :: 0 <= i < n - 1 ==> xs[i].Live?
  }

  function NoteOf(k: Key, before: Version, now: Version): Note {
    if now.Gone? then Deleted(k) else if before.Gone? then Added(k, now) else Updated(k, before, now)
  }

  predicate Enabled(s: Cluster, step: Step) {
    match step
    case Write(k, kind) => Writable(s, k, kind)
    case Deliver(k, n) => Deliverable(Ahead(s, k), n)
    case Resync(k) => Cached(s, k).Live?
    case Handle(_) => s.notes != []
    case Ripe(k) => k in s.wq.delayed
    case Take(w) => w < |s.workers| && s.workers[w].Idle? && s.wq.queue != []
    case Look(w, _) => w < |s.workers| && s.workers[w].Holding?
    case Sync(w, _) => w < |s.workers| && s.workers[w].Looked? && s.workers[w].seen.Live?
    case PutBack(w) => w < |s.workers| && s.workers[w].Erred?
    // A status write is refused when the object is not the one that was read.
    case Report(w, written) =>
      && w < |s.workers| && s.workers[w].Executed?
      && (written ==> s.workers[w].seen.Live? && Latest(s, s.workers[w].key) == s.workers[w].seen)
    case Release(w) => w < |s.workers| && s.workers[w].Releasing?
  }

  function Once(k: Key, b: bool): multiset<Key> {
    if b then multiset{k} else multiset{}
  }

  function Apply(s: Cluster, step: Step): Cluster
    requires Enabled(s, step)
  {
    match step
    case Write(k, kind) =>
      Append(s, k, Written(s, k, kind)).(specWrites := s.specWrites + Once(k, kind.Create? || kind.ChangeSpec?))
    case Deliver(k, n) =>
      var xs := Ahead(s, k);
      s.(cached := s.cached[k := xs[n - 1]], ahead := s.ahead[k := xs[n..]],
          notes := s.notes + [NoteOf(k, Cached(s, k), xs[n - 1])])
    case Resync(k) => s.(notes := s.notes + [Updated(k, Cached(s, k), Cached(s, k))])
    case Handle(due) =>
      var note := s.notes[0];
      var s' := s.(notes := s.notes[1..]);
      if Enqueues(note, due) then s'.(wq := Add(s.wq, note.key), enqueued := s.enqueued + Once(note.key, !due)) else s'
    case Ripe(k) => s.(wq := Ripen(s.wq, k))
    case Take(w) =>
      var k := s.wq.queue[0];
      s.(wq := Get(s.wq), workers := s.workers[w := Holding(k)], gets := s.gets + multiset{k})
    case Look(w, fails) =>
      var k := s.workers[w].key;
      if fails then s.(workers := s.workers[w := Erred(k)])
      else
        s.(workers := s.workers[w := if Cached(s, k).Gone? then Releasing(k) else Looked(k, Cached(s, k))])
    // Unless its placeholders can be replaced, the spec is dropped.
    case Sync(w, replaced) =>
      var k, seen := s.workers[w].key, s.workers[w].seen;
      if replaced then
        s.(workers := s.workers[w := Executed(k, seen)], executed := s.executed + {(k, seen.uid, seen.gen)})
      else
        s.(workers := s.workers[w := Releasing(k)], refused := s.refused + {(k, seen.uid, seen.gen)})
    case PutBack(w) =>
      var k := s.workers[w].key;
      s.(wq := AddRateLimited(s.wq, k), workers := s.workers[w := Releasing(k)])
    case Report(w, written) =>
      var k := s.workers[w].key;
      var s' := s.(workers := s.workers[w := Releasing(k)]);
      if written then Append(s', k, s.workers[w].seen.(rv := s.clock)) else s'
    case Release(w) =>
      var k := s.workers[w].key;
      s.(wq := Done(s.wq, k), workers := s.workers[w := Idle], dones := s.dones + multiset{k})
  }

  // `s'` is where the steps lead from `s`.
  ghost predicate Leads(s: Cluster, steps: seq<Step>, s': Cluster)
    decreases |steps|
  {
    if steps == [] then s' == s
    else Enabled(s, steps[0]) && Leads(Apply(s, steps[0]), steps[1..], s')
  }

  // ---- Workers and the queue ----

  // The workers hold different keys, and these are the ones being processed.
  ghost predicate Exclusive(wq: Queue<Key>, workers: seq<Worker>) {
    && Sound(wq)
    && (forall i, j :: 0 <= i < j < |workers| && !workers[i].Idle? && !workers[j].Idle? ==>
        workers[i].key != workers[j].key)
    && (forall i :: 0 <= i < |workers| && !workers[i].Idle? ==> workers[i].key in wq.processing)
    && (forall k <- wq.processing :: Held(workers, k))
  }

  predicate Held(workers: seq<Worker>, k: Key) {
    exists i :: 0 <= i < |workers| && !workers[i].Idle? && workers[i].key == k
  }

  // A key has been taken once more than it was released exactly while it is
  // being processed.
  ghost predicate Balanced(s: Cluster) {
    s.gets == s.dones + multiset(s.wq.processing)
  }

  lemma TakeIsExclusive(wq: Queue<Key>, workers: seq<Worker>, w: nat)
    requires Exclusive(wq, workers) && wq.queue != [] && w < |workers| && workers[w].Idle?
    ensures Exclusive(Get(wq), workers[w := Holding(wq.queue[0])])
  {
    GetIsSound(wq);
    var workers' := workers[w := Holding(wq.queue[0])];
    forall k | k in Get(wq).processing ensures Held(workers', k) {
      if k in wq.processing {
        var i :| 0 <= i < |workers| && !workers[i].Idle? && workers[i].key == k;
        assert !workers'[i].Idle? && workers'[i].key == k;
      } else {
        assert workers'[w].key == k;
      }
    }
  }

  lemma ReleaseIsExclusive(wq: Queue<Key>, workers: seq<Worker>, w: nat)
    requires Exclusive(wq, workers) && w < |workers| && !workers[w].Idle?
    ensures Exclusive(Done(wq, workers[w].key), workers[w := Idle])
  {
    DoneIsSound(wq, workers[w].key);
    var workers' := workers[w := Idle];
    forall k | k in wq.processing && k != workers[w].key ensures Held(workers', k) {
      var i :| 0 <= i < |workers| && !workers[i].Idle? && workers[i].key == k;
      assert !workers'[i].Idle? && workers'[i].key == k;
    }
  }

  // A worker that keeps its key keeps everything in place.
  lemma SameKeyIsExclusive(wq: Queue<Key>, workers: seq<Worker>, w: nat, worker: Worker)
    requires Exclusive(wq, workers) && w < |workers| && !workers[w].Idle?
    requires !worker.Idle? && worker.key == workers[w].key
    ensures Exclusive(wq, workers[w := worker])
  {
    var workers' := workers[w := worker];
    forall k | k in wq.processing ensures Held(workers', k) {
      var i :| 0 <= i < |workers| && !workers[i].Idle? && workers[i].key == k;
      assert !workers'[i].Idle? && workers'[i].key == k;
    }
  }

  lemma ExclusiveStep(s: Cluster, step: Step)
    requires Enabled(s, step) && Exclusive(s.wq, s.workers)
    ensures Exclusive(Apply(s, step).wq, Apply(s, step).workers)
  {
    match step
    case Write(_, _) =>
    case Deliver(_, _) =>
    case Resync(_) =>
    case Handle(_) => AddIsSound(s.wq, s.notes[0].key);
    case Ripe(k) => AddIsSound(s.wq, k);
    case Take(w) => TakeIsExclusive(s.wq, s.workers, w);
    case Look(w, _) => SameKeyIsExclusive(s.wq, s.workers, w, Apply(s, step).workers[w]);
    case Sync(w, _) => SameKeyIsExclusive(s.wq, s.workers, w, Apply(s, step).workers[w]);
    case PutBack(w) =>
      AddIsSound(s.wq, s.workers[w].key);
      SameKeyIsExclusive(s.wq, s.workers, w, Releasing(s.workers[w].key));
    case Report(w, _) => SameKeyIsExclusive(s.wq, s.workers, w, Releasing(s.workers[w].key));
    case Release(w) => ReleaseIsExclusive(s.wq, s.workers, w);
  }

  lemma BalancedStep(s: Cluster, step: Step)
    requires Enabled(s, step) && Exclusive(s.wq, s.workers) && Balanced(s)
    ensures Balanced(Apply(s, step))
  {
    if step.Take? {
      GetIsSound(s.wq);
    }
  }

  // ---- Versions ----

  // What can follow a version: resource versions grow, and so do generations.
  ghost predicate Succeeds(prev: Version, next: Version, clock: nat) {
    match (prev, next)
    case (Live(u1, g1, r1), Live(u2, g2, r2)) => u1 == u2 && g1 <= g2 && r1 < r2 < clock
    case (Gone, Live(_, _, r)) => r < clock
    case (Live(_, _, _), Gone) => true
    case (Gone, Gone) => false
  }

  ghost predicate Chained(prev: Version, xs: seq<Version>, clock: nat)
    decreases |xs|
  {
    xs != [] ==> Succeeds(prev, xs[0], clock) && Chained(xs[0], xs[1..], clock)
  }

  // How many of the versions are creations or changes of the spec.
  function Changes(prev: Version, xs: seq<Version>): nat
    decreases |xs|
  {
    if xs == [] then 0
    else (if IsChange(prev, xs[0]) then 1 else 0) + Changes(xs[0], xs[1..])
  }

  predicate IsChange(prev: Version, next: Version) {
    next.Live? && (prev.Gone? || prev.gen != next.gen)
  }

  function LastOf(prev: Version, xs: seq<Version>): Version {
    if xs == [] then prev else xs[|xs| - 1]
  }

  ghost predicate ChainedAt(s: Cluster, k: Key) {
    && Chained(Cached(s, k), Ahead(s, k), s.clock)
    && (Cached(s, k).Live? ==> Cached(s, k).rv < s.clock)
  }

  lemma {:induction false} ChainedAppend(prev: Version, xs: seq<Version>, v: Version, clock: nat)
    requires Chained(prev, xs, clock) && Succeeds(LastOf(prev, xs), v, clock + 1)
    ensures Chained(prev, xs + [v], clock + 1)
    ensures Changes(prev, xs + [v]) == Changes(prev, xs) + if IsChange(LastOf(prev, xs), v) then 1 else 0
    decreases |xs|
  {
    if xs != [] {
      ChainedAppend(xs[0], xs[1..], v, clock);
      assert (xs + [v])[1..] == xs[1..] + [v];
    } else {
      assert xs + [v] == [v];
    }
  }

  lemma {:induction false} LastIsOld(prev: Version, xs: seq<Version>, clock: nat)
    requires Chained(prev, xs, clock) && (prev.Live? ==> prev.rv < clock)
    ensures LastOf(prev, xs).Live? ==> LastOf(prev, xs).rv < clock
    decreases |xs|
  {
    if xs != [] {
      LastIsOld(xs[0], xs[1..], clock);
    }
  }

  // What a delivery does to the chain, and what it tells the handler: the
  // generation has changed exactly when it contains a change of the spec,
  // however many versions it skips.
  lemma {:induction false} Delivery(prev: Version, xs: seq<Version>, n: nat, clock: nat)
    requires Chained(prev, xs, clock) && Deliverable(xs, n)
    ensures Chained(xs[n - 1], xs[n..], clock)
    ensures Changes(prev, xs) == Changes(prev, xs[..n]) + Changes(xs[n - 1], xs[n..])
    ensures xs[n - 1].Live? ==> xs[n - 1].rv < clock
    ensures prev.Live? && xs[n - 1].Live? ==>
              && prev.uid == xs[n - 1].uid && prev.rv < xs[n - 1].rv && prev.gen <= xs[n - 1].gen
              && (prev.gen == xs[n - 1].gen <==> Changes(prev, xs[..n]) == 0)
    ensures prev.Gone? && xs[n - 1].Live? ==> Changes(prev, xs[..n]) >= 1
    decreases |xs|
  {
    assert xs[..n][1..] == xs[1..][..n - 1] && xs[1..][n - 1..] == xs[n..];
    if n == 1 {
      assert xs[..1][1..] == [];
    } else {
      Delivery(xs[0], xs[1..], n - 1, clock);
    }
  }

  // ---- No update is lost ----

  // A handler call, a queue entry, a delayed key or a worker will still look
  // at the key.
  ghost predicate Expected(s: Cluster, k: Key) {
    || k in s.wq.dirty || k in s.wq.delayed
    || (exists w :: 0 <= w < |s.workers| && WillLook(s.workers[w], k))
    || (exists i :: 0 <= i < |s.notes| && WillEnqueue(s.notes[i], k))
  }

  predicate WillLook(w: Worker, k: Key) {
    (w.Holding? || w.Erred?) && w.key == k
  }

  predicate WillEnqueue(note: Note, k: Key) {
    note.key == k && Enqueues(note, false)
  }

  // The service has been executed with this generation, or it was dropped
  // because its placeholders could not be replaced.
  predicate Handled(s: Cluster, spec: Spec) {
    spec in s.executed || spec in s.refused
  }

  predicate HasSeen(w: Worker, spec: Spec) {
    w.Looked? && w.seen.Live? && (w.key, w.seen.uid, w.seen.gen) == spec
  }

  // The cached resource has been handled at its cached generation, a worker is
  // about to do so, or its key will be looked at.
  ghost predicate Covered(s: Cluster, k: Key) {
    Cached(s, k).Live? ==>
      var spec := (k, Cached(s, k).uid, Cached(s, k).gen);
      Handled(s, spec) || InHand(s, spec) || Expected(s, k)
  }

  // A worker has looked it up and not yet decided.
  ghost predicate InHand(s: Cluster, spec: Spec) {
    exists w :: 0 <= w < |s.workers| && HasSeen(s.workers[w], spec)
  }

  // What a worker has looked up is there.
  ghost predicate Seeing(s: Cluster) {
    forall w :: 0 <= w < |s.workers| && s.workers[w].Looked? ==> s.workers[w].seen.Live?
  }

  lemma SeeingStep(s: Cluster, step: Step)
    requires Enabled(s, step) && Seeing(s)
    ensures Seeing(Apply(s, step))
  {
  }

  lemma DeliverCovers(s: Cluster, key: Key, n: nat, k: Key)
    requires Enabled(s, Deliver(key, n)) && ChainedAt(s, key) && Covered(s, k)
    ensures Covered(Apply(s, Deliver(key, n)), k)
  {
    var s' := Apply(s, Deliver(key, n));
    var xs, note := Ahead(s, key), s'.notes[|s.notes|];
    if Expected(s, k) {
      if i :| 0 <= i < |s.notes| && WillEnqueue(s.notes[i], k) {
        assert WillEnqueue(s'.notes[i], k);
      }
    } else if k == key && xs[n - 1].Live? {
      Delivery(Cached(s, key), xs, n, s.clock);
      assert (note.Updated? && Cached(s, key).gen == xs[n - 1].gen) || WillEnqueue(note, k);
    }
  }

  lemma HandleCovers(s: Cluster, due: bool, k: Key)
    requires Enabled(s, Handle(due)) && Covered(s, k)
    ensures Covered(Apply(s, Handle(due)), k)
  {
    var s' := Apply(s, Handle(due));
    if i :| 0 <= i < |s.notes| && WillEnqueue(s.notes[i], k) {
      if i > 0 {
        assert WillEnqueue(s'.notes[i - 1], k);
      }
    }
    if w :| 0 <= w < |s.workers| && WillLook(s.workers[w], k) {
      assert WillLook(s'.workers[w], k);
    }
  }

  // A step that touches neither cache nor notes, and one worker at most.
  lemma WorkerStillExpects(s: Cluster, step: Step, w: nat, k: Key)
    requires Enabled(s, step) && Exclusive(s.wq, s.workers)
    requires (step.Take? || step.Look? || step.Sync? || step.PutBack? || step.Report? || step.Release?) && step.w == w
    requires Expected(s, k) && !(step == Look(w, false) && s.workers[w].key == k)
    ensures Expected(Apply(s, step), k)
  {
    var s' := Apply(s, step);
    if i :| 0 <= i < |s.notes| && WillEnqueue(s.notes[i], k) {
      assert WillEnqueue(s'.notes[i], k);
    }
    if i :| 0 <= i < |s.workers| && WillLook(s.workers[i], k) {
      assert i != w ==> WillLook(s'.workers[i], k);
    }
    if step.Take? {
      assert WillLook(s'.workers[w], s.wq.queue[0]);
    } else if step.Look? && step.fails {
      assert WillLook(s'.workers[w], s.workers[w].key);
    }
  }

  lemma WorkerCovers(s: Cluster, step: Step, w: nat, k: Key)
    requires Enabled(s, step) && Exclusive(s.wq, s.workers) && Covered(s, k) && Cached(s, k).Live?
    requires (step.Take? || step.Look? || step.Sync? || step.PutBack? || step.Report? || step.Release?) && step.w == w
    ensures Covered(Apply(s, step), k)
  {
    var s' := Apply(s, step);
    var spec := (k, Cached(s, k).uid, Cached(s, k).gen);
    assert Cached(s', k) == Cached(s, k);
    if step == Look(w, false) && s.workers[w].key == k {
      assert HasSeen(s'.workers[w], spec);
    } else if Expected(s, k) {
      WorkerStillExpects(s, step, w, k);
    } else if InHand(s, spec) {
      var i :| 0 <= i < |s.workers| && HasSeen(s.workers[i], spec);
      assert i != w ==> HasSeen(s'.workers[i], spec);
    }
  }

  lemma AppendIsChained(s: Cluster, key: Key, v: Version, k: Key)
    requires ChainedAt(s, k) && (k == key ==> Succeeds(Latest(s, key), v, s.clock + 1))
    ensures ChainedAt(Append(s, key, v), k)
    ensures k == key ==>
              Changes(Cached(s, k), Ahead(Append(s, key, v), k)) ==
              Changes(Cached(s, k), Ahead(s, k)) + if IsChange(Latest(s, k), v) then 1 else 0
  {
    if k == key {
      ChainedAppend(Cached(s, k), Ahead(s, k), v, s.clock);
    } else {
      StillChained(Cached(s, k), Ahead(s, k), s.clock);
    }
  }

  lemma {:induction false} StillChained(prev: Version, xs: seq<Version>, clock: nat)
    requires Chained(prev, xs, clock)
    ensures Chained(prev, xs, clock + 1)
    decreases |xs|
  {
    if xs != [] {
      StillChained(xs[0], xs[1..], clock);
    }
  }

  lemma WrittenSucceeds(s: Cluster, k: Key, kind: WriteKind)
    requires Writable(s, k, kind) && ChainedAt(s, k)
    ensures Succeeds(Latest(s, k), Written(s, k, kind), s.clock + 1)
    ensures IsChange(Latest(s, k), Written(s, k, kind)) <==> kind.Create? || kind.ChangeSpec?
  {
    LastIsOld(Cached(s, k), Ahead(s, k), s.clock);
  }

  lemma ReportSucceeds(s: Cluster, w: nat)
    requires Enabled(s, Report(w, true)) && ChainedAt(s, s.workers[w].key)
    ensures var v := s.workers[w].seen.(rv := s.clock);
            Succeeds(Latest(s, s.workers[w].key), v, s.clock + 1) && !IsChange(Latest(s, s.workers[w].key), v)
  {
    LastIsOld(Cached(s, s.workers[w].key), Ahead(s, s.workers[w].key), s.clock);
  }

  lemma WriteIsChained(s: Cluster, key: Key, kind: WriteKind, k: Key)
    requires Writable(s, key, kind) && ChainedAt(s, k)
    ensures ChainedAt(Apply(s, Write(key, kind)), k)
  {
    if k == key {
      WrittenSucceeds(s, k, kind);
    }
    AppendIsChained(s, key, Written(s, key, kind), k);
  }

  lemma ReportIsChained(s: Cluster, w: nat, k: Key)
    requires Enabled(s, Report(w, true)) && ChainedAt(s, k)
    ensures ChainedAt(Apply(s, Report(w, true)), k)
  {
    var key := s.workers[w].key;
    if k == key {
      ReportSucceeds(s, w);
    }
    AppendIsChained(s, key, s.workers[w].seen.(rv := s.clock), k);
  }

  lemma ChainedStep(s: Cluster, step: Step, k: Key)
    requires Enabled(s, step) && ChainedAt(s, k)
    ensures ChainedAt(Apply(s, step), k)
  {
    match step
    case Write(key, kind) => WriteIsChained(s, key, kind, k);
    case Deliver(key, n) =>
      if k == key {
        Delivery(Cached(s, k), Ahead(s, k), n, s.clock);
      }
    case Report(w, written) =>
      if written {
        ReportIsChained(s, w, k);
      }
    case _ =>
  }

  lemma CoveredStep(s: Cluster, step: Step, k: Key)
    requires Enabled(s, step) && Exclusive(s.wq, s.workers) && Covered(s, k)
    requires step.Deliver? ==> ChainedAt(s, step.key)
    ensures Covered(Apply(s, step), k)
  {
    match step
    case Write(_, _) => ExpectedStays(s, Apply(s, step), k);
    case Deliver(key, n) => DeliverCovers(s, key, n, k);
    case Resync(_) => ExpectedStays(s, Apply(s, step), k);
    case Handle(due) => HandleCovers(s, due, k);
    case Ripe(_) => ExpectedStays(s, Apply(s, step), k);
    case _ =>
      if Cached(s, k).Live? {
        WorkerCovers(s, step, step.w, k);
      }
  }

  lemma ExpectedStays(s: Cluster, s': Cluster, k: Key)
    requires s'.workers == s.workers && s.notes <= s'.notes
    requires s.wq.dirty + s.wq.delayed <= s'.wq.dirty + s'.wq.delayed
    ensures Expected(s, k) ==> Expected(s', k)
  {
    if i :| 0 <= i < |s.notes| && WillEnqueue(s.notes[i], k) {
      assert s'.notes[i] == s.notes[i];
    }
    if k in s.wq.dirty || k in s.wq.delayed {
      assert k in s.wq.dirty + s.wq.delayed;
    }
  }

  // ---- Nothing triggers itself ----

  // How many handler calls that are due will enqueue the key.
  function Pending(notes: seq<Note>, k: Key): nat {
    if notes == [] then 0 else (if WillEnqueue(notes[0], k) then 1 else 0) + Pending(notes[1..], k)
  }

  lemma {:induction false} PendingAppend(notes: seq<Note>, note: Note, k: Key)
    ensures Pending(notes + [note], k) == Pending(notes, k) + if WillEnqueue(note, k) then 1 else 0
  {
    if notes == [] {
      assert notes + [note] == [note];
    } else {
      assert (notes + [note])[1..] == notes[1..] + [note];
      PendingAppend(notes[1..], note, k);
    }
  }

  // Each enqueueing outside resync ticks, made or still to come, has its own
  // creation or change of the spec.
  ghost predicate Restrained(s: Cluster, k: Key) {
    s.enqueued[k] + Pending(s.notes, k) + Changes(Cached(s, k), Ahead(s, k)) <= s.specWrites[k]
  }

  lemma WriteIsRestrained(s: Cluster, key: Key, kind: WriteKind, k: Key)
    requires Writable(s, key, kind) && ChainedAt(s, k) && Restrained(s, k)
    ensures Restrained(Apply(s, Write(key, kind)), k)
  {
    if k == key {
      WrittenSucceeds(s, k, kind);
      AppendIsChained(s, key, Written(s, key, kind), k);
    }
  }

  lemma DeliverIsRestrained(s: Cluster, key: Key, n: nat, k: Key)
    requires Enabled(s, Deliver(key, n)) && ChainedAt(s, k) && Restrained(s, k)
    ensures Restrained(Apply(s, Deliver(key, n)), k)
  {
    var xs := Ahead(s, key);
    PendingAppend(s.notes, NoteOf(key, Cached(s, key), xs[n - 1]), k);
    if k == key {
      Delivery(Cached(s, k), xs, n, s.clock);
    }
  }

  lemma ReportIsRestrained(s: Cluster, w: nat, k: Key)
    requires Enabled(s, Report(w, true)) && ChainedAt(s, k) && Restrained(s, k)
    ensures Restrained(Apply(s, Report(w, true)), k)
  {
    if k == s.workers[w].key {
      ReportSucceeds(s, w);
      AppendIsChained(s, k, s.workers[w].seen.(rv := s.clock), k);
    }
  }

  lemma NotesAreRestrained(s: Cluster, step: Step, k: Key)
    requires Enabled(s, step) && (step.Resync? || step.Handle?) && Restrained(s, k)
    ensures Restrained(Apply(s, step), k)
  {
    if step.Resync? {
      PendingAppend(s.notes, Updated(step.key, Cached(s, step.key), Cached(s, step.key)), k);
    }
  }

  lemma RestrainedStep(s: Cluster, step: Step, k: Key)
    requires Enabled(s, step) && ChainedAt(s, k) && Restrained(s, k)
    ensures Restrained(Apply(s, step), k)
  {
    match step
    case Write(key, kind) => WriteIsRestrained(s, key, kind, k);
    case Deliver(key, n) => DeliverIsRestrained(s, key, n, k);
    case Resync(_) => NotesAreRestrained(s, step, k);
    case Handle(_) => NotesAreRestrained(s, step, k);
    case Report(w, written) =>
      if written {
        ReportIsRestrained(s, w, k);
      }
    case _ =>
  }

  // ---- Whole runs ----

  ghost predicate Invariant(s: Cluster) {
    && Exclusive(s.wq, s.workers) && Balanced(s) && Seeing(s)
    && forall k :: ChainedAt(s, k) && Covered(s, k) && Restrained(s, k)
  }

  lemma InvariantStep(s: Cluster, step: Step)
    requires Enabled(s, step) && Invariant(s)
    ensures Invariant(Apply(s, step))
  {
    ExclusiveStep(s, step);
    BalancedStep(s, step);
    SeeingStep(s, step);
    forall k ensures ChainedAt(Apply(s, step), k) && Covered(Apply(s, step), k) && Restrained(Apply(s, step), k) {
      assert ChainedAt(s, k) && Covered(s, k) && Restrained(s, k);
      if step.Deliver? {
        assert ChainedAt(s, step.key);
      }
      ChainedStep(s, step, k);
      CoveredStep(s, step, k);
      RestrainedStep(s, step, k);
    }
  }

  lemma {:induction false} InvariantRun(s: Cluster, steps: seq<Step>, s': Cluster)
    requires Leads(s, steps, s') && Invariant(s)
    ensures Invariant(s')
    decreases |steps|
  {
    if steps != [] {
      InvariantStep(s, steps[0]);
      InvariantRun(Apply(s, steps[0]), steps[1..], s');
    }
  }

  // The cluster can be reached with so many workers.
  ghost predicate Reachable(workers: nat, s: Cluster) {
    exists steps :: Leads(Initial(workers), steps, s)
  }

  lemma ReachableInvariant(workers: nat, s: Cluster)
    requires Reachable(workers, s)
    ensures Invariant(s)
  {
    var steps :| Leads(Initial(workers), steps, s);
    InvariantRun(Initial(workers), steps, s);
  }
}

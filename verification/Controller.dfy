// The controller object: its handlers, what one worker does with one item, and
// the status write (controller/internal/k8s/controller.go). The methods are
// proved against the queue functions and the handler conditions that the state
// machine of Reconcile.dfy is made of.
module Controller {
  import opened Wire
  import opened WorkQueue
  import Reconcile
  import Resync

  type Metadata = v: Reconcile.Version | v.Live? witness Reconcile.Live(0, 0, 0)

  // A RestStrategy object. `version` is what its metadata says.
  datatype Resource = Resource(namespace: string, name: string, version: Metadata, spec: string, status: string)

  // What the informer hands to a handler.
  datatype Any = Typed(resource: Resource) | Untyped

  // What comes off the queue.
  datatype Item = Text(key: string) | OtherItem

  datatype Lookup = Found(resource: Resource) | NotFound | LookupError(message: string)

  datatype QueueCall = Got(item: Item) | PutAside(item: Item) | Forgot(item: Item) | Finished(item: Item)

  const MESSAGE_RESOURCE_SYNCED := "RestStrategy successfully executed"

  // The zero object that stands in for what cannot be converted.
  const ZERO := Resource("", "", Reconcile.Live(0, 0, 0), "", "")

  // MetaNamespaceKeyFunc.
  function KeyOf(r: Resource): string {
    if r.namespace == "" then r.name else r.namespace + "/" + r.name
  }

  // SplitMetaNamespaceKey: at most one slash.
  function SplitKey(key: string): Option<(string, string)> {
    if '/' !in key then Some(("", key))
    else
      var i := SlashAt(key);
      if '/' in key[i + 1..] then None else Some((key[..i], key[i + 1..]))
  }

  function SlashAt(key: string): (i: nat)
    requires '/' in key
    ensures i < |key| && key[i] == '/' && '/' !in key[..i]
  {
    if key[0] == '/' then 0 else 1 + SlashAt(key[1..])
  }

  lemma {:induction false} FirstSlash(key: string, i: nat)
    requires i < |key| && key[i] == '/' && '/' !in key[..i]
    ensures SlashAt(key) == i
  {
    if i > 0 {
      assert key[0] == key[..i][0];
      assert key[1..][..i - 1] == key[..i][1..];
      FirstSlash(key[1..], i - 1);
    }
  }

  // The key of a resource leads back to it.
  lemma SplitKeyOf(r: Resource)
    requires '/' !in r.namespace && '/' !in r.name
    ensures SplitKey(KeyOf(r)) == Some((r.namespace, r.name))
  {
    if r.namespace != "" {
      var key := KeyOf(r);
      assert key[|r.namespace|] == '/' && key[..|r.namespace|] == r.namespace && key[|r.namespace| + 1..] == r.name;
      FirstSlash(key, |r.namespace|);
    }
  }

  // A key is split unless it has two slashes, and the parts make up the key.
  lemma WhenKeysSplit(key: string)
    ensures SplitKey(key).None? <==> exists i, j :: 0 <= i < j < |key| && key[i] == '/' && key[j] == '/'
    ensures SplitKey(key).Some? ==>
              var (namespace, name) := SplitKey(key).value;
              && '/' !in namespace && '/' !in name
              && key == if '/' in key then namespace + "/" + name else name
    ensures SplitKey(key).Some? && '/' !in key ==> SplitKey(key).value.0 == ""
  {
    if '/' in key {
      var i := SlashAt(key);
      assert key == key[..i] + "/" + key[i + 1..];
      if '/' in key[i + 1..] {
        var j :| 0 <= j < |key[i + 1..]| && key[i + 1..][j] == '/';
        assert key[i + 1 + j] == '/';
      }
    }
  }

  predicate VersionsDiffer(now: Resource, before: Resource) {
    Reconcile.VersionsDiffer(now.version, before.version)
  }

  class RateLimitingQueue {
    var q: Queue<Item>
    var closed: bool
    ghost var trace: seq<QueueCall>

    constructor ()
      ensures q == Empty() && !closed && trace == []
    {
      q := Empty();
      closed := false;
      trace := [];
    }

    method Add(item: Item)
      modifies this`q
      ensures q == WorkQueue.Add(old(q), item)
    {
      q := WorkQueue.Add(q, item);
    }

    method AddRateLimited(item: Item)
      modifies this`q, this`trace
      ensures q == WorkQueue.AddRateLimited(old(q), item) && trace == old(trace) + [PutAside(item)]
    {
      q := WorkQueue.AddRateLimited(q, item);
      trace := trace + [PutAside(item)];
    }

    method Forget(item: Item)
      modifies this`trace
      ensures trace == old(trace) + [Forgot(item)]
    {
      trace := trace + [Forgot(item)];
    }

    // Blocks while nothing is in line, unless the queue is shut down.
    method Get() returns (item: Item, shutdown: bool)
      requires q.queue != [] || closed
      modifies this`q, this`trace
      ensures shutdown <==> old(q).queue == []
      ensures shutdown ==> q == old(q) && trace == old(trace)
      ensures !shutdown ==> item == old(q).queue[0] && q == WorkQueue.Get(old(q)) && trace == old(trace) + [Got(item)]
    {
      item := OtherItem;
      shutdown := q.queue == [];
      if !shutdown {
        item := q.queue[0];
        q := WorkQueue.Get(q);
        trace := trace + [Got(item)];
      }
    }

    method Done(item: Item)
      modifies this`q, this`trace
      ensures q == WorkQueue.Done(old(q), item) && trace == old(trace) + [Finished(item)]
    {
      q := WorkQueue.Done(q, item);
      trace := trace + [Finished(item)];
    }
  }

  // The informer's cache. A lookup may fail for other reasons than absence.
  class Lister {
    var cache: map<(string, string), Resource>
    var failure: Option<string>

    constructor (cache: map<(string, string), Resource>)
      ensures this.cache == cache && failure == None
    {
      this.cache := cache;
      this.failure := None;
    }

    function Get(namespace: string, name: string): Lookup
      reads this
    {
      if failure.Some? then LookupError(failure.value)
      else if (namespace, name) in cache then Found(cache[(namespace, name)])
      else NotFound
    }
  }

  // The API server, as far as UpdateStatus is concerned.
  class StatusApi {
    var stored: map<(string, string), Resource>
    var clock: nat

    constructor (stored: map<(string, string), Resource>, clock: nat)
      ensures this.stored == stored && this.clock == clock
    {
      this.stored := stored;
      this.clock := clock;
    }

    // Refused when the object is gone or is not the one that was read.
    predicate Accepts(r: Resource)
      reads this
    {
      var at := (r.namespace, r.name);
      at in stored && stored[at].version == r.version
    }

    method UpdateStatus(r: Resource) returns (err: Option<string>)
      modifies this
      ensures err.None? <==> old(Accepts(r))
      ensures old(Accepts(r)) ==>
                var at := (r.namespace, r.name);
                && stored == old(stored)[at :=
                    old(stored)[at].(status := r.status, version := r.version.(rv := old(clock)))]
                && clock == old(clock) + 1
      ensures !old(Accepts(r)) ==> stored == old(stored) && clock == old(clock)
    {
      if Accepts(r) {
        var at := (r.namespace, r.name);
        stored := stored[at := stored[at].(status := r.status, version := r.version.(rv := clock))];
        clock := clock + 1;
        return None;
      }
      return Some("conflict");
    }
  }

  // What a sync works on. `run` is a whole Execute of a new service: the next
  // state and the joined errors, if any; `replace` is configmanager.
  class Target<!S> {
    var state: S
    const run: (S, string) -> (S, Option<string>)

    constructor (state: S, run: (S, string) -> (S, Option<string>))
      ensures this.state == state && this.run == run
    {
      this.state := state;
      this.run := run;
    }

    method Execute(spec: string) returns (err: Option<string>)
      modifies this
      ensures (state, err) == run(old(state), spec)
    {
      var out := run(state, spec);
      state := out.0;
      err := out.1;
    }
  }

  class Controller<!S> {
    const workqueue: RateLimitingQueue
    const lister: Lister
    const api: StatusApi
    const target: Target<S>
    const replace: string -> Option<string>
    const resyncServicePeriod: nat

    constructor (workqueue: RateLimitingQueue, lister: Lister, api: StatusApi, target: Target<S>,
        replace: string -> Option<string>, period: nat)
      requires period >= 1
      ensures this.workqueue == workqueue && this.lister == lister && this.api == api && this.target == target
      ensures this.replace == replace && this.resyncServicePeriod == period
    {
      this.workqueue := workqueue;
      this.lister := lister;
      this.api := api;
      this.target := target;
      this.replace := replace;
      this.resyncServicePeriod := period;
    }

    // The resource that a key leads to, if the lookup succeeds.
    function LookupOf(key: string): Lookup
      reads lister
    {
      match SplitKey(key)
      case None => NotFound
      case Some((namespace, name)) => lister.Get(namespace, name)
    }

    // A failed status write goes unnoticed by the callers.
    method UpdateStatus(r: Resource, message: string) returns (err: Option<string>)
      modifies api
      ensures var written := r.(status := message);
              && (err.None? <==> old(api.Accepts(r)))
              && (old(api.Accepts(r)) ==>
                    var at := (r.namespace, r.name);
                    && api.stored == old(api.stored)[at :=
                        old(api.stored)[at].(status := message, version := r.version.(rv := old(api.clock)))]
                    && api.clock == old(api.clock) + 1)
              && (!old(api.Accepts(r)) ==> api.stored == old(api.stored) && api.clock == old(api.clock))
    {
      var statusUpdate := r;
      statusUpdate := statusUpdate.(status := message);
      assert api.Accepts(statusUpdate) == api.Accepts(r);
      err := api.UpdateStatus(statusUpdate);
    }

    // The key leads to a resource whose placeholders can be replaced.
    predicate Runs(key: string)
      reads lister
    {
      LookupOf(key).Found? && replace(LookupOf(key).resource.spec).Some?
    }

    // The service runs once, with the replaced spec, and then the status write
    // is attempted with its message; or nothing happens.
    twostate predicate SyncedAs(key: string)
      reads lister, api, target
    {
      if Runs(key) then
        var r := LookupOf(key).resource;
        var (next, failure) := target.run(old(target.state), replace(r.spec).value);
        && target.state == next
        && StatusWritten(r, match failure case Some(m) => m case None => MESSAGE_RESOURCE_SYNCED)
      else
        NothingSynced()
    }

    twostate predicate NothingSynced()
      reads api, target
    {
      target.state == old(target.state) && api.stored == old(api.stored) && api.clock == old(api.clock)
    }

    // An error comes from a failed lookup only. A sync takes place exactly when
    // the key leads to a resource whose placeholders can be replaced.
    method SyncHandler(key: string) returns (err: Option<string>)
      modifies api, target
      ensures err.Some? <==> LookupOf(key).LookupError?
      ensures err.Some? <==> SplitKey(key).Some? && lister.failure.Some?
      ensures SyncedAs(key)
      ensures target.state ==
                if && SplitKey(key).Some? && lister.failure.None? && SplitKey(key).value in lister.cache
                   && replace(lister.cache[SplitKey(key).value].spec).Some?
                then target.run(old(target.state), replace(lister.cache[SplitKey(key).value].spec).value).0
                else old(target.state)
    {
      var split := SplitKey(key);
      if split.None? {
        return None;
      }
      var l := lister.Get(split.value.0, split.value.1);
      match l
      case NotFound => return None;
      case LookupError(m) => return Some(m);
      case Found(r) =>
        var rspec := replace(r.spec);
        if rspec.None? {
          return None;
        }
        var failure := target.Execute(rspec.value);
        if failure.Some? {
          var ignored := UpdateStatus(r, failure.value);
          return None;
        }
        var ignored := UpdateStatus(r, MESSAGE_RESOURCE_SYNCED);
        return None;
    }

    // At most the status of one object changes, never its spec or generation.
    twostate predicate StatusWritten(r: Resource, message: string)
      reads api
    {
      var at := (r.namespace, r.name);
      if old(api.Accepts(r)) then
        && api.stored == old(api.stored)[at :=
             old(api.stored)[at].(status := message, version := r.version.(rv := old(api.clock)))]
        && api.clock == old(api.clock) + 1
      else
        api.stored == old(api.stored) && api.clock == old(api.clock)
    }

    // What the worker does to the queue between Get and Done.
    function Settled(q: Queue<Item>, item: Item): Queue<Item>
      reads lister
    {
      if PutsBack(item) then WorkQueue.AddRateLimited(q, item) else q
    }

    predicate PutsBack(item: Item)
      reads lister
    {
      item.Text? && LookupOf(item.key).LookupError?
    }

    // One Get, exactly one Done for it on every path, and between them either
    // AddRateLimited, if the lookup failed, or Forget.
    method ProcessNextWorkItem() returns (more: bool)
      requires workqueue.q.queue != [] || workqueue.closed
      modifies workqueue, api, target
      ensures more <==> old(workqueue.q).queue != []
      ensures !more ==> workqueue.q == old(workqueue.q) && workqueue.trace == old(workqueue.trace)
      ensures more ==>
                var item := old(workqueue.q).queue[0];
                && workqueue.q == WorkQueue.Done(Settled(WorkQueue.Get(old(workqueue.q)), item), item)
                && workqueue.trace == old(workqueue.trace)
                     + [Got(item), if PutsBack(item) then PutAside(item) else Forgot(item), Finished(item)]
                && (if item.Text? then SyncedAs(item.key) else NothingSynced())
    {
      var obj, shutdown := workqueue.Get();
      if shutdown {
        return false;
      }
      if obj.OtherItem? {
        workqueue.Forget(obj);
      } else {
        var err := SyncHandler(obj.key);
        if err.Some? {
          workqueue.AddRateLimited(obj);
        } else {
          workqueue.Forget(obj);
        }
      }
      workqueue.Done(obj);
      return true;
    }

    // The queue after a key has been added for an object that has one.
    function Enqueued(q: Queue<Item>, obj: Any): Queue<Item> {
      match obj
      case Typed(r) => WorkQueue.Add(q, Text(KeyOf(r)))
      case Untyped => q
    }

    method Enqueue(obj: Any)
      modifies workqueue`q
      ensures workqueue.q == Enqueued(old(workqueue.q), obj)
    {
      if obj.Untyped? {
        return;
      }
      workqueue.Add(Text(KeyOf(obj.resource)));
    }

    // The machine's handler call for a note Added.
    method CreateCustomResource(obj: Any)
      modifies workqueue`q
      ensures workqueue.q == Enqueued(old(workqueue.q), obj)
      ensures obj.Typed? ==> workqueue.q == WorkQueue.Add(old(workqueue.q), Text(KeyOf(obj.resource)))
    {
      if obj.Typed? {
        Enqueue(obj);
        return;
      }
    }

    // Enqueues exactly when the machine's handler does for a note Updated.
    method UpdateCustomResource(before: Any, now: Any, hour: nat, minute: nat)
      requires resyncServicePeriod >= 1
      modifies workqueue`q
      ensures var oldT := if before.Typed? then before.resource else ZERO;
              var newT := if now.Typed? then now.resource else ZERO;
              var note := Reconcile.Updated(KeyOf(newT), oldT.version, newT.version);
              workqueue.q == if Reconcile.Enqueues(note, Resync.Due(hour, minute, resyncServicePeriod))
                             then Enqueued(old(workqueue.q), now) else old(workqueue.q)
      ensures var oldV := if before.Typed? then before.resource.version else ZERO.version;
              var newV := if now.Typed? then now.resource.version else ZERO.version;
              var enqueues := (hour % resyncServicePeriod == 0 && minute == 0)
                              || (newV.gen != oldV.gen && newV.rv != oldV.rv);
              workqueue.q == if now.Typed? && enqueues
                             then WorkQueue.Add(old(workqueue.q), Text(KeyOf(now.resource))) else old(workqueue.q)
    {
      var oldT, newT := ZERO, ZERO;
      if before.Typed? {
        oldT := before.resource;
      }
      if now.Typed? {
        newT := now.resource;
      }
      var due := DoPeriodResync(hour, minute);
      if due || VersionsDiffer(newT, oldT) {
        Enqueue(now);
      }
    }

    // Not implemented: nothing is enqueued, as by the machine's handler for a
    // note Deleted.
    method DeleteRestStrategyCustomResource(obj: Any)
      ensures workqueue.q == old(workqueue.q)
      ensures obj.Typed? ==> forall due: bool :: !Reconcile.Enqueues(Reconcile.Deleted(KeyOf(obj.resource)), due)
    {
    }

    method DoPeriodResync(hour: nat, minute: nat) returns (due: bool)
      requires resyncServicePeriod >= 1
      ensures due == Resync.Due(hour, minute, resyncServicePeriod)
    {
      due := hour % resyncServicePeriod == 0 && minute == 0;
    }
  }
}

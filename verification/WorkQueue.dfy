// The work queue as its documentation describes it: a key that is added while
// it is being processed is processed again, and no key is handed out twice at
// the same time (used by controller/internal/k8s/controller.go).
module WorkQueue {
  type Key = string

  // `delayed` holds the keys that AddRateLimited has put aside.
  datatype Queue<T(==)> = Queue(dirty: set<T>, processing: set<T>, queue: seq<T>, delayed: set<T>)

  function Empty<T(==)>(): Queue<T> {
    Queue({}, {}, [], {})
  }

  function Add<T(==)>(q: Queue<T>, k: T): Queue<T> {
    if k in q.dirty then q
    else q.(dirty := q.dirty + {k}, queue := if k in q.processing then q.queue else q.queue + [k])
  }

  function AddRateLimited<T(==)>(q: Queue<T>, k: T): Queue<T> {
    q.(delayed := q.delayed + {k})
  }

  // The delay of a key is over.
  function Ripen<T(==)>(q: Queue<T>, k: T): Queue<T> {
    Add(q.(delayed := q.delayed - {k}), k)
  }

  function Get<T(==)>(q: Queue<T>): Queue<T>
    requires q.queue != []
  {
    q.(dirty := q.dirty - {q.queue[0]}, processing := q.processing + {q.queue[0]}, queue := q.queue[1..])
  }

  function Done<T(==)>(q: Queue<T>, k: T): Queue<T> {
    q.(processing := q.processing - {k}, queue := if k in q.dirty then q.queue + [k] else q.queue)
  }

  // The keys in line are those that are to be processed and are not being so.
  ghost predicate Sound<T(!new)>(q: Queue<T>) {
    && (forall i, j :: 0 <= i < j < |q.queue| ==> q.queue[i] != q.queue[j])
    && (forall k :: k in q.queue <==> k in q.dirty && k !in q.processing)
  }

  lemma AddIsSound<T(!new)>(q: Queue<T>, k: T)
    requires Sound(q)
    ensures Sound(Add(q, k)) && Sound(Ripen(q, k)) && Sound(AddRateLimited(q, k))
    ensures k in Add(q, k).dirty && k in Ripen(q, k).dirty
  {
  }

  lemma GetIsSound<T(!new)>(q: Queue<T>)
    requires Sound(q) && q.queue != []
    ensures Sound(Get(q)) && q.queue[0] !in q.processing && q.queue[0] in q.dirty
  {
    var k := q.queue[0];
    assert k in q.queue;
    forall j | j in q.queue[1..] ensures j != k {
    }
    forall j ensures j in Get(q).queue <==> j in Get(q).dirty && j !in Get(q).processing {
      assert j in q.queue <==> j == k || j in q.queue[1..];
    }
  }

  lemma DoneIsSound<T(!new)>(q: Queue<T>, k: T)
    requires Sound(q) && k in q.processing
    ensures Sound(Done(q, k))
  {
    assert k !in q.queue;
  }
}

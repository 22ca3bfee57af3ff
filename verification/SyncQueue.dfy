// The fetch queue of a node: entries waiting in order, and the set that keeps a
// blob from being queued twice or queued while its task runs.
module SyncQueue {
  import opened Store

  datatype Entry = Entry(id: Uuid, hash: Hash)

  /** `accepted` and `popped` are history: all entries ever pushed and ever taken, in order. */
  datatype Queue = Queue(entries: seq<Entry>, inProgress: set<Uuid>, accepted: seq<Entry>, popped: seq<Entry>)

  const EMPTY := Queue([], {}, [], [])

  /** `queue_blob_fetch` */
  function Enqueue(q: Queue, e: Entry): Queue {
    if e.id in q.inProgress then q
    else q.(entries := q.entries + [e], inProgress := q.inProgress + {e.id}, accepted := q.accepted + [e])
  }

  function BatchSize(q: Queue, maxSyncs: nat): (n: nat)
    ensures n <= |q.entries| && n <= maxSyncs
  {
    if maxSyncs < |q.entries| then maxSyncs else |q.entries|
  }

  function Batch(q: Queue, maxSyncs: nat): (batch: seq<Entry>) {
    q.entries[..BatchSize(q, maxSyncs)]
  }

  /** Pops a batch; its ids stay in progress. */
  function TakeBatch(q: Queue, maxSyncs: nat): Queue {
    q.(entries := q.entries[BatchSize(q, maxSyncs)..], popped := q.popped + Batch(q, maxSyncs))
  }

  /** A finished task gives its id up. */
  function Release(q: Queue, id: Uuid): Queue {
    q.(inProgress := q.inProgress - {id})
  }

  function Ids(entries: seq<Entry>): set<Uuid> {
    set e | e in entries :: e.id
  }

  predicate DistinctIds(entries: seq<Entry>) {
    forall i, j | 0 <= i < j < |entries| :: entries[i].id != entries[j].id
  }

  /**
   * The ids in progress are those queued and those running, no id is both or queued twice,
   * and nothing accepted is lost, reordered or made up.
   */
  predicate QueueInv(q: Queue, running: set<Uuid>) {
    && q.inProgress == Ids(q.entries) + running
    && Ids(q.entries) !! running
    && DistinctIds(q.entries)
    && q.accepted == q.popped + q.entries
  }

  lemma EnqueueKeeps(q: Queue, running: set<Uuid>, e: Entry)
    requires QueueInv(q, running)
    ensures QueueInv(Enqueue(q, e), running)
    ensures q.entries <= Enqueue(q, e).entries
    ensures e.id in Ids(Enqueue(q, e).entries) + running
  {
    if e.id !in q.inProgress {
      assert Ids(q.entries + [e]) == Ids(q.entries) + {e.id};
      forall i | 0 <= i < |q.entries|
        ensures q.entries[i].id != e.id
      {
        assert q.entries[i] in q.entries;
      }
    }
  }

  lemma TakeBatchKeeps(q: Queue, running: set<Uuid>, maxSyncs: nat)
    requires QueueInv(q, running)
    ensures QueueInv(TakeBatch(q, maxSyncs), running + Ids(Batch(q, maxSyncs)))
    ensures DistinctIds(Batch(q, maxSyncs)) && Ids(Batch(q, maxSyncs)) !! running
    ensures Batch(q, maxSyncs) + TakeBatch(q, maxSyncs).entries == q.entries
  {
    var n := BatchSize(q, maxSyncs);
    var batch, rest := q.entries[..n], q.entries[n..];
    assert q.entries == batch + rest;
    assert Ids(q.entries) == Ids(batch) + Ids(rest);
    assert q.popped + (batch + rest) == (q.popped + batch) + rest;
    forall id | id in Ids(batch)
      ensures id !in Ids(rest)
    {
      var i :| 0 <= i < n && batch[i].id == id;
      forall j | 0 <= j < |rest|
        ensures rest[j].id != id
      {
        assert q.entries[i].id != q.entries[n + j].id;
      }
    }
  }

  lemma ReleaseKeeps(q: Queue, running: set<Uuid>, id: Uuid)
    requires QueueInv(q, running) && id in running
    ensures QueueInv(Release(q, id), running - {id})
  {
  }

  lemma {:induction false} IdsCount(entries: seq<Entry>)
    ensures |Ids(entries)| <= |entries|
  {
    if entries != [] {
      IdsCount(entries[1..]);
      assert Ids(entries) == {entries[0].id} + Ids(entries[1..]);
    }
  }
}

// The sync manager of one node (da-node/src/node_api/sync.rs): the queue, the round
// that empties it, the fetch of one blob, and the announcements. The answers of peers
// and the orders of hash maps and queries are parameters; tasks of a round run one
// after the other here, and freely interleaved in module Network.
module SyncNode {
  import opened LittleEndian
  import opened Store
  import opened SyncQueue
  import opened FetchTask
  import Network

  /** The database shared by the sync manager, the peer service and the user API. */
  class Pool {
    var db: Database

    constructor ()
      ensures db == Database(map[], map[])
    {
      db := Database(map[], map[]);
    }
  }

  /** Giving back the ids of a whole batch. */
  function ReleaseAll(q: Queue, batch: seq<Entry>): Queue {
    q.(inProgress := q.inProgress - Ids(batch))
  }

  lemma ReleaseAllKeeps(q: Queue, batch: seq<Entry>)
    requires QueueInv(q, {} + Ids(batch))
    ensures QueueInv(ReleaseAll(q, batch), {})
  {
  }

  lemma ReleaseAllSnoc(q: Queue, batch: seq<Entry>, e: Entry)
    ensures ReleaseAll(q, batch + [e]) == Release(ReleaseAll(q, batch), e.id)
  {
    assert Ids(batch + [e]) == Ids(batch) + {e.id};
  }

  lemma ReleaseNone(q: Queue)
    ensures ReleaseAll(q, []) == q
  {
  }

  /** What a peer would answer to a fetch of a blob. */
  type Answers = Uuid -> NodeId -> Answer

  /** The order in which each task goes through the peers. */
  type Orders = Uuid -> seq<NodeId>

  /** The tasks of a batch, one after the other. */
  function FetchAll(sha: Bytes -> Hash, db: Database, batch: seq<Entry>, orders: Orders, answers: Answers): Database
    decreases |batch|
  {
    if batch == [] then db
    else
      var e := batch[0];
      FetchAll(sha, Fetch(sha, db, e.id, e.hash, orders(e.id), answers(e.id)).0, batch[1..], orders, answers)
  }

  lemma {:induction false} FetchAllSnoc(sha: Bytes -> Hash, db: Database, batch: seq<Entry>, e: Entry, orders: Orders, answers: Answers)
    ensures FetchAll(sha, db, batch + [e], orders, answers) ==
            Fetch(sha, FetchAll(sha, db, batch, orders, answers), e.id, e.hash, orders(e.id), answers(e.id)).0
    decreases |batch|
  {
    if batch == [] {
      assert [e][1..] == [];
    } else {
      assert (batch + [e])[1..] == batch[1..] + [e];
      var first := batch[0];
      FetchAllSnoc(sha, Fetch(sha, db, first.id, first.hash, orders(first.id), answers(first.id)).0,
                   batch[1..], e, orders, answers);
    }
  }

  /**
   * What announcing leaves behind: the peers called and reached are pending, all else is as
   * it was. With `calls` only for peers not completed, no completed entry is ever undone.
   */
  predicate Announced(before: Database, after: Database, calls: set<Key>, reachable: set<NodeId>) {
    && after.blobs == before.blobs
    && after.status.Keys == before.status.Keys
    && forall key | key in after.status ::
         after.status[key] == if key in calls && key.peer in reachable then Pending else before.status[key]
  }

  /** The peers to tell about the blobs listed: known peers that are not recorded as having them. */
  function ToTell(db: Database, blobs: set<Uuid>, peers: set<NodeId>): set<Key> {
    set key | key in db.status && key.blob in blobs && key.peer in peers && db.status[key] != Completed
  }

  /** How a configured peer answers the handshake at start-up. */
  datatype HandshakeReply = Unreachable | Rejected | Welcomed(id: NodeId)

  function WelcomedBy(replies: seq<HandshakeReply>): set<NodeId> {
    set reply | reply in replies && reply.Welcomed? :: reply.id
  }

  class SyncManager {
    const nodeId: NodeId
    const maxConcurrentSyncs: nat
    const pool: Pool
    var peers: set<NodeId>
    var blobQueue: seq<Entry>
    var inProgress: set<Uuid>
    ghost var accepted: seq<Entry>
    ghost var popped: seq<Entry>

    /** `new`, given the replies of the configured peers. */
    constructor (nodeId: NodeId, maxConcurrentSyncs: nat, pool: Pool, replies: seq<HandshakeReply>)
      ensures this.nodeId == nodeId && this.maxConcurrentSyncs == maxConcurrentSyncs && this.pool == pool
      ensures peers == WelcomedBy(replies) && View() == EMPTY && Valid()
    {
      this.nodeId, this.maxConcurrentSyncs, this.pool := nodeId, maxConcurrentSyncs, pool;
      peers, blobQueue, inProgress := {}, [], {};
      accepted, popped := [], [];
      new;
      for i := 0 to |replies|
        invariant peers == WelcomedBy(replies[..i]) && View() == EMPTY
      {
        assert replies[..i + 1] == replies[..i] + [replies[i]];
        if replies[i].Welcomed? {
          peers := peers + {replies[i].id};
        }
      }
      assert replies[..|replies|] == replies;
    }

    ghost function View(): Queue
      reads this
    {
      Queue(blobQueue, inProgress, accepted, popped)
    }

    /** Between rounds no task runs. */
    ghost predicate Valid()
      reads this
    {
      QueueInv(View(), {})
    }

    method AddPeer(peer: NodeId)
      modifies this`peers
      ensures peers == old(peers) + {peer}
    {
      peers := peers + {peer};
    }

    method QueueBlobFetch(id: Uuid, hash: Hash)
      requires Valid()
      modifies this`blobQueue, this`inProgress, this`accepted
      ensures View() == Enqueue(old(View()), Entry(id, hash)) && Valid()
    {
      EnqueueKeeps(View(), {}, Entry(id, hash));
      if id !in inProgress {
        blobQueue := blobQueue + [Entry(id, hash)];
        inProgress := inProgress + {id};
        accepted := accepted + [Entry(id, hash)];
      }
    }

    /** The popping loop of a round. */
    method PopBatch() returns (batch: seq<Entry>)
      modifies this`blobQueue, this`popped
      ensures batch == Batch(old(View()), maxConcurrentSyncs)
      ensures View() == TakeBatch(old(View()), maxConcurrentSyncs)
    {
      batch := [];
      var batchSize := if maxConcurrentSyncs < |blobQueue| then maxConcurrentSyncs else |blobQueue|;
      for i := 0 to batchSize
        invariant batch == old(blobQueue)[..i] && blobQueue == old(blobQueue)[i..]
        invariant popped == old(popped) + batch
        invariant inProgress == old(inProgress) && accepted == old(accepted)
      {
        var blob := blobQueue[0];
        blobQueue := blobQueue[1..];
        batch := batch + [blob];
        popped := popped + [blob];
      }
    }

    /** The loop that marks a blob already present as pending everywhere. */
    method MarkPeers(id: Uuid, order: seq<NodeId>)
      modifies pool
      ensures pool.db == MarkAll(old(pool.db), id, order)
    {
      assert order[0..] == order;
      for i := 0 to |order|
        invariant MarkAll(pool.db, id, order[i..]) == MarkAll(old(pool.db), id, order)
      {
        assert order[i..][0] == order[i] && order[i..][1..] == order[i + 1..];
        pool.db := StartSync(pool.db, id, order[i]);
      }
    }

    /** `fetch_and_store_blob`, run without interference. */
    method FetchAndStoreBlob(sha: Bytes -> Hash, id: Uuid, expected: Hash,
                             order: seq<NodeId>, answers: NodeId -> Answer) returns (r: FetchResult)
      modifies pool
      ensures (pool.db, r) == Fetch(sha, old(pool.db), id, expected, order, answers)
      ensures r == AlreadyPresent <==> id in old(pool.db).blobs && !old(pool.db).blobs[id].deleted
    {
      FetchPresent(sha, pool.db, id, expected, order, answers, Key(id, nodeId));
      if IsLive(pool.db, id) {
        MarkPeers(id, order);
        return AlreadyPresent;
      }
      assert order[0..] == order;
      for i := 0 to |order|
        invariant TryPeers(sha, pool.db, id, expected, order[i..], answers) ==
                  TryPeers(sha, old(pool.db), id, expected, order, answers)
      {
        assert order[i..][0] == order[i] && order[i..][1..] == order[i + 1..];
        pool.db := StartSync(pool.db, id, order[i]);
        var answer := answers(order[i]);
        if answer.Found? {
          if answer.blob.metadata.None? {
            continue;
          }
          if !Verified(sha, answer.blob, expected) {
            pool.db := SetStatus(pool.db, id, order[i], Failed);
            continue;
          }
          var stored := InsertBlob(pool.db, ToRow(answer.blob));
          if stored.None? {
            return Conflict;
          }
          pool.db := stored.value;
          pool.db := SetStatus(pool.db, id, order[i], Completed);
          return Stored(order[i]);
        }
        pool.db := SetStatus(pool.db, id, order[i], Failed);
      }
      return Exhausted;
    }

    /**
     * `process_sync_queue`: takes a batch, fetches each blob, and gives every id back,
     * however its fetch ended.
     */
    method ProcessSyncQueue(sha: Bytes -> Hash, orders: Orders, answers: Answers)
      requires Valid()
      modifies this`blobQueue, this`popped, this`inProgress, pool
      ensures var batch := Batch(old(View()), maxConcurrentSyncs);
              && View() == ReleaseAll(TakeBatch(old(View()), maxConcurrentSyncs), batch)
              && pool.db == FetchAll(sha, old(pool.db), batch, orders, answers)
      ensures Valid()
    {
      TakeBatchKeeps(View(), {}, maxConcurrentSyncs);
      var batch := PopBatch();
      ghost var taken := View();
      ReleaseNone(taken);
      for i := 0 to |batch|
        invariant pool.db == FetchAll(sha, old(pool.db), batch[..i], orders, answers)
        invariant View() == ReleaseAll(taken, batch[..i])
      {
        var e := batch[i];
        assert batch[..i + 1] == batch[..i] + [e];
        FetchAllSnoc(sha, old(pool.db), batch[..i], e, orders, answers);
        var result := FetchAndStoreBlob(sha, e.id, e.hash, orders(e.id), answers(e.id));
        ReleaseAllSnoc(taken, batch[..i], e);
        inProgress := inProgress - {e.id};
      }
      assert batch[..|batch|] == batch;
      ReleaseAllKeeps(taken, batch);
    }

    /** The inner loop of an announcement: calls each pending peer that is known. */
    method AnnounceBlob(id: Uuid, reachable: set<NodeId>) returns (calls: set<Key>)
      modifies pool
      ensures calls == ToTell(old(pool.db), {id}, peers)
      ensures Announced(old(pool.db), pool.db, calls, reachable)
    {
      calls := {};
      var left := PendingPeers(pool.db, id);
      while left != {}
        invariant left <= PendingPeers(old(pool.db), id)
        invariant calls == set key | key in ToTell(old(pool.db), {id}, peers) && key.peer !in left
        invariant Announced(old(pool.db), pool.db, calls, reachable)
        decreases |left|
      {
        var peer :| peer in left;
        left := left - {peer};
        assert Key(id, peer) in old(pool.db).status && old(pool.db).status[Key(id, peer)] != Completed;
        if peer in peers {
          calls := calls + {Key(id, peer)};
          if peer in reachable {
            pool.db := SetStatus(pool.db, id, peer, Pending);
          }
        }
      }
    }

    /**
     * `announce_blobs`: calls, for each listed blob, every known peer not recorded as having
     * it; a listed row too large to be read makes it fail before any call.
     */
    method AnnounceBlobs(blobs: seq<Entry>, reachable: set<NodeId>) returns (ok: bool, calls: set<Key>)
      requires Network.ListsShareable(pool.db, blobs)
      modifies pool
      ensures ok <==> Network.AllReadable(old(pool.db), blobs)
      ensures calls == if ok then ToTell(old(pool.db), Ids(blobs), peers) else {}
      ensures Announced(old(pool.db), pool.db, calls, reachable)
      ensures forall key :: Completes(pool.db, key) <==> Completes(old(pool.db), key)
      ensures forall key | key in calls ::
                && key.blob in old(pool.db).blobs && !old(pool.db).blobs[key.blob].deleted
                && key in old(pool.db).status && old(pool.db).status[key] != Completed
    {
      for i := 0 to |blobs|
        invariant pool.db == old(pool.db)
        invariant forall j | 0 <= j < i && blobs[j].id in pool.db.blobs :: Readable(pool.db.blobs[blobs[j].id])
      {
        assert blobs[i].id in Shareable(pool.db);
        if !Readable(pool.db.blobs[blobs[i].id]) {
          return false, {};
        }
      }
      calls := AnnounceAll(blobs, reachable);
      AnnouncingKeepsCompleted(old(pool.db), pool.db, Ids(blobs), peers, reachable);
      return true, calls;
    }

    /** The outer loop of an announcement. */
    method AnnounceAll(blobs: seq<Entry>, reachable: set<NodeId>) returns (calls: set<Key>)
      requires DistinctIds(blobs)
      modifies pool
      ensures calls == ToTell(old(pool.db), Ids(blobs), peers)
      ensures Announced(old(pool.db), pool.db, calls, reachable)
    {
      calls := {};
      for i := 0 to |blobs|
        invariant calls == ToTell(old(pool.db), Ids(blobs[..i]), peers)
        invariant Announced(old(pool.db), pool.db, calls, reachable)
      {
        var id := blobs[i].id;
        ghost var before := pool.db;
        NextListed(blobs, i);
        ToTellMore(old(pool.db), Ids(blobs[..i]), id, peers);
        SameToTell(old(pool.db), before, id, calls, reachable, peers);
        var more := AnnounceBlob(id, reachable);
        AnnouncedBoth(old(pool.db), before, pool.db, calls, more, reachable);
        calls := calls + more;
      }
      assert blobs[..|blobs|] == blobs;
    }
  }

  lemma NextListed(blobs: seq<Entry>, i: nat)
    requires i < |blobs| && DistinctIds(blobs)
    ensures Ids(blobs[..i + 1]) == Ids(blobs[..i]) + {blobs[i].id}
    ensures blobs[i].id !in Ids(blobs[..i])
  {
    assert blobs[..i + 1] == blobs[..i] + [blobs[i]];
  }

  lemma ToTellMore(db: Database, blobs: set<Uuid>, id: Uuid, peers: set<NodeId>)
    ensures ToTell(db, blobs + {id}, peers) == ToTell(db, blobs, peers) + ToTell(db, {id}, peers)
  {
  }

  /** Announcing other blobs does not change whom to tell about this one. */
  lemma SameToTell(before: Database, after: Database, id: Uuid, calls: set<Key>, reachable: set<NodeId>, peers: set<NodeId>)
    requires Announced(before, after, calls, reachable)
    requires forall key | key in calls :: key.blob != id
    ensures ToTell(after, {id}, peers) == ToTell(before, {id}, peers)
  {
  }

  lemma AnnouncedBoth(a: Database, b: Database, c: Database, calls: set<Key>, more: set<Key>, reachable: set<NodeId>)
    requires Announced(a, b, calls, reachable) && Announced(b, c, more, reachable)
    ensures Announced(a, c, calls + more, reachable)
  {
  }

  /** Only failed or pending entries are touched, so an announcement never undoes a completed one. */
  lemma AnnouncingKeepsCompleted(before: Database, after: Database, blobs: set<Uuid>, peers: set<NodeId>,
                                 reachable: set<NodeId>)
    requires Announced(before, after, ToTell(before, blobs, peers), reachable)
    ensures forall key :: Completes(after, key) <==> Completes(before, key)
  {
  }
}

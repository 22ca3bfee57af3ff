// The half of the protocol that answers other nodes (da-node/src/node_api/server.rs).
module PeerService {
  import opened Wrappers
  import opened Store
  import opened SyncQueue
  import opened FetchTask
  import opened SyncNode

  /** The responses, by the status and the data they carry. */
  datatype Response =
    | MissingMetadata
    | AlreadyExists
    | Accepted
    | BlobNotFound
    | Fetched(blob: ProtoBlob)
    | NothingDeleted
    | DeletedBlob
    | Acknowledged(peer: NodeId)
    | InternalError

  /** What an announcement does to the receiver's queue, and the response to it. */
  function HandledAnnounce(db: Database, q: Queue, metadata: Option<BlobMetadata>): (Queue, Response) {
    match metadata
    case None => (q, MissingMetadata)
    case Some(meta) =>
      if IsLive(db, meta.id) then (q, AlreadyExists) else (Enqueue(q, Entry(meta.id, meta.hash)), Accepted)
  }

  /** What a fetch does to the tables of the peer asked, and the response to it. */
  function HandledFetch(db: Database, id: Uuid, requester: NodeId, includeContent: bool): (Database, Response) {
    if !IsLive(db, id) then (db, BlobNotFound)
    else if !Readable(db.blobs[id]) then (db, InternalError)
    else (SetStatus(db, id, requester, Completed), Fetched(ToProto(db.blobs[id], includeContent)))
  }

  /** `PeerClient::fetch_blob`: what the caller makes of the response. */
  function AnswerOf(response: Response): Answer {
    match response
    case Fetched(blob) => Found(blob)
    case InternalError => CallError
    case _ => NotFound
  }

  /** `PeerClient::announce_blob` succeeds on every response but an error. */
  predicate Acknowledges(response: Response) {
    !response.InternalError?
  }

  class SyncService {
    const manager: SyncManager
    const pool: Pool

    constructor (manager: SyncManager)
      ensures this.manager == manager && pool == manager.pool
    {
      this.manager, this.pool := manager, manager.pool;
    }

    /** Announced blobs are queued unless live here; the sender is told which. */
    method HandleAnnounce(metadata: Option<BlobMetadata>) returns (r: Response)
      requires manager.Valid()
      modifies manager`blobQueue, manager`inProgress, manager`accepted
      ensures manager.Valid()
      ensures (manager.View(), r) == HandledAnnounce(pool.db, old(manager.View()), metadata)
      ensures metadata.None? ==> r == MissingMetadata && manager.View() == old(manager.View())
      ensures metadata.Some? && metadata.value.id in pool.db.blobs && !pool.db.blobs[metadata.value.id].deleted ==>
                r == AlreadyExists && manager.View() == old(manager.View())
      ensures metadata.Some? && !(metadata.value.id in pool.db.blobs && !pool.db.blobs[metadata.value.id].deleted) ==>
                r == Accepted && metadata.value.id in manager.inProgress
    {
      if metadata.None? {
        return MissingMetadata;
      }
      if IsLive(pool.db, metadata.value.id) {
        return AlreadyExists;
      }
      manager.QueueBlobFetch(metadata.value.id, metadata.value.hash);
      return Accepted;
    }

    /**
     * A live blob is sent, and its requester recorded as having it if it is known for that
     * blob; a row too large to be read makes the request fail.
     */
    method HandleFetch(id: Uuid, requester: NodeId, includeContent: bool) returns (r: Response)
      modifies pool
      ensures (pool.db, r) == HandledFetch(old(pool.db), id, requester, includeContent)
      ensures !(id in old(pool.db).blobs && !old(pool.db).blobs[id].deleted) ==>
                r == BlobNotFound && pool.db == old(pool.db)
      ensures id in old(pool.db).blobs && !old(pool.db).blobs[id].deleted && old(pool.db).blobs[id].meta.size < 0x8000_0000 ==>
                var row := old(pool.db).blobs[id];
                && r == Fetched(ProtoBlob(Some(row.meta), if includeContent then row.content else []))
                && pool.db.blobs == old(pool.db).blobs && pool.db.status.Keys == old(pool.db).status.Keys
                && forall key | key in pool.db.status ::
                     pool.db.status[key] == if key == Key(id, requester) then Completed else old(pool.db).status[key]
      ensures id in old(pool.db).blobs && !old(pool.db).blobs[id].deleted && old(pool.db).blobs[id].meta.size >= 0x8000_0000 ==>
                r == InternalError && pool.db == old(pool.db)
    {
      if !IsLive(pool.db, id) {
        return BlobNotFound;
      }
      var row := pool.db.blobs[id];
      if !Readable(row) {
        return InternalError;
      }
      var metadata := BlobMetadata(row.meta.id, row.meta.hash, row.meta.contentType, row.meta.size,
                                   row.meta.ownerId, row.meta.publicKey, row.meta.metadata);
      var blob := if includeContent then ProtoBlob(Some(metadata), row.content) else ProtoBlob(Some(metadata), []);
      pool.db := SetStatus(pool.db, id, requester, Completed);
      return Fetched(blob);
    }

    method HandleDelete(id: Uuid) returns (r: Response)
      modifies pool
      ensures r == if id in old(pool.db).blobs && !old(pool.db).blobs[id].deleted then DeletedBlob else NothingDeleted
      ensures !(id in pool.db.blobs && !pool.db.blobs[id].deleted) && RowsKept(old(pool.db).blobs, pool.db.blobs)
      ensures pool.db.status == old(pool.db).status && pool.db.blobs.Keys == old(pool.db).blobs.Keys
      ensures forall other | other in pool.db.blobs && other != id :: pool.db.blobs[other] == old(pool.db).blobs[other]
    {
      if !IsLive(pool.db, id) {
        return NothingDeleted;
      }
      pool.db := SoftDelete(pool.db, id);
      return DeletedBlob;
    }

    method HandleHandshake(peer: NodeId) returns (r: Response)
      modifies manager`peers
      ensures manager.peers == old(manager.peers) + {peer} && r == Acknowledged(manager.nodeId)
    {
      manager.AddPeer(peer);
      return Acknowledged(manager.nodeId);
    }
  }
}

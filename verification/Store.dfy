// The two tables of a node and the SQL statements run on them, each one atomic.
// A blob id and a node id are compared only; timestamps are left out, and of
// `deleted_at` only whether it is set is kept.
module Store {
  import opened Wrappers
  import opened LittleEndian

  newtype Uuid = n: int | 0 <= n < 0x1_0000_0000_0000_0000_0000_0000_0000_0000

  newtype NodeId = n: int | 0 <= n

  /** The hexadecimal text of a digest. */
  type Hash = string

  datatype BlobMetadata = BlobMetadata(
    id: Uuid, hash: Hash, contentType: Option<string>, size: nat,
    ownerId: Uuid, publicKey: string, metadata: Option<string>)

  /** A blob as it travels between nodes. */
  datatype ProtoBlob = ProtoBlob(metadata: Option<BlobMetadata>, content: Bytes)

  /** A row of table `blobs`. */
  datatype Row = Row(meta: BlobMetadata, content: Bytes, deleted: bool)

  /** The values that the CHECK constraint of `sync_status` admits. */
  datatype SyncStatus = Pending | Completed | Failed

  /** Sizes from here on do not fit the `i32` that a row's size is read into. */
  const I32_LIMIT: nat := 0x8000_0000

  /** A row whose size fits. Every query that reads a whole row fails on any other. */
  predicate Readable(row: Row) {
    row.meta.size < I32_LIMIT
  }

  /** The primary key of `sync_status`. */
  datatype Key = Key(blob: Uuid, peer: NodeId)

  datatype Database = Database(blobs: map<Uuid, Row>, status: map<Key, SyncStatus>)

  /** SELECT EXISTS(... WHERE id = ? AND deleted_at IS NULL) */
  predicate IsLive(db: Database, id: Uuid) {
    id in db.blobs && !db.blobs[id].deleted
  }

  /** INSERT INTO blobs: fails on a taken primary key, whether or not that row is deleted. */
  function InsertBlob(db: Database, row: Row): (r: Option<Database>) {
    if row.meta.id in db.blobs then None
    else Some(db.(blobs := db.blobs[row.meta.id := row]))
  }

  /** UPDATE blobs SET deleted_at = ? WHERE id = ? */
  function SoftDelete(db: Database, id: Uuid): Database {
    if id in db.blobs then db.(blobs := db.blobs[id := db.blobs[id].(deleted := true)]) else db
  }

  /** INSERT INTO sync_status ... ON CONFLICT DO UPDATE SET sync_status = 'pending' */
  function StartSync(db: Database, id: Uuid, peer: NodeId): Database {
    db.(status := db.status[Key(id, peer) := Pending])
  }

  /** UPDATE sync_status SET sync_status = ? WHERE blob_id = ? AND peer_node_id = ? */
  function SetStatus(db: Database, id: Uuid, peer: NodeId, status: SyncStatus): Database {
    if Key(id, peer) in db.status then db.(status := db.status[Key(id, peer) := status]) else db
  }

  /** The entry is there and says 'completed'. */
  predicate Completes(db: Database, key: Key) {
    key in db.status && db.status[key] == Completed
  }

  /** SELECT peer_node_id FROM sync_status WHERE blob_id = ? AND sync_status != 'completed' */
  function PendingPeers(db: Database, id: Uuid): set<NodeId> {
    set key | key in db.status && key.blob == id && db.status[key] != Completed :: key.peer
  }

  /** The live blobs with some status other than 'completed'. */
  function Shareable(db: Database): set<Uuid> {
    set id | id in db.blobs && !db.blobs[id].deleted && PendingPeers(db, id) != {}
  }

  /** The peers whose status rows the INSERT ... SELECT of a deletion selects. */
  function CompletedPeers(db: Database, id: Uuid): set<NodeId> {
    set key | key in db.status && key.blob == id && db.status[key] == Completed :: key.peer
  }

  /** INSERT INTO sync_status SELECT ?, peer_node_id, 'pending' ... : `None` on a key conflict. */
  function RequeueCompleted(db: Database, id: Uuid): (r: Option<Database>) {
    var selected := CompletedPeers(db, id);
    if exists peer | peer in selected :: Key(id, peer) in db.status then None
    else Some(db.(status := map key | key in db.status.Keys + (set peer | peer in selected :: Key(id, peer)) ::
                               if key in db.status then db.status[key] else Pending))
  }

  /**
   * Deleting a blob means to requeue it for the peers that have it, but the rows that
   * statement selects are rows it then collides with: it never changes the table, and
   * it fails exactly when some peer has the blob.
   */
  lemma RequeueNeverInserts(db: Database, id: Uuid)
    ensures RequeueCompleted(db, id) == if CompletedPeers(db, id) == {} then Some(db) else None
    ensures RequeueCompleted(db, id) == None <==> exists peer :: Completes(db, Key(id, peer))
  {
    var selected := CompletedPeers(db, id);
    if peer :| Completes(db, Key(id, peer)) {
      assert peer in selected;
    } else {
      NothingCompleted(db, id);
      var inserted := set peer | peer in selected :: Key(id, peer);
      assert inserted == {};
      assert RequeueCompleted(db, id).value.status == db.status;
    }
  }

  lemma NothingCompleted(db: Database, id: Uuid)
    requires forall peer :: !Completes(db, Key(id, peer))
    ensures CompletedPeers(db, id) == {}
  {
    forall key | key in db.status && key.blob == id
      ensures db.status[key] != Completed
    {
      assert key == Key(id, key.peer);
    }
  }

  /** What `handle_fetch` sends for a row. */
  function ToProto(row: Row, includeContent: bool): ProtoBlob {
    ProtoBlob(Some(row.meta), if includeContent then row.content else [])
  }

  /** The row that `store_received_blob` inserts. */
  function ToRow(blob: ProtoBlob): Row
    requires blob.metadata.Some?
  {
    Row(blob.metadata.value, blob.content, false)
  }

  /** `verify_received_blob`: rejects only when both the computed and the claimed hash differ. */
  predicate Verified(sha: Bytes -> Hash, blob: ProtoBlob, expected: Hash)
    requires blob.metadata.Some?
  {
    !(sha(blob.content) != expected && blob.metadata.value.hash != expected)
  }

  /** A row as it was before, or deleted since: the only change a row ever sees. */
  predicate RowKept(old_: Row, new_: Row) {
    new_ == old_ || new_ == old_.(deleted := true)
  }

  /** Rows stay, unchanged but for being deleted. */
  predicate RowsKept(old_: map<Uuid, Row>, new_: map<Uuid, Row>) {
    forall id | id in old_ :: id in new_ && RowKept(old_[id], new_[id])
  }
}

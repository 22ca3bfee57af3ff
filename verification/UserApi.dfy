// The requests of users (da-node/src/user_api): adding, deleting and listing blobs.
// The fresh id and the random numbers of the encryption are parameters.
module UserApi {
  import opened Wrappers
  import opened LittleEndian
  import opened Keypair
  import opened ElGamal
  import opened Store
  import opened SyncQueue
  import opened SyncNode
  import Base64
  import Network

  datatype User = User(id: Uuid, privateKey: string)

  datatype ApiError =
    | AuthenticationRequired
    | CryptoFailure(error: CryptoError)
    | BlobNotFound
    | NoPermission
    | DatabaseError
    | CryptoPanic

  /** Content as shown: the text itself, or base64 of the ciphertext. */
  datatype Shown = Plain(text: Bytes) | Encoded(base64: string)

  datatype BlobSchema = BlobSchema(meta: BlobMetadata, content: Shown)

  // ---- What listing shows ---------------------------------------------------------

  /** One row as its reader sees it. */
  function Show(row: Row, reader: PrivateKey): (r: Result<BlobSchema, ApiError>)
    requires reader.publicKey.prime > 1
  {
    if row.meta.publicKey == EncodedPublicKey(reader.publicKey) then
      match Decrypted(row.content, reader)
      case Text(bytes) => Ok(BlobSchema(row.meta, Plain(bytes)))
      case Error(e) => Err(CryptoFailure(e))
      case Panicked => Err(CryptoPanic)
    else Ok(BlobSchema(row.meta, Encoded(Base64.Encode(row.content))))
  }

  /** All rows, or the error of the first that cannot be shown. */
  function ShowAll(rows: seq<Row>, reader: PrivateKey): (r: Result<seq<BlobSchema>, ApiError>)
    requires reader.publicKey.prime > 1
  {
    if rows == [] then Ok([])
    else
      match Show(rows[0], reader)
      case Err(e) => Err(e)
      case Ok(first) =>
        Prepend([first], ShowAll(rows[1..], reader))
  }

  /** The listing succeeds exactly when every row can be shown, and then shows each in its place. */
  lemma {:induction false} ShowAllExact(rows: seq<Row>, reader: PrivateKey)
    requires reader.publicKey.prime > 1
    ensures ShowAll(rows, reader).Ok? <==> forall i | 0 <= i < |rows| :: Show(rows[i], reader).Ok?
    ensures ShowAll(rows, reader).Ok? ==>
              var shown := ShowAll(rows, reader).value;
              |shown| == |rows| && forall i | 0 <= i < |rows| :: Show(rows[i], reader) == Ok(shown[i])
  {
    if rows != [] {
      ShowAllExact(rows[1..], reader);
      assert rows == [rows[0]] + rows[1..];
      assert forall i | 0 <= i < |rows[1..]| :: rows[1..][i] == rows[i + 1];
    }
  }

  /** The listing of rows for a user with the stored key: one row that cannot be read fails it. */
  function ListingFor(rows: seq<Row>, privateKey: string): Result<seq<BlobSchema>, ApiError> {
    if exists i :: 0 <= i < |rows| && !Readable(rows[i]) then Err(DatabaseError)
    else
      match TryFrom(privateKey)
      case Err(e) => Err(CryptoFailure(e))
      case Ok(key) =>
        WellFormedUsable(key);
        ShowAll(rows, key)
  }

  /** `rows` are the live rows of `owner`, in some order. */
  predicate ListsRows(db: Database, owner: Uuid, rows: seq<Row>) {
    && (forall i | 0 <= i < |rows| ::
          rows[i].meta.id in db.blobs && db.blobs[rows[i].meta.id] == rows[i]
          && !rows[i].deleted && rows[i].meta.ownerId == owner)
    && (forall i, j | 0 <= i < j < |rows| :: rows[i].meta.id != rows[j].meta.id)
    && (forall id | id in db.blobs && !db.blobs[id].deleted && db.blobs[id].meta.ownerId == owner ::
          db.blobs[id] in rows)
  }

  class Api {
    const manager: SyncManager
    const pool: Pool

    constructor (manager: SyncManager)
      ensures this.manager == manager && pool == manager.pool
    {
      this.manager, this.pool := manager, manager.pool;
    }

    /**
     * `add_blob`: encrypts the text under the user's key, stores the row and queues the blob.
     * A size beyond `i32` is noticed only when the stored row is read back.
     */
    method AddBlob(sha: Bytes -> Hash, user: Option<User>, id: Uuid, text: Bytes,
                   contentType: Option<string>, metadata: Option<string>, randoms: seq<nat>)
      returns (r: Result<BlobSchema, ApiError>)
      requires manager.Valid() && |randoms| == ChunkCount(|text|)
      modifies pool, manager`blobQueue, manager`inProgress, manager`accepted
      ensures manager.Valid()
      ensures user.None? ==>
                r == Err(AuthenticationRequired) && pool.db == old(pool.db) && manager.View() == old(manager.View())
      ensures user.Some? ==>
                var input := Network.NewBlob(user.value.id, user.value.privateKey, text, contentType, metadata);
                match Network.MintBlob(sha, manager.nodeId, id, input, randoms)
                case None =>
                  && r == Err(CryptoFailure(Base64Decoding))
                  && pool.db == old(pool.db) && manager.View() == old(manager.View())
                case Some(mint) =>
                  match InsertBlob(old(pool.db), Network.MintedRow(mint))
                  case None => r == Err(DatabaseError) && pool.db == old(pool.db) && manager.View() == old(manager.View())
                  case Some(db) =>
                    && pool.db == db
                    && if !Readable(Network.MintedRow(mint)) then
                         r == Err(DatabaseError) && manager.View() == old(manager.View())
                       else
                         && r == Ok(BlobSchema(mint.meta, Plain(text)))
                         && manager.View() == Enqueue(old(manager.View()), Entry(id, mint.meta.hash))
      ensures r.Ok? ==>
                && user.Some? && r.value.content == Plain(text)
                && id in pool.db.blobs && pool.db.blobs[id].meta == r.value.meta && !pool.db.blobs[id].deleted
                && r.value.meta == BlobMetadata(id, sha(pool.db.blobs[id].content), contentType, |pool.db.blobs[id].content|,
                                                user.value.id, r.value.meta.publicKey, metadata)
    {
      if user.None? {
        return Err(AuthenticationRequired);
      }
      var imported := TryFrom(user.value.privateKey);
      if imported.Err? {
        return Err(CryptoFailure(imported.error));
      }
      var key := imported.value;
      WellFormedUsable(key);
      var relatedPubkey := EncodedPublicKey(key.publicKey);
      var content := ElGamal.Encrypt(text, key, randoms);
      var hash := sha(content);
      var meta := BlobMetadata(id, hash, contentType, |content|, user.value.id, relatedPubkey, metadata);
      ghost var mint := Network.Mint(manager.nodeId, meta, content, text, key, randoms);
      assert Network.MintBlob(sha, manager.nodeId, id, Network.NewBlob(user.value.id, user.value.privateKey, text,
                                                                       contentType, metadata), randoms) == Some(mint);
      var inserted := InsertBlob(pool.db, Row(meta, content, false));
      if inserted.None? {
        return Err(DatabaseError);
      }
      pool.db := inserted.value;
      if |content| >= I32_LIMIT {
        return Err(DatabaseError);
      }
      manager.QueueBlobFetch(id, hash);
      return Ok(BlobSchema(meta, Plain(text)));
    }

    /**
     * `delete_blob`: deletes a live blob of the user and queues it again. The statement after
     * that changes nothing: the request fails in the end when some peer has the blob.
     */
    method DeleteBlob(user: Option<User>, id: Uuid) returns (r: Result<bool, ApiError>)
      requires manager.Valid()
      modifies pool, manager`blobQueue, manager`inProgress, manager`accepted
      ensures manager.Valid()
      ensures user.None? ==> r == Err(AuthenticationRequired)
      ensures user.Some? && !IsLive(old(pool.db), id) ==> r == Err(BlobNotFound)
      ensures user.Some? && IsLive(old(pool.db), id) && !Readable(old(pool.db).blobs[id]) ==> r == Err(DatabaseError)
      ensures user.Some? && IsLive(old(pool.db), id) && Readable(old(pool.db).blobs[id])
              && old(pool.db).blobs[id].meta.ownerId != user.value.id ==>
                r == Err(NoPermission)
      ensures if user.Some? && IsLive(old(pool.db), id) && Readable(old(pool.db).blobs[id])
                 && old(pool.db).blobs[id].meta.ownerId == user.value.id then
                && pool.db == SoftDelete(old(pool.db), id) && !IsLive(pool.db, id)
                && manager.View() == Enqueue(old(manager.View()), Entry(id, old(pool.db).blobs[id].meta.hash))
                && r == (if exists peer :: Completes(old(pool.db), Key(id, peer)) then Err(DatabaseError) else Ok(true))
              else pool.db == old(pool.db) && manager.View() == old(manager.View())
    {
      if user.None? {
        return Err(AuthenticationRequired);
      }
      if !IsLive(pool.db, id) {
        return Err(BlobNotFound);
      }
      var blob := pool.db.blobs[id];
      if !Readable(blob) {
        return Err(DatabaseError);
      }
      if blob.meta.ownerId != user.value.id {
        return Err(NoPermission);
      }
      pool.db := SoftDelete(pool.db, id);
      manager.QueueBlobFetch(id, blob.meta.hash);
      RequeueNeverInserts(pool.db, id);
      assert forall peer :: Completes(pool.db, Key(id, peer)) <==> Completes(old(pool.db), Key(id, peer));
      var requeued := RequeueCompleted(pool.db, id);
      if requeued.None? {
        return Err(DatabaseError);
      }
      pool.db := requeued.value;
      return Ok(true);
    }

    /** `UserSchema::blobs`, given the rows that the query returned. */
    method Blobs(owner: Uuid, user: Option<User>, rows: seq<Row>) returns (r: Result<seq<BlobSchema>, ApiError>)
      requires ListsRows(pool.db, owner, rows)
      ensures user.None? ==> r == Err(AuthenticationRequired)
      ensures user.Some? ==> r == ListingFor(rows, user.value.privateKey)
    {
      if user.None? {
        return Err(AuthenticationRequired);
      }
      for i := 0 to |rows|
        invariant forall j | 0 <= j < i :: Readable(rows[j])
      {
        if !Readable(rows[i]) {
          return Err(DatabaseError);
        }
      }
      var imported := TryFrom(user.value.privateKey);
      if imported.Err? {
        return Err(CryptoFailure(imported.error));
      }
      var key := imported.value;
      WellFormedUsable(key);
      r := ShowRows(rows, key);
    }

    /** The loop over the rows. */
    method ShowRows(rows: seq<Row>, key: PrivateKey) returns (r: Result<seq<BlobSchema>, ApiError>)
      requires key.publicKey.prime > 1
      ensures r == ShowAll(rows, key)
    {
      var relatedPubkey := EncodedPublicKey(key.publicKey);
      var result: seq<BlobSchema> := [];
      assert rows[0..] == rows;
      PrependNothing(ShowAll(rows, key));
      for i := 0 to |rows|
        invariant ShowAll(rows, key) == Prepend(result, ShowAll(rows[i..], key))
      {
        ShowStep(rows, key, i, result);
        var content: Shown;
        if rows[i].meta.publicKey == relatedPubkey {
          var outcome := ElGamal.Decrypt(rows[i].content, key);
          if outcome.Error? {
            return Err(CryptoFailure(outcome.error));
          }
          if outcome.Panicked? {
            return Err(CryptoPanic);
          }
          content := Plain(outcome.bytes);
        } else {
          content := Encoded(Base64.Encode(rows[i].content));
        }
        result := result + [BlobSchema(rows[i].meta, content)];
      }
      assert rows[|rows|..] == [] && result + [] == result;
      return Ok(result);
    }
  }

  lemma ShowStep(rows: seq<Row>, key: PrivateKey, i: nat, done: seq<BlobSchema>)
    requires key.publicKey.prime > 1 && i < |rows|
    ensures Prepend(done, ShowAll(rows[i..], key)) ==
            match Show(rows[i], key)
            case Err(e) => Err(e)
            case Ok(first) => Prepend(done + [first], ShowAll(rows[i + 1..], key))
  {
    assert rows[i..][0] == rows[i] && rows[i..][1..] == rows[i + 1..];
    if Show(rows[i], key).Ok? {
      PrependTwice(done, [Show(rows[i], key).value], ShowAll(rows[i + 1..], key));
    }
  }
}

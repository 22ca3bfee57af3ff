# Blob codec and blob sync, modelled and proved

A data-availability node stores encrypted text blobs for its users and copies them to its
peers. This project models the two parts of the system that are hard to get right, and links
them by one end-to-end theorem.

* **The codec** (`crypto`): a text is cut into little-endian 32-bit chunks, each chunk is
  encrypted with ElGamal over a fixed 254-bit modulus, and the ciphertexts are written as a
  count followed by length-prefixed integers. Decryption parses that stream with a running
  offset, undoes the arithmetic, unpacks the bytes and strips trailing zero bytes.
* **The sync protocol** (`da-node`): every node has a queue of blobs to fetch, a set of ids in
  progress, a set of peers, a table of blobs with soft deletion and a table of sync statuses.
  User requests, peer requests, the polling loop and the fetch tasks interleave freely.

## How it is modelled

| files | contents |
|---|---|
| `LittleEndian`, `Modular`, `Base64`, `Utf8` | the arithmetic and the encodings the codec calls, as real functions: nothing is assumed about them, and the modulus is not assumed to be prime |
| `Keypair`, `Framing`, `ElGamal`, `Codec` | keys and the cipher; the byte layout and its parser; the loops of `encrypt` and `decrypt`; what encrypting and decrypting gives for every input |
| `Store`, `SyncQueue`, `FetchTask` | SQL statements as functions on tables; the queue; one fetch task statement by statement, and as a plain loop |
| `SyncManager`, `PeerService`, `UserApi` | the classes of one node, methods proved against those functions |
| `Network`, `Steps`, `Alone` | N nodes as a transition system: every section under the write lock, every SQL statement and every hand-over of a message is one step; what each step reads and answers; and what the steps of one activity do when nothing comes between |
| `NodeInvariant`, `Safety`, `Theorems`, `Provenance`, `Oversized`, `Records`, `Deletions`, `Statuses`, `Rounds`, `Delivery`, `Announcements`, `EndToEnd` | the inductive invariants, and the guarantees for every run |
| `Scenario` | runs of two nodes in which the protocol does not do what it is meant to |

The network and the classes are built from the same functions, so a statement has one
definition whether it is run on its own or interleaved.

## Assumptions

* Nodes are honest, a node id leads to the node that has it, and a node calls only nodes of
  the network. A call can fail only before the called node has begun to serve it; a call that
  is served gets its answer. No node crashes and no task panics. The transport sets a bound
  that this hides: tonic 0.12 decodes messages of at most 4 MiB unless told otherwise, and
  nothing tells it, so a larger reply is lost after it was served and recorded.
* Database statements fail only on a taken primary key, and on reading a whole row whose size
  does not fit. SQLite itself refuses values above its own limit (10^9 bytes by default, and
  never more than 2^31 - 1), and the HTTP layer may bound the size of a request; these limits
  are not part of the model. Blob ids are one abstract type, whichever way they are bound to a query. A
  fresh id has never been used before.
* `usize` has 64 bits, so no offset of the parser overflows.
* The digest is a parameter of the network (`Config.sha`). It is never assumed to be free of
  collisions.
* Random numbers, fresh ids, the orders of hash maps and of query results, and the answers of
  peers (for a task run on its own) are parameters: every theorem holds for all of them.

## Where the code does not do what it is meant to

* The codec is documented for any string, and its tests expect strings to come back as they
  were. That holds exactly on the domain `Codec.RoundTrips`. Outside it, an aligned group of
  four zero bytes makes decryption panic (`Codec.ZeroGroupPanics`, smallest text:
  `Codec.NulPanics`), and zero bytes at the end of a text are lost (`Codec.TrailingZeroLost`).
* Deleting a blob is meant to requeue it for the peers that have it. The statement that does
  so selects only keys that are taken, so it never inserts a row, and it makes the request
  fail after the deletion if and only if some peer has the blob (`Store.RequeueNeverInserts`;
  a run in which it does: `Scenario.DeletionFails`). What the request does queue is a fetch of
  the blob just deleted, which stores nothing (`Scenario.DeletedIsFetched`,
  `Theorems.CheckThenInsert`). A deletion reaches no other node (`Deletions.LiveUntilDeleted`).
* A received blob is rejected only when both its computed and its claimed hash differ from the
  expected one, and its id is not looked at. A fetch that stores therefore leaves the blob
  asked for if and only if the answer has that id and both hashes (`FetchTask.StoredIsAsked`;
  answers for which it does not: `FetchTask.WrongContentStored`, `FetchTask.WrongIdStored`).
  Among honest nodes all three always agree (`Theorems.NeverMismatched`).
* A recorded `completed` is not kept. An entry stays completed if and only if none of four
  statements of its own node is run for it (`Statuses.CompletedExactly`,
  `Statuses.CompletedUntilUndone`): a task marking its peers, a task about to call the peer, a
  task whose call failed or gave a blob it rejects, and an announcer writing down an answer. In
  `Scenario.CompletedUndone` the last of these undoes an entry that is right.
* An announcement that arrives while a task for the blob is running is accepted but queues
  nothing. It can be lost if and only if that task will not come to the announcing peer and
  the blob is not there (`Announcements.AnnouncementNotLost`; a run in which it is lost:
  `Scenario.AnnouncementLost`). The announcing node leaves its entry for the peer pending, so
  it offers the blob again in a later announcing pass.
* `add_blob` stores the row before it reads the size back as a 32-bit integer. A larger size,
  which every text from 858993457 bytes on has, is then reported as an error although the row
  is stored (`Oversized.LongTextStored`). While that row is live the owner can neither delete the blob
  nor list any blob (`EndToEnd.ListingOutcome`), and no other node ever hears of it
  (`Oversized.UnreadableIsStuck`). This is what the code as written does; the limits named
  above may keep a deployed node from storing such a row in the first place.

## Model

| member | source | states |
|---|---|---|
| `LittleEndian.ToBytesLe` | crypto/src/elgamal.rs:56-57 | the bytes written for a component read back as that component, and there is at least one |
| `LittleEndian.ToBytesLeBound` | crypto/src/elgamal.rs:56-60 | a residue below 256^k takes between 1 and k bytes |
| `LittleEndian.FromBytesLeInjective` | crypto/src/elgamal.rs:125-144 | two byte strings of one length that read as the same number are equal |
| `LittleEndian.U32Truncates` | crypto/src/elgamal.rs:51-52 | the cast to `u32` keeps the value modulo 2^32 and nothing else |
| `LittleEndian.U32Bytes` | crypto/src/elgamal.rs:157-160 | the masks and shifts of the unpacking loop yield the four little-endian bytes of the chunk |
| `LittleEndian.BitOrDisjoint` | crypto/src/elgamal.rs:30-32 | or-ing in bits above all those already set is addition |
| `Modular.ModPow` | crypto/src/keypair.rs:32 | repeated squaring computes the power modulo m |
| `Modular.ModInv` | crypto/src/keypair.rs:70-72 | returns an inverse, and `None` only when no inverse exists |
| `Modular.PowerOfTwoInvertible` | crypto/src/keypair.rs:26-38 | every power of the generator is invertible modulo any odd modulus, prime or not |
| `Base64.DecodeEncode` | crypto/src/keypair.rs:55-57 | decoding an encoded byte string gives it back |
| `Base64.EncodeDecode` | crypto/src/keypair.rs:84-86 | only canonical texts are accepted: one that decodes is the encoding of its value |
| `Base64.EncodeInjective` | crypto/src/keypair.rs:120-122 | different byte strings have different encodings |
| `Base64.SymbolOfTable` | crypto/src/keypair.rs:55-57 | the symbols of the 64 values are those of table 1 of RFC 4648 |
| `Base64.GroupBits` | crypto/src/keypair.rs:55-57 | four symbols are the 24 bits of three bytes, cut from the most significant end |
| `Base64.EncodeByGroups` | crypto/src/keypair.rs:55-57 | bytes are encoded three by three, and one or two left over as if zeros followed, with padding in their place |
| `Utf8.ValidExact` | crypto/src/elgamal.rs:168 | a byte string is accepted exactly when it is the encoding of some code points other than surrogates |
| `Keypair.ImportAccepts` | crypto/src/keypair.rs:26-44 | an import succeeds exactly on base64 texts; the number in the text modulo the prime is the private exponent, and 2 to that power modulo the prime the public one |
| `Keypair.SameKeyImported` | crypto/src/keypair.rs:81-89 | two texts import as one key exactly when their numbers agree modulo the prime |
| `Keypair.ImportExport` | crypto/src/keypair.rs:55-57 | exporting a key and importing the text rebuilds exponent and public key |
| `Keypair.ExportedKeys` | crypto/src/keypair.rs:120-122 | exported texts hold the bytes of the private exponent, and of 2 to that power modulo the prime |
| `Keypair.EncodedKeyIdentifies` | crypto/src/keypair.rs:120-122 | encoded public keys are equal exactly when the public keys are |
| `Keypair.Encrypt` | crypto/src/keypair.rs:93-117 | succeeds exactly on messages below the modulus, and both components are residues |
| `Keypair.CiphertextExact` | crypto/src/keypair.rs:105-114 | with y the random number modulo p - 1 and x the private exponent, the ciphertext of m is 2^y and m * 2^(x*y) modulo p |
| `Keypair.SharedSecretAgrees` | crypto/src/keypair.rs:111 | sender and holder derive the same secret, one from the public key, the other from c1 |
| `Keypair.DecryptSolves` | crypto/src/keypair.rs:60-78 | succeeds exactly when c1^x is invertible, then returns the one m below p with m * c1^x = c2 modulo p, and otherwise `InvalidCiphertext` |
| `Keypair.DecryptEncrypt` | crypto/src/keypair.rs:60-117 | decryption undoes encryption for every message below the modulus, every key with that public key and every random draw, over any odd modulus |
| `Keypair.PrimeBounds` | crypto/src/keypair.rs:15-16 | the modulus is odd, above 2^32 and below 256^32 |
| `Framing.ReadFrameExact` | crypto/src/elgamal.rs:103-148 | one turn of the parser accepts exactly the bytes of one frame that lie inside the data |
| `Framing.ParseExact` | crypto/src/elgamal.rs:88-148 | the parser accepts exactly the data that begin with a serialized list, and returns that list and the offset behind it |
| `Framing.ParseSerialized` | crypto/src/elgamal.rs:49-66 | a serialized list followed by any tail parses to that list |
| `Framing.FrameAt` | crypto/src/elgamal.rs:51-65 | a serialized list begins with the count, and the four fields of each frame lie behind the frames before it |
| `Framing.ParseEnd` | crypto/src/elgamal.rs:99-148 | the final offset is 4 plus 8 and both lengths for each ciphertext, and lies inside the data |
| `Framing.TruncationDetected` | crypto/src/elgamal.rs:88-141 | a prefix is accepted exactly when it reaches the final offset, and then gives the same list; any earlier cut is an error |
| `ElGamal.StripUnique` | crypto/src/elgamal.rs:163-166 | popping trailing zeros yields the one prefix not ending in zero behind which all is zero |
| `ElGamal.UnpackChunks` | crypto/src/elgamal.rs:27-34 | unpacking the chunks of a byte string gives it back, padded with zeros to a multiple of four |
| `ElGamal.PackChunk` | crypto/src/elgamal.rs:29-32 | the packing loop computes the little-endian value of the chunk |
| `ElGamal.SplitChunks` | crypto/src/elgamal.rs:27-34 | the chunking loop yields the chunks of the input in order |
| `ElGamal.EncryptChunks` | crypto/src/elgamal.rs:39-47 | encrypting a chunk never fails, and each ciphertext is that of its chunk under its own random number |
| `ElGamal.EncryptAll` | crypto/src/elgamal.rs:39-47 | the encrypting loop yields those ciphertexts |
| `ElGamal.WriteCiphertexts` | crypto/src/elgamal.rs:49-66 | the writing loop yields the serialized list |
| `ElGamal.Encrypt` | crypto/src/elgamal.rs:21-72 | the loops together compute `Encrypted`, about which the `Codec` theorems are stated |
| `ElGamal.ReadOne` | crypto/src/elgamal.rs:104-147 | one turn of the offset parser, with its bounds checks, reads the frame at the offset or fails |
| `ElGamal.ReadCiphertexts` | crypto/src/elgamal.rs:88-148 | the reading loop rejects with `InvalidCiphertext` what the parser rejects, and else yields its ciphertexts |
| `ElGamal.DecryptAll` | crypto/src/elgamal.rs:150-153 | the decrypting loop takes the low digit of each plaintext, stops at the first error, and panics at a plaintext zero |
| `ElGamal.UnpackAll` | crypto/src/elgamal.rs:155-161 | the unpacking loop yields the four bytes of each chunk in order |
| `ElGamal.Decrypt` | crypto/src/elgamal.rs:84-180 | the loops together compute `Decrypted`, about which the `Codec` theorems are stated |
| `Codec.ParseWritten` | crypto/src/elgamal.rs:51-66 | of a written list, as many leading ciphertexts are read as the truncated count says |
| `Codec.FrameExact` | crypto/src/elgamal.rs:27-47 | the i-th ciphertext is that of the i-th group of four bytes read as a little-endian number, under the i-th random number |
| `Codec.EncryptedLayout` | crypto/src/elgamal.rs:49-66 | an encrypted blob is the number of chunks followed by these ciphertexts, each with its first component before its second |
| `Codec.DecryptedExact` | crypto/src/elgamal.rs:84-180 | the outcome of decrypting arbitrary data: unparsable, without plaintext, zero, text of the lowest 32 bits of the plaintexts, or not UTF-8 |
| `Codec.DecryptedEncrypted` | crypto/src/elgamal.rs:21-180 | the outcome of encrypting and decrypting, for every input, every pair of keys that match and all random numbers |
| `Codec.StrippedRoundTrip` | crypto/src/elgamal.rs:150-179 | below 2^32 chunks: a panic if some aligned group is all zero, else the input without trailing zeros if that is UTF-8, else a decoding error |
| `Codec.WrappedRoundTrip` | crypto/src/elgamal.rs:51-52 | with 2^32 chunks or more the input never comes back |
| `Codec.RoundTrip` | crypto/src/elgamal.rs:21-180 | an input comes back if and only if it has fewer than 2^32 chunks, no all-zero group, no trailing zero, and is UTF-8 |
| `Codec.LibraryRoundTrip` | crypto/src/elgamal.rs:21-180 | the same for every key the library builds, from any exponent |
| `Codec.ZeroChunks` | crypto/src/elgamal.rs:150-153 | a zero chunk arises exactly from an aligned group of zero bytes |
| `Codec.ZeroGroupPanics` | crypto/src/elgamal.rs:152 | one all-zero aligned group, anywhere, makes decryption panic |
| `Codec.NulPanics` | crypto/src/elgamal.rs:152 | the text of one zero byte is such an input |
| `Codec.TrailingZeroLost` | crypto/src/elgamal.rs:163-166 | a concrete text that comes back shorter |
| `Codec.TruncatedBlobRejected` | crypto/src/elgamal.rs:88-141 | every strict prefix of an encrypted blob is rejected with `InvalidCiphertext`, under any key |
| `Codec.SizeBounds` | crypto/src/elgamal.rs:49-66 | n chunks take between 4 + 10n and 4 + 72n bytes, which fits the `i32` size field for texts of up to 119304644 bytes |
| `Store.RequeueNeverInserts` | da-node/src/user_api/mod.rs:208-216 | the last statement of a deletion never changes the table, and fails exactly when some peer is completed |
| `SyncQueue.EnqueueKeeps` | da-node/src/node_api/sync.rs:74-79 | queueing keeps the discipline: ids in progress are those queued and those running, disjoint and without duplicates, and accepted entries are those popped followed by those queued |
| `SyncQueue.TakeBatchKeeps` | da-node/src/node_api/sync.rs:115-130 | popping a batch keeps it, and takes distinct ids from the front that no task is running for |
| `SyncQueue.ReleaseKeeps` | da-node/src/node_api/sync.rs:149-153 | giving an id back keeps it |
| `FetchTask.SoloIsFetch` | da-node/src/node_api/sync.rs:171-248 | the task as separate statements, undisturbed, ends with the tables and the result of the plain loop |
| `FetchTask.FetchPresent` | da-node/src/node_api/sync.rs:190-198 | a fetch finds nothing to do exactly when there is a row that is not deleted, and then marks every peer as pending |
| `FetchTask.FetchAbsent` | da-node/src/node_api/sync.rs:190-247 | with no row or a deleted one it stores the first blob it can, runs out, or meets a taken id, each exactly |
| `FetchTask.FetchAbsentMarks` | da-node/src/node_api/sync.rs:201-247 | it then leaves every peer it got to as its answer calls for, and the others as they were |
| `FetchTask.FetchStores` | da-node/src/node_api/sync.rs:201-247 | the loop stores the blob of the first peer with an acceptable answer and changes no other row; it runs out exactly when there is none; it fails exactly when that id is taken |
| `FetchTask.FetchMarks` | da-node/src/node_api/sync.rs:201-243 | peers tried in vain end failed, or pending if only metadata was missing; the peer stored from is the only one completed |
| `FetchTask.FetchTouches` | da-node/src/node_api/sync.rs:201-247 | peers the loop does not get to, and other blobs, keep their entries |
| `FetchTask.StoredIsAsked` | da-node/src/node_api/sync.rs:322-338 | whatever the peers answer, a fetch that stores leaves the blob asked for if and only if the answer has its id, its claimed hash and its computed hash |
| `FetchTask.WrongContentStored` | da-node/src/node_api/sync.rs:322 | a concrete answer with other content but the expected claimed hash that is stored |
| `FetchTask.WrongIdStored` | da-node/src/node_api/sync.rs:359-365 | a concrete answer that is stored under another id while the one asked for is still missing |
| `FetchTask.MarkAllExact` | da-node/src/node_api/sync.rs:190-198 | for a blob already present every peer becomes pending, completed ones too, and nothing else changes |
| `SyncNode.SyncManager.constructor` | da-node/src/node_api/sync.rs:35-64 | the handshake loop keeps exactly the peers that answered with an id, and queue and ids in progress are empty |
| `SyncNode.SyncManager.AddPeer` | da-node/src/node_api/sync.rs:67-71 | the peer is added, nothing else changes |
| `SyncNode.SyncManager.QueueBlobFetch` | da-node/src/node_api/sync.rs:74-79 | an id in progress is ignored, any other goes to the back of the queue; the discipline is kept |
| `SyncNode.SyncManager.PopBatch` | da-node/src/node_api/sync.rs:119-129 | the popping loop takes the first entries in order, up to the limit |
| `SyncNode.SyncManager.FetchAndStoreBlob` | da-node/src/node_api/sync.rs:171-248 | the nested loops change the tables as `Fetch` says, for arbitrary answers of the peers, and find nothing to do exactly when there is a row that is not deleted |
| `SyncNode.SyncManager.ProcessSyncQueue` | da-node/src/node_api/sync.rs:113-168 | one round fetches each entry of the batch and gives every id back however its fetch ended |
| `SyncNode.SyncManager.AnnounceBlob` | da-node/src/node_api/sync.rs:282-294 | calls exactly the known peers not recorded as having the blob, and sets those reached to pending |
| `SyncNode.SyncManager.AnnounceBlobs` | da-node/src/node_api/sync.rs:251-298 | the same for all listed blobs, with every other entry and every row unchanged and no completed entry undone; only live blobs are announced; if a listed row cannot be read it fails before any call |
| `PeerService.SyncService.HandleAnnounce` | da-node/src/node_api/server.rs:45-85 | a live blob is refused and the queue left alone, any other is accepted and then in progress; without metadata nothing happens |
| `PeerService.SyncService.HandleFetch` | da-node/src/node_api/server.rs:88-142 | a deleted or missing row is not sent; a live one is sent as it is, with or without content, and an existing entry of the requester becomes completed; a row too large to be read makes the request fail without effect |
| `PeerService.SyncService.HandleDelete` | da-node/src/node_api/server.rs:145-166 | the blob is not live afterwards, no row is removed, and no other row or status changes |
| `PeerService.SyncService.HandleHandshake` | da-node/src/node_api/server.rs:242-259 | the caller becomes a peer and learns the node's id |
| `UserApi.Api.AddBlob` | da-node/src/user_api/mod.rs:138-176 | every outcome with its effect on table and queue, including the row that is stored although its size cannot be read back |
| `UserApi.Api.DeleteBlob` | da-node/src/user_api/mod.rs:178-219 | every outcome with its effect: a row that cannot be read cannot be deleted, only the owner deletes, the id is queued, and the request fails in the end exactly when some peer has the blob |
| `UserApi.ShowAllExact` | da-node/src/user_api/types.rs:122-133 | a listing succeeds exactly when every row can be shown, and then shows each in its place |
| `UserApi.Api.ShowRows` | da-node/src/user_api/types.rs:122-131 | the loop over the rows computes that listing |
| `UserApi.Api.Blobs` | da-node/src/user_api/types.rs:107-134 | the listing with its errors in the order of the code: no user, a row that cannot be read, a key that does not import |
| `Alone.AnnouncerIsLoop` | da-node/src/node_api/sync.rs:282-294 | the separate steps of announcing a blob, undisturbed, do what the loop over its peers does |
| `Alone.LoopAnnounces` | da-node/src/node_api/sync.rs:282-294 | that loop makes pending exactly the known, reachable peers not recorded as having the blob, as the method does |
| `Alone.AddAloneExact` | da-node/src/user_api/mod.rs:152-173 | the steps of adding a blob insert its row, and queue its id if and only if the row can be read back |
| `Alone.DeleteAloneExact` | da-node/src/user_api/mod.rs:192-216 | the three steps of deleting a blob delete its row, queue its id and leave the statuses as they were |
| `Alone.ServeAloneExact` | da-node/src/node_api/client.rs:106-128 | the two steps of serving a fetch change the peer's tables as the handler's contract says, and answer the caller with the client's reading of the handler's response |
| `Alone.OfferAloneExact` | da-node/src/node_api/client.rs:87-104 | the two steps of an announcement change the receiver's queue as the handler's contract says, and its response is one the client takes as acknowledged |
| `Steps.ListedExact` | da-node/src/node_api/sync.rs:382-397 | the blobs listed to announce are live, have an entry that is not completed and carry the hash of their row; when fewer than 100 are listed, none such is missing |
| `Steps.TargetsExact` | da-node/src/node_api/sync.rs:399-413 | the peers turned to for a blob are those with an entry that is not completed |
| `Steps.SelectExact` | da-node/src/node_api/server.rs:94-128 | a peer without a live row answers that there is none, one with a row too large to be read fails, any other sends its own row |
| `Steps.CheckExact` | da-node/src/node_api/server.rs:54-64 | a receiver with a live row refuses an announcement at once and its queue stays as it is |
| `Steps.DeleteSelectExact` | da-node/src/user_api/mod.rs:181-190 | a request to delete goes ahead exactly for a live, readable row of the user who makes it |
| `Steps.MintExact` | da-node/src/user_api/mod.rs:141-165 | an added row carries the user's content type and metadata, and the hash, size and key of its content |
| `NodeInvariant.StepNodeKeeps` | da-node/src/node_api/sync.rs:81-298 | every local step of a node keeps its invariant, changes rows only by deleting them, and completes only a peer whose blob it stored |
| `Safety.MarkKeeps` | da-node/src/node_api/server.rs:130-141 | recording the requester as completed and replying keeps the network invariant |
| `Safety.NextKeeps` | da-node/src/node_api/sync.rs:81-298 | every step of every node keeps the network invariant and takes back no row |
| `Theorems.RunKeeps` | da-node/src/node_api/sync.rs:95-109 | so does every run, and rows never disappear between two of its states |
| `Theorems.CompletedMeansHeld` | da-node/src/node_api/server.rs:306-328 | in every reachable state, where a records completed for b, b has a row for the blob or its task for it has a's reply on the way or in hand |
| `Theorems.Agreement` | da-node/src/node_api/server.rs:106-128 | any two rows for one id agree in metadata and content, and the hash is that of the content |
| `Theorems.HashesAgree` | da-node/src/node_api/sync.rs:270-272 | every hash queued, expected or announced anywhere equals the one in the rows for that id |
| `Theorems.NeverMismatched` | da-node/src/node_api/sync.rs:310-339 | a blob handed to a task is the one asked for, so the mismatch branch is unreachable |
| `Theorems.CheckThenInsert` | da-node/src/node_api/sync.rs:190-228 | the INSERT of a task never meets a live row, and fails exactly when its check met a deleted one |
| `Theorems.QueueDiscipline` | da-node/src/node_api/sync.rs:74-79 | in every reachable state ids in progress are the disjoint union of queued and running, queued ids are distinct, accepted entries are popped then queued ones, tasks do not exceed the limit, and between rounds every popped id has left the ids in progress |
| `Theorems.PollSpawnsAll` | da-node/src/node_api/sync.rs:138-159 | every popped entry gets a task of its own with its own hash |
| `Theorems.DeletionPermanent` | da-node/src/node_api/sync.rs:359-376 | a soft-deleted row is the same in every later state |
| `Provenance.RowStems` | da-node/src/user_api/mod.rs:152-165 | every row on any node is what some `add_blob` earlier in the run made, with the content type, metadata and owner given there, and on that same node if it cannot be read |
| `Oversized.SizeIsLength` | da-node/src/user_api/types.rs:33 | a row can be read exactly when its content has fewer than 2^31 bytes |
| `Oversized.UnreadableIsStuck` | da-node/src/user_api/mod.rs:152-173 | a row that cannot be read is on the node it was added on and no other, and no node has queued, announced, fetched or recorded anything for it |
| `Oversized.LongTextStored` | da-node/src/user_api/mod.rs:144-165 | adding any text of 858993457 bytes or more leaves a live row that is not queued, cannot be deleted by its owner and is sent to nobody |
| `Oversized.LoopNeverStops` | da-node/src/node_api/sync.rs:95-109 | the query for blobs to announce never meets such a row, so the error that would end the sync loop never occurs |
| `Records.StoredIsRecorded` | da-node/src/node_api/sync.rs:227-231 | a task that ended by storing leaves the row and a completed entry for its source, whatever ran in between |
| `Deletions.OnlyDeletionsChangeRows` | da-node/src/node_api/server.rs:293-303 | no step changes a row except the delete statement for it on its own node |
| `Deletions.DeletedForGood` | da-node/src/user_api/mod.rs:192-198 | after its delete statement a blob is live on that node in no later state |
| `Deletions.LiveUntilDeleted` | da-node/src/user_api/mod.rs:192-198 | a live row stays live and unchanged if and only if no delete statement for it is run on its own node |
| `Deletions.OnlyOwnersDelete` | da-node/src/user_api/mod.rs:188-198 | a row is deleted on behalf of a user only after the owner of that row has asked for it on that node |
| `Statuses.CompletedExactly` | da-node/src/node_api/sync.rs:193-242 | after any step an entry is completed if and only if the step recorded it, or it was completed and the step is none of the four that undo it |
| `Statuses.CompletedUntilUndone` | da-node/src/node_api/sync.rs:284-287 | over any run an entry stays completed if and only if no step undoes it |
| `Statuses.ServedIsRecorded` | da-node/src/node_api/server.rs:130-141 | whenever a task has a peer's blob, the peer served that very blob, the task has held it since, and an entry the peer then had for the caller has been completed ever since if and only if no step undid it |
| `Rounds.RoundCanEnd` | da-node/src/node_api/sync.rs:141-165 | from every reachable state in which a round is under way, steps of its tasks and the answers to them lead to its end |
| `Delivery.PoppedInTime` | da-node/src/node_api/sync.rs:119-129 | an entry at position k is being fetched, or its row is there, once k / max + 1 rounds have begun |
| `Delivery.RoundsAlternate` | da-node/src/node_api/sync.rs:95-99 | over any run, rounds of a node begin and end in turn |
| `Delivery.BoundedDelivery` | da-node/src/node_api/sync.rs:113-168 | once k / max + 1 further rounds have ended the node holds a row for the blob, whatever is queued meanwhile and however other peers fail |
| `Delivery.AcceptedIsInProgress` | da-node/src/node_api/server.rs:71-74 | an accepted announcement leaves the blob queued or running |
| `Announcements.AnnouncedIsDelivered` | da-node/src/node_api/server.rs:71-84 | an accepted announcement leads to a row within a number of rounds known then, unless the holder deletes the blob, the call to it fails, or a running task will not come to it |
| `Announcements.AnnouncementNotLost` | da-node/src/node_api/sync.rs:74-79 | an accepted announcement can be lost, with nothing disrupting it, if and only if a task is running that will not come to the announcing peer and the blob is not there |
| `Scenario.AnnouncementLost` | da-node/src/node_api/sync.rs:74-79 | for every text of up to 119304644 bytes and every key, a run in which an announcement is accepted and the blob is neither there, nor queued, nor being fetched |
| `Scenario.CompletedUndone` | da-node/src/node_api/sync.rs:284-287 | for every text of up to 119304644 bytes and every key, a reachable state in which the next step undoes the entry of a peer that has the blob in hand |
| `Scenario.DeletionFails` | da-node/src/user_api/mod.rs:192-216 | for every text of up to 119304644 bytes and every key, a run from a reachable state in which the owner deletes a live blob and the last statement of the request fails |
| `Scenario.DeletedIsFetched` | da-node/src/user_api/mod.rs:200-206 | for every text of up to 119304644 bytes and every key, a reachable state in which a deleted blob has been fetched back from a peer and its INSERT meets the deleted row |
| `EndToEnd.KeyMatchSuffices` | da-node/src/user_api/types.rs:119-128 | if two keys encode the same public key, each decrypts what the other encrypted, with the same outcome |
| `EndToEnd.ReadersSeeTheText` | da-node/src/user_api/types.rs:124-131 | on any node, in any later state, decrypting a row for a reader with its encoded public key gives exactly the text added if and only if the text is in the codec's domain |
| `EndToEnd.OwnerCanRead` | da-node/src/user_api/mod.rs:141-163 | the key a blob was added with is such a reader |
| `EndToEnd.ListingOutcome` | da-node/src/user_api/types.rs:107-134 | the exact outcome of listing a user's blobs on any node: a row that cannot be read fails it, then a stored key that does not import, then the first text that cannot be decrypted, and else every row shows as decryption leaves its text |
| `EndToEnd.ListingExact` | da-node/src/user_api/types.rs:107-134 | the listing shows every text as it was added if and only if all rows can be read and all texts under the reader's key are in the codec's domain |

## Left out

- SyncNode.SyncManager.ProcessSyncQueue: runs the tasks of a round one after the other; their interleaving is in module Network, where each statement of a task is a step of its own.
- SyncNode.SyncManager.AnnounceBlobs: runs without interference; in module Network a status read and the update after the call are separate steps, and a completed entry set in between is overwritten there.
- Statuses.ServedIsRecorded: says nothing of the entry when the serving node had none for the requester, because the statement then updates no row.
- Delivery.BoundedDelivery: counts rounds, not time; that a round does end is shown to be always possible (`Rounds.RoundCanEnd`), not that the scheduler lets it. The round in progress at the start does not count.
- Keys over a modulus below 2^32, on which `encrypt` would panic: no constructor builds one, and the codec's methods require that there is none.
- Message loss after a request was served, crashes, restarts, task panics and dishonest peers.
- Liveness of announcing: the query for blobs to announce is limited to 100 in no stated order, so delivery starts at an accepted announcement.
- Secrecy of the cipher, quality of the random numbers, key generation, registration and login.
- gRPC transport, connection handling, node addresses, the status and node-info requests, GraphQL getters, data loaders, configuration, logging and startup beyond the handshakes.
- The SQL engine, triggers, timestamps and retry counts; of `deleted_at` only whether it is set is kept, and the hash column, which is always written, is not optional.
- SHA-256 itself, and the kinds of base64 decoding error, which the code turns into one error.
- The memory that a large declared count of ciphertexts reserves before the first bounds check.

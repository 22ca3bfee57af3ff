// From the text a user adds on one node to the text a reader sees on another.
module EndToEnd {
  import opened Wrappers
  import opened LittleEndian
  import opened Keypair
  import opened ElGamal
  import opened Codec
  import opened Store
  import opened Network
  import opened Safety
  import opened Theorems
  import opened UserApi
  import Base64

  /** A matching encoded public key is all a reader needs: the private keys may differ. */
  lemma KeyMatchSuffices(sender: PrivateKey, reader: PrivateKey, text: Bytes, randoms: seq<nat>)
    requires WellFormed(sender) && WellFormed(reader)
    requires EncodedPublicKey(sender.publicKey) == EncodedPublicKey(reader.publicKey)
    requires |randoms| == ChunkCount(|text|)
    ensures sender.publicKey.prime >= U32_LIMIT && reader.publicKey.prime > 1
    ensures Decrypted(Encrypted(text, sender, randoms), reader) == RoundTripOutcome(text)
    ensures Decrypted(Encrypted(text, sender, randoms), reader) == Text(text) <==> RoundTrips(text)
  {
    EncodedKeyIdentifies(sender, reader);
    WellFormedUsable(sender);
    WellFormedUsable(reader);
    DecryptedEncrypted(text, sender, reader, randoms);
    OutcomeIsInput(text);
  }

  /** What a reader with a matching key sees of a row as it was minted. */
  lemma ShowMinted(sha: Bytes -> Hash, mint: Mint, row: Row, reader: PrivateKey)
    requires MintOk(sha, mint) && row.meta == mint.meta && row.content == mint.content
    requires WellFormed(reader) && row.meta.publicKey == EncodedPublicKey(reader.publicKey)
    ensures reader.publicKey.prime > 1
    ensures Show(row, reader) == Ok(BlobSchema(row.meta, Plain(mint.text))) <==> RoundTrips(mint.text)
  {
    KeyMatchSuffices(mint.key, reader, mint.text, mint.randoms);
  }

  /** The history keeps what was handed to `add_blob`. */
  lemma AddedIsMinted(cfg: Config, s: Network, e: Event, s': Network)
    requires e.step.AddBlob? && Next(cfg, s, e, s')
    ensures e.step.id in s'.minted
    ensures var mint := s'.minted[e.step.id];
            && mint.text == e.step.input.text && mint.meta.ownerId == e.step.input.owner
            && TryFrom(e.step.input.privateKey) == Ok(mint.key)
  {
    var AddBlob(id, input, randoms) := e.step;
    AddUnfolds(cfg, s, e.node, id, input, randoms);
    WellFormedUsable(TryFrom(input.privateKey).value);
  }

  lemma RowIsMinted(cfg: Config, states: seq<Network>, events: seq<Event>, i: nat, j: nat, n: NodeId)
    requires IsRun(cfg, states, events) && Init(cfg, states[0]) && i < j <= |events| && events[i].step.AddBlob?
    requires n in states[j].nodes && events[i].step.id in states[j].nodes[n].db.blobs
    ensures var AddBlob(id, input, _) := events[i].step;
            var row := states[j].nodes[n].db.blobs[id];
            && id in states[j].minted && MintOk(cfg.sha, states[j].minted[id])
            && row.meta == states[j].minted[id].meta && row.content == states[j].minted[id].content
            && states[j].minted[id].text == input.text && row.meta.ownerId == input.owner
            && TryFrom(input.privateKey) == Ok(states[j].minted[id].key)
  {
    var id := events[i].step.id;
    AddedIsMinted(cfg, states[i], events[i], states[i + 1]);
    InitInv(cfg, states[0]);
    RunKeeps(cfg, states, events, 0, i + 1);
    RunKeeps(cfg, states, events, i + 1, j);
    RunMints(cfg, states, events, j);
    TablesOk(cfg, states[j], n);
  }

  /**
   * Wherever a blob has got to, and however it got there, a reader whose encoded public key
   * is that of the row sees exactly the text that was added, if and only if the text is in
   * the domain of the codec; and the row still belongs to the user who added it.
   */
  lemma ReadersSeeTheText(cfg: Config, states: seq<Network>, events: seq<Event>, i: nat, j: nat,
                          n: NodeId, reader: PrivateKey)
    requires IsRun(cfg, states, events) && Init(cfg, states[0]) && i < j <= |events| && events[i].step.AddBlob?
    requires n in states[j].nodes && events[i].step.id in states[j].nodes[n].db.blobs
    requires WellFormed(reader)
    requires states[j].nodes[n].db.blobs[events[i].step.id].meta.publicKey == EncodedPublicKey(reader.publicKey)
    ensures reader.publicKey.prime > 1
    ensures var AddBlob(id, input, _) := events[i].step;
            var row := states[j].nodes[n].db.blobs[id];
            && row.meta.ownerId == input.owner
            && (Show(row, reader) == Ok(BlobSchema(row.meta, Plain(input.text))) <==> RoundTrips(input.text))
  {
    var id := events[i].step.id;
    RowIsMinted(cfg, states, events, i, j, n);
    ShowMinted(cfg.sha, states[j].minted[id], states[j].nodes[n].db.blobs[id], reader);
  }

  /** The key with which a blob was added is such a reader, on every node that has the blob. */
  lemma OwnerCanRead(cfg: Config, states: seq<Network>, events: seq<Event>, i: nat, j: nat, n: NodeId)
    requires IsRun(cfg, states, events) && Init(cfg, states[0]) && i < j <= |events| && events[i].step.AddBlob?
    requires n in states[j].nodes && events[i].step.id in states[j].nodes[n].db.blobs
    ensures TryFrom(events[i].step.input.privateKey).Ok?
    ensures var key := TryFrom(events[i].step.input.privateKey).value;
            && WellFormed(key)
            && states[j].nodes[n].db.blobs[events[i].step.id].meta.publicKey == EncodedPublicKey(key.publicKey)
  {
    RowIsMinted(cfg, states, events, i, j, n);
  }

  /** A row of the listing whose key is the reader's. */
  predicate Mine(row: Row, reader: PrivateKey) {
    row.meta.publicKey == EncodedPublicKey(reader.publicKey)
  }

  /** The text a row was made from; every row of a reachable state has one. */
  function TextOf(s: Network, row: Row): Bytes {
    if row.meta.id in s.minted then s.minted[row.meta.id].text else []
  }

  /** What the listing ought to show for a row. */
  function Intended(s: Network, row: Row, reader: PrivateKey): BlobSchema {
    BlobSchema(row.meta, if Mine(row, reader) then Plain(TextOf(s, row)) else Encoded(Base64.Encode(row.content)))
  }

  /** ... and for all rows. */
  function IntendedAll(s: Network, rows: seq<Row>, reader: PrivateKey): (shown: seq<BlobSchema>)
    ensures |shown| == |rows|
    ensures forall i | 0 <= i < |rows| :: shown[i] == Intended(s, rows[i], reader)
  {
    seq(|rows|, i requires 0 <= i < |rows| => Intended(s, rows[i], reader))
  }

  /** What becomes of a row in the listing, told from the text it was made from. */
  function ShownAs(s: Network, row: Row, reader: PrivateKey): Result<BlobSchema, ApiError> {
    if !Mine(row, reader) then Ok(BlobSchema(row.meta, Encoded(Base64.Encode(row.content))))
    else
      match RoundTripOutcome(TextOf(s, row))
      case Text(text) => Ok(BlobSchema(row.meta, Plain(text)))
      case Error(e) => Err(CryptoFailure(e))
      case Panicked => Err(CryptoPanic)
  }

  lemma ShowOutcome(cfg: Config, s: Network, n: NodeId, row: Row, reader: PrivateKey)
    requires Reachable(cfg, s) && n in s.nodes && WellFormed(reader)
    requires row.meta.id in s.nodes[n].db.blobs && s.nodes[n].db.blobs[row.meta.id] == row
    ensures reader.publicKey.prime > 1
    ensures Show(row, reader) == ShownAs(s, row, reader)
    ensures ShownAs(s, row, reader) == Ok(Intended(s, row, reader)) <==> (Mine(row, reader) ==> RoundTrips(TextOf(s, row)))
  {
    WellFormedUsable(reader);
    RowIsOfMint(cfg, s, n, row.meta.id);
    ShowMint(cfg.sha, s.minted[row.meta.id], row, reader);
    ShownAsIntended(s, row, reader);
  }

  lemma RowIsOfMint(cfg: Config, s: Network, n: NodeId, id: Uuid)
    requires Reachable(cfg, s) && HasRow(s.nodes, n, id)
    ensures id in s.minted && MintOk(cfg.sha, s.minted[id])
    ensures s.nodes[n].db.blobs[id].meta == s.minted[id].meta && s.nodes[n].db.blobs[id].content == s.minted[id].content
  {
    ReachableTables(cfg, s, n);
    ReachableMints(cfg, s);
  }

  lemma ShownAsIntended(s: Network, row: Row, reader: PrivateKey)
    ensures ShownAs(s, row, reader) == Ok(Intended(s, row, reader)) <==> (Mine(row, reader) ==> RoundTrips(TextOf(s, row)))
  {
    OutcomeIsInput(TextOf(s, row));
  }

  lemma ShowMint(sha: Bytes -> Hash, mint: Mint, row: Row, reader: PrivateKey)
    requires MintOk(sha, mint) && row.meta == mint.meta && row.content == mint.content
    requires WellFormed(reader) && reader.publicKey.prime > 1
    ensures Mine(row, reader) ==> Decrypted(row.content, reader) == RoundTripOutcome(mint.text)
  {
    if Mine(row, reader) {
      KeyMatchSuffices(mint.key, reader, mint.text, mint.randoms);
    }
  }

  /** The index of the first error, or the length when there is none. */
  function FirstError(outcomes: seq<Result<BlobSchema, ApiError>>): (n: nat)
    ensures n <= |outcomes|
    ensures forall i | 0 <= i < n :: outcomes[i].Ok?
    ensures n < |outcomes| ==> outcomes[n].Err?
  {
    if outcomes == [] || outcomes[0].Err? then 0 else 1 + FirstError(outcomes[1..])
  }

  /** All values in order, or the first error. */
  function Gather(outcomes: seq<Result<BlobSchema, ApiError>>): Result<seq<BlobSchema>, ApiError> {
    var n := FirstError(outcomes);
    if n < |outcomes| then Err(outcomes[n].error)
    else Ok(seq(|outcomes|, i requires 0 <= i < |outcomes| => outcomes[i].value))
  }

  lemma {:induction false} ShowAllGathers(rows: seq<Row>, reader: PrivateKey, outcomes: seq<Result<BlobSchema, ApiError>>)
    requires reader.publicKey.prime > 1 && |outcomes| == |rows|
    requires forall i | 0 <= i < |rows| :: Show(rows[i], reader) == outcomes[i]
    ensures ShowAll(rows, reader) == Gather(outcomes)
  {
    if rows != [] {
      ShowAllGathers(rows[1..], reader, outcomes[1..]);
      GatherFirst(outcomes);
    } else {
      assert Gather(outcomes).value == [];
    }
  }

  lemma GatherFirst(outcomes: seq<Result<BlobSchema, ApiError>>)
    requires outcomes != []
    ensures Gather(outcomes) == if outcomes[0].Err? then Err(outcomes[0].error)
                                else Prepend([outcomes[0].value], Gather(outcomes[1..]))
  {
    if outcomes[0].Ok? && Gather(outcomes).Ok? {
      assert FirstError(outcomes[1..]) == |outcomes[1..]|;
      assert Gather(outcomes).value == [outcomes[0].value] + Gather(outcomes[1..]).value;
    }
  }

  /**
   * The listing of a user's blobs on any node, in every case: a row too large to be read fails
   * it, then a stored key that does not import, a text outside the domain of the codec shows as decryption leaves it or fails it with
   * the first such error in the order of the rows, and every other row shows as intended.
   */
  lemma ListingOutcome(cfg: Config, s: Network, n: NodeId, owner: Uuid, rows: seq<Row>, privateKey: string)
    requires Reachable(cfg, s) && n in s.nodes && ListsRows(s.nodes[n].db, owner, rows)
    ensures ListingFor(rows, privateKey) ==
            if exists i :: 0 <= i < |rows| && !Readable(rows[i]) then Err(DatabaseError)
            else if TryFrom(privateKey).Err? then Err(CryptoFailure(TryFrom(privateKey).error))
            else Gather(seq(|rows|, i requires 0 <= i < |rows| => ShownAs(s, rows[i], TryFrom(privateKey).value)))
  {
    if TryFrom(privateKey).Ok? {
      RowsGather(cfg, s, n, owner, rows, TryFrom(privateKey).value);
    }
  }

  lemma RowsGather(cfg: Config, s: Network, n: NodeId, owner: Uuid, rows: seq<Row>, reader: PrivateKey)
    requires Reachable(cfg, s) && n in s.nodes && ListsRows(s.nodes[n].db, owner, rows)
    requires WellFormed(reader) && reader.publicKey.prime > 1
    ensures ShowAll(rows, reader) == Gather(seq(|rows|, i requires 0 <= i < |rows| => ShownAs(s, rows[i], reader)))
  {
    forall i | 0 <= i < |rows|
      ensures Show(rows[i], reader) == ShownAs(s, rows[i], reader)
    {
      ShowOutcome(cfg, s, n, rows[i], reader);
    }
    ShowAllGathers(rows, reader, seq(|rows|, i requires 0 <= i < |rows| => ShownAs(s, rows[i], reader)));
  }

  /**
   * It shows every blob under the reader's key as the text it was added with, and every other
   * as base64 of its ciphertext, exactly when all rows can be read and all texts under the
   * reader's key are in the domain of the codec.
   */
  lemma ListingExact(cfg: Config, s: Network, n: NodeId, owner: Uuid, rows: seq<Row>, privateKey: string)
    requires Reachable(cfg, s) && n in s.nodes && ListsRows(s.nodes[n].db, owner, rows)
    requires TryFrom(privateKey).Ok?
    ensures var reader := TryFrom(privateKey).value;
            ListingFor(rows, privateKey) == Ok(IntendedAll(s, rows, reader)) <==>
            && (forall i | 0 <= i < |rows| :: Readable(rows[i]))
            && (forall i | 0 <= i < |rows| && Mine(rows[i], reader) :: RoundTrips(TextOf(s, rows[i])))
  {
    var reader := TryFrom(privateKey).value;
    WellFormedUsable(reader);
    forall i | 0 <= i < |rows|
      ensures Show(rows[i], reader) == Ok(Intended(s, rows[i], reader)) <==>
              (Mine(rows[i], reader) ==> RoundTrips(TextOf(s, rows[i])))
    {
      ShowOutcome(cfg, s, n, rows[i], reader);
    }
    ListingPointwise(rows, reader, IntendedAll(s, rows, reader));
  }

  lemma ListingPointwise(rows: seq<Row>, reader: PrivateKey, wanted: seq<BlobSchema>)
    requires reader.publicKey.prime > 1 && |wanted| == |rows|
    ensures ShowAll(rows, reader) == Ok(wanted) <==>
            forall i | 0 <= i < |rows| :: Show(rows[i], reader) == Ok(wanted[i])
  {
    ShowAllExact(rows, reader);
    if forall i | 0 <= i < |rows| :: Show(rows[i], reader) == Ok(wanted[i]) {
      assert ShowAll(rows, reader).value == wanted;
    }
  }
}

// Rows whose size does not fit the field it is read into: `add_blob` stores them and then
// fails, and from then on they are of no use to anybody.
module Oversized {
  import opened LittleEndian
  import opened Keypair
  import opened ElGamal
  import opened Codec
  import opened Store
  import opened SyncQueue
  import opened FetchTask
  import opened Network
  import opened NodeInvariant
  import opened Safety
  import opened Theorems
  import opened Provenance

  /** Nothing in the node refers to the blob. */
  ghost predicate Unknown(node: Node, id: Uuid) {
    && (forall key | key in node.db.status :: key.blob != id)
    && id !in node.tasks && id !in node.queue.inProgress
    && (forall hash :: !Circulates(node, Entry(id, hash)))
  }

  /** What a node refers to can be read. */
  lemma KnownReadable(maxSyncs: nat, minted: map<Uuid, Mint>, node: Node, id: Uuid)
    requires NodeInv(maxSyncs, minted, node)
    ensures Unknown(node, id) || IsReadable(minted, id)
  {
    if id in node.tasks {
      assert TaskOk(minted, node.db.blobs, id, node.tasks[id]);
    }
    if hash: Hash :| Circulates(node, Entry(id, hash)) {
      CirculatesOk(maxSyncs, minted, node, Entry(id, hash));
    }
    if e: Entry :| e in node.queue.entries && e.id == id {
      assert EntryOk(minted, e);
    }
  }

  lemma UnknownEverywhere(cfg: Config, s: Network, id: Uuid)
    requires NodesOk(cfg, s) && !IsReadable(s.minted, id)
    ensures forall m | m in s.nodes :: Unknown(s.nodes[m], id)
  {
    forall m | m in s.nodes
      ensures Unknown(s.nodes[m], id)
    {
      KnownReadable(cfg.maxSyncs(m), s.minted, s.nodes[m], id);
    }
  }

  /**
   * In every reachable state, a row that cannot be read is on the node where it was added and
   * on no other, and no node has queued, announced, fetched or recorded anything for it.
   */
  lemma UnreadableIsStuck(cfg: Config, s: Network, n: NodeId, id: Uuid)
    requires Reachable(cfg, s) && HasRow(s.nodes, n, id) && !Readable(s.nodes[n].db.blobs[id])
    ensures id in s.minted && s.minted[id].origin == n
    ensures forall m | HasRow(s.nodes, m, id) :: m == n
    ensures forall m | m in s.nodes :: Unknown(s.nodes[m], id)
  {
    ReachableTables(cfg, s, n);
    ReachableAtHome(cfg, s);
    ReachableInv(cfg, s);
    UnknownEverywhere(cfg, s, id);
  }

  /** So such a row is never among those to announce, and the sync loop of no node ever stops. */
  lemma LoopNeverStops(cfg: Config, s: Network, n: NodeId)
    requires Reachable(cfg, s) && n in s.nodes
    ensures s.nodes[n].pc != Stopped
  {
    ReachableInv(cfg, s);
    assert NodeInv(cfg.maxSyncs(n), s.minted, s.nodes[n]);
  }

  /** The size of a row is that of its content. */
  lemma SizeIsLength(cfg: Config, s: Network, n: NodeId, id: Uuid)
    requires Reachable(cfg, s) && HasRow(s.nodes, n, id)
    ensures Readable(s.nodes[n].db.blobs[id]) <==> |s.nodes[n].db.blobs[id].content| < I32_LIMIT
  {
    ReachableTables(cfg, s, n);
    ReachableMints(cfg, s);
    MintSize(cfg.sha, s.minted, id);
  }

  lemma MintSize(sha: Bytes -> Hash, minted: map<Uuid, Mint>, id: Uuid)
    requires MintsOk(sha, minted) && id in minted
    ensures minted[id].meta.size == |minted[id].content|
  {
    assert MintOk(sha, minted[id]);
  }

  lemma LongTextUnreadable(sha: Bytes -> Hash, n: NodeId, id: Uuid, input: NewBlob, randoms: seq<nat>)
    requires |randoms| == ChunkCount(|input.text|) && MintBlob(sha, n, id, input, randoms).Some?
    ensures |input.text| >= OVERSIZE_LENGTH ==> !Readable(MintedRow(MintBlob(sha, n, id, input, randoms).value))
    ensures |input.text| <= SAFE_LENGTH ==> Readable(MintedRow(MintBlob(sha, n, id, input, randoms).value))
  {
    var key := TryFrom(input.privateKey).value;
    WellFormedUsable(key);
    SizeBounds(input.text, key, randoms);
  }

  /**
   * There are such rows: in any state, adding any text of 858993457 bytes or more leaves one.
   * It is live, but its owner cannot delete it, it is sent to no peer, and it is not queued.
   */
  lemma LongTextStored(cfg: Config, s: Network, n: NodeId, id: Uuid, input: NewBlob, randoms: seq<nat>)
    requires Reachable(cfg, s) && n in s.nodes && id !in s.minted
    requires |randoms| == ChunkCount(|input.text|) && TryFrom(input.privateKey).Ok?
    requires |input.text| >= OVERSIZE_LENGTH
    ensures Add(cfg, s, n, id, input, randoms).Some?
    ensures var node := Add(cfg, s, n, id, input, randoms).value.nodes[n];
            && IsLive(node.db, id) && !Readable(node.db.blobs[id])
            && node.queue == s.nodes[n].queue && node.ops == s.nodes[n].ops
            && Reply(node.db, id) == CallError
            && forall user :: StepNode(cfg, cfg.maxSyncs(n), node, DeleteSelect(id, user)).None?
  {
    ReachableInv(cfg, s);
    FreshAt(cfg, s, n, id);
    LongTextUnreadable(cfg.sha, n, id, input, randoms);
    LongTextAdded(cfg, s, n, id, input, randoms);
  }

  lemma LongTextAdded(cfg: Config, s: Network, n: NodeId, id: Uuid, input: NewBlob, randoms: seq<nat>)
    requires n in s.nodes && id !in s.minted && id !in s.nodes[n].db.blobs
    requires |randoms| == ChunkCount(|input.text|) && MintBlob(cfg.sha, n, id, input, randoms).Some?
    requires !Readable(MintedRow(MintBlob(cfg.sha, n, id, input, randoms).value))
    ensures Add(cfg, s, n, id, input, randoms).Some?
    ensures var node := Add(cfg, s, n, id, input, randoms).value.nodes[n];
            && IsLive(node.db, id) && !Readable(node.db.blobs[id])
            && node.queue == s.nodes[n].queue && node.ops == s.nodes[n].ops
  {
    var mint := MintBlob(cfg.sha, n, id, input, randoms).value;
    MintedId(cfg.sha, n, id, input, randoms);
    AddFolds(cfg, s, n, id, input, randoms);
    assert s.nodes[n].ops + AfterInsert(mint) == s.nodes[n].ops;
  }

  lemma MintedId(sha: Bytes -> Hash, n: NodeId, id: Uuid, input: NewBlob, randoms: seq<nat>)
    requires |randoms| == ChunkCount(|input.text|) && MintBlob(sha, n, id, input, randoms).Some?
    ensures MintBlob(sha, n, id, input, randoms).value.meta.id == id
  {
  }
}

// What the steps of module Network read and answer, told in terms of the rows and entries of
// the tables alone.
module Steps {
  import LittleEndian
  import opened Wrappers
  import opened Store
  import opened SyncQueue
  import opened FetchTask
  import opened ElGamal
  import opened Keypair
  import opened Network

  /** The row is there and not deleted. */
  predicate LiveRow(db: Database, id: Uuid) {
    id in db.blobs && !db.blobs[id].deleted
  }

  /** Some peer has an entry for the blob that is not completed. */
  ghost predicate Wanted(db: Database, id: Uuid) {
    exists peer :: Key(id, peer) in db.status && db.status[Key(id, peer)] != Completed
  }

  lemma ShareableExact(db: Database, id: Uuid)
    ensures id in Shareable(db) <==> LiveRow(db, id) && Wanted(db, id)
  {
    if id in Shareable(db) {
      var peer :| peer in PendingPeers(db, id);
      assert Key(id, peer) in db.status;
    }
    if peer :| Key(id, peer) in db.status && db.status[Key(id, peer)] != Completed {
      assert peer in PendingPeers(db, id);
    }
  }

  /**
   * What a node lists to announce: live rows only, with their own hashes, each with an entry
   * that is not completed; and when fewer than 100 are listed, every such row is among them.
   */
  lemma ListedExact(cfg: Config, maxSyncs: nat, node: Node, blobs: seq<Entry>)
    requires StepNode(cfg, maxSyncs, node, AnnounceList(blobs)).Some?
    ensures |blobs| <= 100 && DistinctIds(blobs)
    ensures forall i | 0 <= i < |blobs| ::
              && LiveRow(node.db, blobs[i].id) && Wanted(node.db, blobs[i].id)
              && blobs[i].hash == node.db.blobs[blobs[i].id].meta.hash
    ensures |blobs| < 100 ==> forall id | LiveRow(node.db, id) && Wanted(node.db, id) :: id in Ids(blobs)
  {
    forall i | 0 <= i < |blobs|
      ensures LiveRow(node.db, blobs[i].id) && Wanted(node.db, blobs[i].id)
    {
      ShareableExact(node.db, blobs[i].id);
    }
    if |blobs| < 100 {
      DistinctCount(blobs);
      assert Ids(blobs) <= Shareable(node.db);
      SameSize(Ids(blobs), Shareable(node.db));
      forall id | LiveRow(node.db, id) && Wanted(node.db, id)
        ensures id in Ids(blobs)
      {
        ShareableExact(node.db, id);
      }
    }
  }

  lemma {:induction false} DistinctCount(entries: seq<Entry>)
    requires DistinctIds(entries)
    ensures |Ids(entries)| == |entries|
  {
    if entries != [] {
      DistinctCount(entries[1..]);
      assert Ids(entries) == {entries[0].id} + Ids(entries[1..]);
    }
  }

  /** A part of a set that is as large as the set is the set. */
  lemma SameSize(a: set<Uuid>, b: set<Uuid>)
    requires a <= b && |a| == |b|
    ensures a == b
  {
    if x :| x in b && x !in a {
      assert a <= b - {x};
      SmallerSubset(a, b - {x});
    }
  }

  lemma {:induction false} SmallerSubset(a: set<Uuid>, b: set<Uuid>)
    requires a <= b
    ensures |a| <= |b|
    decreases |a|
  {
    if x :| x in a {
      SmallerSubset(a - {x}, b - {x});
    }
  }

  /** The peers a node turns to for a blob: each that has an entry that is not completed, once. */
  lemma TargetsExact(cfg: Config, maxSyncs: nat, node: Node, order: seq<NodeId>, peer: NodeId)
    requires StepNode(cfg, maxSyncs, node, AnnounceTargets(order)).Some?
    ensures node.pc.NextBlob? && node.pc.blobs != [] && Distinct(order)
    ensures var key := Key(node.pc.blobs[0].id, peer);
            peer in order <==> key in node.db.status && node.db.status[key] != Completed
    ensures var after := StepNode(cfg, maxSyncs, node, AnnounceTargets(order)).value.pc;
            after == NextPeer(Announcer(node.pc.peers, node.pc.blobs[1..], node.pc.blobs[0], order))
  {
    var id := node.pc.blobs[0].id;
    assert peer in order <==> peer in (set p | p in order);
    assert peer in PendingPeers(node.db, id) <==> Key(id, peer) in node.db.status && node.db.status[Key(id, peer)] != Completed;
  }

  /** What a called peer finds: nothing if it has no live row, an error if the row is too large, else its own row. */
  lemma SelectExact(s: Network, n: NodeId, id: Uuid)
    requires n in s.nodes && Select(s, n, id).Some?
    ensures id in s.nodes[n].tasks && s.nodes[n].tasks[id].phase.Calling? && s.nodes[n].tasks[id].phase.peer in s.nodes
    ensures var Calling(peer, rest) := s.nodes[n].tasks[id].phase;
            var (db, s') := (s.nodes[peer].db, Select(s, n, id).value);
            && s'.nodes.Keys == s.nodes.Keys && id in s'.nodes[n].tasks
            && s'.nodes[n].tasks[id].phase ==
                 (if !LiveRow(db, id) then Answered(peer, rest, NotFound)
                  else if db.blobs[id].meta.size >= 0x8000_0000 then Answered(peer, rest, CallError)
                  else Serving(peer, rest, ProtoBlob(Some(db.blobs[id].meta), db.blobs[id].content)))
            && forall m | m in s.nodes :: s'.nodes[m].db == s.nodes[m].db && s'.nodes[m].queue == s.nodes[m].queue
  {
  }

  /** A receiver with a live row refuses an announcement at once, and its queue stays as it is. */
  lemma CheckExact(s: Network, n: NodeId)
    requires n in s.nodes && Check(s, n).Some?
    ensures s.nodes[n].pc.Offering? && s.nodes[n].pc.to in s.nodes
    ensures var Offering(a, to) := s.nodes[n].pc;
            var s' := Check(s, n).value;
            && s'.nodes.Keys == s.nodes.Keys
            && s'.nodes[n].pc == (if LiveRow(s.nodes[to].db, a.current.id) then Acked(a, to) else Offered(a, to))
            && forall m | m in s.nodes :: s'.nodes[m].queue == s.nodes[m].queue && s'.nodes[m].db == s.nodes[m].db
  {
  }

  /** A request to delete goes ahead exactly for a live, readable row of the user who makes it. */
  lemma DeleteSelectExact(cfg: Config, maxSyncs: nat, node: Node, id: Uuid, user: Uuid)
    ensures StepNode(cfg, maxSyncs, node, DeleteSelect(id, user)).Some? <==>
            LiveRow(node.db, id) && node.db.blobs[id].meta.size < 0x8000_0000 && node.db.blobs[id].meta.ownerId == user
    ensures StepNode(cfg, maxSyncs, node, DeleteSelect(id, user)).Some? ==>
              StepNode(cfg, maxSyncs, node, DeleteSelect(id, user)).value ==
                node.(ops := node.ops + multiset{MarkDeleted(Entry(id, node.db.blobs[id].meta.hash))})
    ensures StepNode(cfg, maxSyncs, node, RemoteDeleteSelect(id)).Some? <==> LiveRow(node.db, id)
  {
  }

  /** The row of an added blob carries what the user gave, and the key's, the content's and the digest's own values. */
  lemma MintExact(cfg: Config, n: NodeId, id: Uuid, input: NewBlob, randoms: seq<nat>)
    requires |randoms| == ChunkCount(|input.text|)
    ensures MintBlob(cfg.sha, n, id, input, randoms).Some? <==> TryFrom(input.privateKey).Ok?
    ensures TryFrom(input.privateKey).Ok? ==>
              var (key, mint) := (TryFrom(input.privateKey).value, MintBlob(cfg.sha, n, id, input, randoms).value);
              && mint.origin == n && mint.text == input.text && mint.key == key
              && key.publicKey.prime >= LittleEndian.U32_LIMIT && mint.content == Encrypted(input.text, key, randoms)
              && mint.meta.id == id && mint.meta.ownerId == input.owner
              && mint.meta.contentType == input.contentType && mint.meta.metadata == input.metadata
              && mint.meta.hash == cfg.sha(mint.content) && mint.meta.size == |mint.content|
              && mint.meta.publicKey == EncodedPublicKey(key.publicKey)
  {
    if TryFrom(input.privateKey).Ok? {
      WellFormedUsable(TryFrom(input.privateKey).value);
    }
  }
}

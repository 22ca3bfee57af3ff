// The requests and the announcements of module Network, run with nothing in between:
// their steps then do together what the methods of the classes do in one go.
module Alone {
  import opened Wrappers
  import opened Store
  import opened SyncQueue
  import opened FetchTask
  import opened SyncNode
  import opened PeerService
  import opened ElGamal
  import opened Network
  import opened Safety

  // ---- Announcing a blob -------------------------------------------------------------

  /** The inner loop of an announcement: the targets that are known and reached become pending. */
  function MarkReached(db: Database, id: Uuid, targets: seq<NodeId>, peers: set<NodeId>, reachable: set<NodeId>): Database
    decreases |targets|
  {
    if targets == [] then db
    else
      var to := targets[0];
      var next := if to in peers && to in reachable then SetStatus(db, id, to, Pending) else db;
      MarkReached(next, id, targets[1..], peers, reachable)
  }

  /** The announcer's own next step, or the outcome of its call. */
  function AnnouncerStep(node: Node, reachable: set<NodeId>): Node
    requires node.pc.NextPeer? || node.pc.Offering? || node.pc.Acked?
  {
    if node.pc.Offering? then
      node.(pc := if node.pc.to in reachable then Acked(node.pc.a, node.pc.to) else NextPeer(node.pc.a))
    else
      AdvanceAnnouncer(node).value
  }

  /** Left alone, the announcer is done with the current blob within `n` steps, with the node as given. */
  ghost predicate AnnouncerEnds(node: Node, reachable: set<NodeId>, n: nat, end: Node)
    decreases n
  {
    if node.pc.NextBlob? then end == node
    else
      && n > 0 && (node.pc.NextPeer? || node.pc.Offering? || node.pc.Acked?)
      && AnnouncerEnds(AnnouncerStep(node, reachable), reachable, n - 1, end)
  }

  lemma {:induction false} AnnouncerLonger(node: Node, reachable: set<NodeId>, n: nat, m: nat, end: Node)
    requires n <= m && AnnouncerEnds(node, reachable, n, end)
    ensures AnnouncerEnds(node, reachable, m, end)
    decreases n
  {
    if !node.pc.NextBlob? {
      AnnouncerLonger(AnnouncerStep(node, reachable), reachable, n - 1, m - 1, end);
    }
  }

  /** The steps of the announcer do what its loop does. */
  lemma {:induction false} AnnouncerIsLoop(node: Node, reachable: set<NodeId>)
    requires node.pc.NextPeer?
    ensures var a := node.pc.a;
            AnnouncerEnds(node, reachable, 3 * |a.targets| + 1,
                          node.(db := MarkReached(node.db, a.current.id, a.targets, a.peers, reachable),
                                pc := NextBlob(a.peers, a.blobs)))
    decreases |node.pc.a.targets|
  {
    var a := node.pc.a;
    if a.targets != [] {
      var to, later := a.targets[0], a.(targets := a.targets[1..]);
      var rest := 3 * |later.targets| + 1;
      var end := node.(db := MarkReached(node.db, a.current.id, a.targets, a.peers, reachable),
                       pc := NextBlob(a.peers, a.blobs));
      var node1 := AnnouncerStep(node, reachable);
      if to !in a.peers {
        AnnouncerIsLoop(node1, reachable);
        AnnouncerLonger(node1, reachable, rest, rest + 2, end);
      } else {
        var node2 := AnnouncerStep(node1, reachable);
        if to !in reachable {
          AnnouncerIsLoop(node2, reachable);
          AnnouncerLonger(node2, reachable, rest, rest + 1, end);
        } else {
          AnnouncerIsLoop(AnnouncerStep(node2, reachable), reachable);
        }
        assert AnnouncerEnds(node2, reachable, rest + 1, end);
      }
      assert AnnouncerEnds(node1, reachable, rest + 2, end);
    }
  }

  lemma {:induction false} MarkReachedExact(db: Database, id: Uuid, targets: seq<NodeId>, peers: set<NodeId>,
                                            reachable: set<NodeId>, key: Key)
    ensures var after := MarkReached(db, id, targets, peers, reachable);
            && after.blobs == db.blobs && after.status.Keys == db.status.Keys
            && (key in db.status ==>
                  after.status[key] ==
                    if key.blob == id && key.peer in targets && key.peer in peers && key.peer in reachable then Pending
                    else db.status[key])
    decreases |targets|
  {
    if targets != [] {
      var to := targets[0];
      var next := if to in peers && to in reachable then SetStatus(db, id, to, Pending) else db;
      assert next.status.Keys == db.status.Keys;
      MarkReachedExact(next, id, targets[1..], peers, reachable, key);
      assert targets == [to] + targets[1..];
    }
  }

  /** With the pending peers as targets, that is what the method that announces a blob promises. */
  lemma LoopAnnounces(db: Database, id: Uuid, targets: seq<NodeId>, peers: set<NodeId>, reachable: set<NodeId>)
    requires Lists(targets, PendingPeers(db, id))
    ensures Announced(db, MarkReached(db, id, targets, peers, reachable), ToTell(db, {id}, peers), reachable)
  {
    var after := MarkReached(db, id, targets, peers, reachable);
    MarkReachedExact(db, id, targets, peers, reachable, Key(id, 0));
    forall key | key in after.status
      ensures after.status[key] ==
                if key in ToTell(db, {id}, peers) && key.peer in reachable then Pending else db.status[key]
    {
      MarkReachedExact(db, id, targets, peers, reachable, key);
      assert key.peer in (set peer | peer in targets) <==> key.peer in PendingPeers(db, id);
    }
  }

  // ---- Requests ------------------------------------------------------------------------

  /** Adding a blob: its row is inserted, and its id queued if the row can be read back. */
  function AddAlone(cfg: Config, s: Network, n: NodeId, id: Uuid, input: NewBlob, randoms: seq<nat>): Option<Node>
    requires n in s.nodes
  {
    match Add(cfg, s, n, id, input, randoms)
    case None => None
    case Some(s1) =>
      if n !in s1.nodes || id !in s1.nodes[n].db.blobs then None
      else
        var op := EnqueueAdded(Entry(id, s1.nodes[n].db.blobs[id].meta.hash));
        Some(if op in s1.nodes[n].ops && Readable(s1.nodes[n].db.blobs[id]) then
               RunOp(s1.nodes[n].(ops := s1.nodes[n].ops - multiset{op}), op)
             else s1.nodes[n])
  }

  lemma AddAloneExact(cfg: Config, s: Network, n: NodeId, id: Uuid, input: NewBlob, randoms: seq<nat>)
    requires n in s.nodes && Add(cfg, s, n, id, input, randoms).Some?
    ensures |randoms| == ChunkCount(|input.text|) && MintBlob(cfg.sha, n, id, input, randoms).Some?
    ensures id !in s.nodes[n].db.blobs
    ensures AddAlone(cfg, s, n, id, input, randoms) ==
            Some(AddedNode(s.nodes[n], MintBlob(cfg.sha, n, id, input, randoms).value))
  {
    AddUnfolds(cfg, s, n, id, input, randoms);
    WithRowQueued(s.nodes[n], MintBlob(cfg.sha, n, id, input, randoms).value);
  }

  /** The node with the row, and with its id queued if the row can be read back; nothing else is left to do. */
  function AddedNode(node: Node, mint: Mint): Node {
    node.(db := node.db.(blobs := node.db.blobs[mint.meta.id := MintedRow(mint)]),
          queue := if Readable(MintedRow(mint)) then Enqueue(node.queue, Entry(mint.meta.id, mint.meta.hash)) else node.queue)
  }

  lemma WithRowQueued(node: Node, mint: Mint)
    ensures var (added, op) := (WithRow(node, mint), EnqueueAdded(Entry(mint.meta.id, mint.meta.hash)));
            && (Readable(MintedRow(mint)) ==> op in added.ops)
            && AddedNode(node, mint) == if Readable(MintedRow(mint)) then RunOp(added.(ops := added.ops - multiset{op}), op)
                                        else added
  {
    var op := EnqueueAdded(Entry(mint.meta.id, mint.meta.hash));
    assert node.ops + multiset{op} - multiset{op} == node.ops;
    assert node.ops + multiset{} == node.ops;
  }

  /** Deleting a blob: the steps of the request, one after the other. */
  function DeleteAlone(node: Node, id: Uuid): Node
    requires id in node.db.blobs
  {
    var entry := Entry(id, node.db.blobs[id].meta.hash);
    var marked := RunOp(node, MarkDeleted(entry));
    var queued := RunOp(marked.(ops := marked.ops - multiset{EnqueueDeleted(entry)}), EnqueueDeleted(entry));
    RunOp(queued.(ops := queued.ops - multiset{Requeue(id)}), Requeue(id))
  }

  /** The row is deleted and the id queued, and nothing else is left of the request. */
  lemma DeleteAloneExact(node: Node, id: Uuid)
    requires id in node.db.blobs
    ensures DeleteAlone(node, id) ==
            node.(db := SoftDelete(node.db, id), queue := Enqueue(node.queue, Entry(id, node.db.blobs[id].meta.hash)))
  {
    var entry := Entry(id, node.db.blobs[id].meta.hash);
    assert node.ops + multiset{EnqueueDeleted(entry)} - multiset{EnqueueDeleted(entry)} == node.ops;
    assert node.ops + multiset{Requeue(id)} - multiset{Requeue(id)} == node.ops;
    RequeueNeverInserts(SoftDelete(node.db, id), id);
  }

  /** The call of a task is served in one go. */
  function ServeAlone(s: Network, n: NodeId, id: Uuid): Option<Network>
    requires n in s.nodes
  {
    match Select(s, n, id)
    case None => None
    case Some(s1) => if n in s1.nodes && Mark(s1, n, id).Some? then Mark(s1, n, id) else Some(s1)
  }

  /**
   * The peer's tables change and the caller is answered as the handler of the request and the
   * client's reading of its response say.
   */
  lemma ServeAloneExact(s: Network, n: NodeId, id: Uuid)
    requires n in s.nodes && ServeAlone(s, n, id).Some?
    ensures var (Calling(peer, rest), s') := (s.nodes[n].tasks[id].phase, ServeAlone(s, n, id).value);
            && peer in s.nodes && s'.nodes.Keys == s.nodes.Keys
            && var (db, response) := HandledFetch(s.nodes[peer].db, id, n, true);
               s'.nodes[peer].db == db && s'.nodes[n].tasks[id].phase == Answered(peer, rest, AnswerOf(response))
  {
    var peer := s.nodes[n].tasks[id].phase.peer;
    assert Reply(s.nodes[peer].db, id) == AnswerOf(HandledFetch(s.nodes[peer].db, id, n, true).1);
  }

  /** An announcement is handled in one go. */
  function OfferAlone(s: Network, n: NodeId): Option<Network>
    requires n in s.nodes
  {
    match Check(s, n)
    case None => None
    case Some(s1) => if n in s1.nodes && Accept(s1, n).Some? then Accept(s1, n) else Some(s1)
  }

  /**
   * The receiver's queue changes as the handler of the announcement says, for any metadata
   * with the id and the hash announced, and its response counts as an acknowledgement.
   */
  lemma OfferAloneExact(s: Network, n: NodeId, metadata: BlobMetadata)
    requires n in s.nodes && OfferAlone(s, n).Some?
    requires Entry(metadata.id, metadata.hash) == s.nodes[n].pc.a.current
    ensures var (Offering(a, to), s') := (s.nodes[n].pc, OfferAlone(s, n).value);
            && to in s.nodes && s'.nodes.Keys == s.nodes.Keys
            && var (queue, response) := HandledAnnounce(s.nodes[to].db, s.nodes[to].queue, Some(metadata));
               s'.nodes[to].queue == queue && Acknowledges(response) && s'.nodes[n].pc == Acked(a, to)
  {
    assert Entry(metadata.id, metadata.hash) == s.nodes[n].pc.a.current;
  }
}

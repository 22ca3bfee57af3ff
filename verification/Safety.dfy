// What holds in every reachable state of the network, under every interleaving.
module Safety {
  import opened Wrappers
  import opened Store
  import opened SyncQueue
  import opened FetchTask
  import opened ElGamal
  import opened Network
  import opened NodeInvariant

  // ---- The invariant ------------------------------------------------------------

  predicate NodesOk(cfg: Config, s: Network) {
    forall n | n in s.nodes :: NodeInv(cfg.maxSyncs(n), s.minted, s.nodes[n])
  }

  type Nodes = map<NodeId, Node>

  predicate HasRow(nodes: Nodes, n: NodeId, id: Uuid) {
    n in nodes && id in nodes[n].db.blobs
  }

  /** A blob handed to a task is in the table of the peer that handed it over. */
  ghost predicate SourcesOk(nodes: Nodes) {
    forall n, id, peer | n in nodes && Sourced(nodes[n], id, peer) :: HasRow(nodes, peer, id)
  }

  /** A peer recorded as `completed` has the row, or the reply with it. */
  ghost predicate CompletedOk(nodes: Nodes) {
    forall n, peer, id | n in nodes && peer in nodes && IsCompleted(nodes[n], id, peer) ::
      Justified(nodes[peer], id, n)
  }

  ghost predicate Inv(cfg: Config, s: Network) {
    && s.nodes.Keys == cfg.nodes
    && IdsOk(s.minted)
    && NodesOk(cfg, s)
    && SourcesOk(s.nodes)
    && CompletedOk(s.nodes)
  }

  ghost predicate Extends(minted: map<Uuid, Mint>, minted': map<Uuid, Mint>) {
    forall id | id in minted :: id in minted' && minted'[id] == minted[id]
  }

  /** What a step never takes back. */
  ghost predicate Grows(s: Network, s': Network) {
    && s'.nodes.Keys == s.nodes.Keys
    && (forall n | n in s.nodes :: RowsKept(s.nodes[n].db.blobs, s'.nodes[n].db.blobs))
    && Extends(s.minted, s'.minted)
  }

  // ---- Each step keeps it ---------------------------------------------------------

  lemma PutNodes(cfg: Config, s: Network, n: NodeId, node: Node)
    requires NodesOk(cfg, s) && n in s.nodes && NodeInv(cfg.maxSyncs(n), s.minted, node)
    ensures NodesOk(cfg, Put(s, n, node))
  {
  }

  lemma EvolveSources(nodes: Nodes, n: NodeId, node: Node)
    requires SourcesOk(nodes) && n in nodes && Evolves(nodes[n], node)
    ensures SourcesOk(nodes[n := node])
  {
    var nodes' := nodes[n := node];
    forall m, id, peer | m in nodes' && Sourced(nodes'[m], id, peer)
      ensures HasRow(nodes', peer, id)
    {
      assert Sourced(nodes[m], id, peer) && HasRow(nodes, peer, id);
    }
  }

  lemma EvolveCompleted(nodes: Nodes, n: NodeId, node: Node)
    requires SourcesOk(nodes) && CompletedOk(nodes) && n in nodes && Evolves(nodes[n], node)
    ensures CompletedOk(nodes[n := node])
  {
    var nodes' := nodes[n := node];
    forall m, peer, id | m in nodes' && peer in nodes' && IsCompleted(nodes'[m], id, peer)
      ensures Justified(nodes'[peer], id, m)
    {
      if !IsCompleted(nodes[m], id, peer) {
        assert Sourced(nodes[m], id, peer) && HasRow(nodes, peer, id);
      }
      assert Justified(nodes[peer], id, m);
    }
  }

  lemma EvolveKeeps(cfg: Config, s: Network, n: NodeId, node: Node)
    requires Inv(cfg, s) && n in s.nodes
    requires NodeInv(cfg.maxSyncs(n), s.minted, node) && Evolves(s.nodes[n], node)
    ensures Inv(cfg, Put(s, n, node)) && Grows(s, Put(s, n, node))
  {
    PutNodes(cfg, s, n, node);
    EvolveSources(s.nodes, n, node);
    EvolveCompleted(s.nodes, n, node);
    PutGrows(s, n, node);
  }

  lemma PutGrows(s: Network, n: NodeId, node: Node)
    requires n in s.nodes && RowsKept(s.nodes[n].db.blobs, node.db.blobs)
    ensures Grows(s, Put(s, n, node)) && Put(s, n, node).minted == s.minted
    ensures Put(s, n, node).nodes.Keys == s.nodes.Keys
  {
  }

  lemma LocalKeeps(cfg: Config, s: Network, n: NodeId, step: LocalStep)
    requires Inv(cfg, s) && n in s.nodes && StepNode(cfg, cfg.maxSyncs(n), s.nodes[n], step).Some?
    ensures var s' := Put(s, n, StepNode(cfg, cfg.maxSyncs(n), s.nodes[n], step).value);
            Inv(cfg, s') && Grows(s, s')
  {
    StepNodeKeeps(cfg, cfg.maxSyncs(n), s.minted, s.nodes[n], step);
    EvolveKeeps(cfg, s, n, StepNode(cfg, cfg.maxSyncs(n), s.nodes[n], step).value);
  }

  /** More blobs in the history do not disturb a node. */
  lemma MintedGrows(maxSyncs: nat, minted: map<Uuid, Mint>, minted': map<Uuid, Mint>, node: Node)
    requires NodeInv(maxSyncs, minted, node)
    requires Extends(minted, minted')
    ensures NodeInv(maxSyncs, minted', node)
  {
    assert PcOk(minted', node.pc);
    assert TasksOk(minted', node.db.blobs, node.tasks) by {
      forall id | id in node.tasks
        ensures TaskOk(minted', node.db.blobs, id, node.tasks[id])
      {
        assert TaskOk(minted, node.db.blobs, id, node.tasks[id]);
      }
    }
    assert OpsOk(minted', node.ops) by {
      forall op | op in node.ops
        ensures OpOk(minted', op)
      {
        assert OpOk(minted, op);
      }
    }
  }

  /** A row under a fresh id disturbs no task. */
  lemma TasksSurviveInsert(minted: map<Uuid, Mint>, blobs: map<Uuid, Row>, tasks: map<Uuid, Task>, id: Uuid, row: Row)
    requires TasksOk(minted, blobs, tasks) && id !in tasks
    ensures TasksOk(minted, blobs[id := row], tasks)
  {
    forall other | other in tasks
      ensures TaskOk(minted, blobs[id := row], other, tasks[other])
    {
      assert TaskOk(minted, blobs, other, tasks[other]);
    }
  }

  function WithRow(node: Node, mint: Mint): Node {
    var db := node.db.(blobs := node.db.blobs[mint.meta.id := MintedRow(mint)]);
    node.(db := db, ops := node.ops + AfterInsert(mint))
  }

  lemma UsedIsMinted(maxSyncs: nat, minted: map<Uuid, Mint>, node: Node, id: Uuid)
    requires NodeInv(maxSyncs, minted, node) && (id in node.db.blobs || id in node.tasks)
    ensures id in minted
  {
    if id in node.tasks {
      assert TaskOk(minted, node.db.blobs, id, node.tasks[id]);
    }
  }

  lemma FreshIsUnused(maxSyncs: nat, minted: map<Uuid, Mint>, node: Node, id: Uuid)
    requires NodeInv(maxSyncs, minted, node)
    ensures id !in minted ==> id !in node.db.blobs && id !in node.tasks
  {
    if id in node.db.blobs || id in node.tasks {
      UsedIsMinted(maxSyncs, minted, node, id);
    }
  }

  lemma AddRowKeeps(maxSyncs: nat, minted: map<Uuid, Mint>, node: Node, id: Uuid)
    requires NodeInv(maxSyncs, minted, node) && id in minted && minted[id].meta.id == id
    requires id !in node.db.blobs && id !in node.tasks
    ensures NodeInv(maxSyncs, minted, WithRow(node, minted[id])) && Evolves(node, WithRow(node, minted[id]))
  {
    var mint := minted[id];
    TasksSurviveInsert(minted, node.db.blobs, node.tasks, id, MintedRow(mint));
    QuietEvolves(node, WithRow(node, mint));
  }

  /** The history grows by a fresh id before the row is there. */
  lemma MintKeeps(cfg: Config, s: Network, id: Uuid, mint: Mint)
    requires Inv(cfg, s) && id !in s.minted && mint.meta.id == id
    ensures Inv(cfg, s.(minted := s.minted[id := mint]))
  {
    MintNodes(cfg, s, id, mint);
  }

  lemma MintNodes(cfg: Config, s: Network, id: Uuid, mint: Mint)
    requires NodesOk(cfg, s) && id !in s.minted
    ensures NodesOk(cfg, s.(minted := s.minted[id := mint]))
  {
    var minted' := s.minted[id := mint];
    assert Extends(s.minted, minted');
    forall n | n in s.nodes
      ensures NodeInv(cfg.maxSyncs(n), minted', s.nodes[n])
    {
      MintedGrows(cfg.maxSyncs(n), s.minted, minted', s.nodes[n]);
    }
  }

  lemma AddUnfolds(cfg: Config, s: Network, n: NodeId, id: Uuid, input: NewBlob, randoms: seq<nat>)
    requires n in s.nodes && Add(cfg, s, n, id, input, randoms).Some?
    ensures id !in s.minted && |randoms| == ChunkCount(|input.text|)
    ensures MintBlob(cfg.sha, n, id, input, randoms).Some?
    ensures var mint := MintBlob(cfg.sha, n, id, input, randoms).value;
            mint.meta.id == id && id !in s.nodes[n].db.blobs &&
            Add(cfg, s, n, id, input, randoms).value ==
              Put(s, n, WithRow(s.nodes[n], mint)).(minted := s.minted[id := mint])
  {
  }

  /** The statement succeeds whenever the stored key decodes and the id is fresh. */
  lemma AddFolds(cfg: Config, s: Network, n: NodeId, id: Uuid, input: NewBlob, randoms: seq<nat>)
    requires n in s.nodes && id !in s.minted && id !in s.nodes[n].db.blobs
    requires |randoms| == ChunkCount(|input.text|) && MintBlob(cfg.sha, n, id, input, randoms).Some?
    ensures var mint := MintBlob(cfg.sha, n, id, input, randoms).value;
            Add(cfg, s, n, id, input, randoms) ==
              Some(Put(s, n, WithRow(s.nodes[n], mint)).(minted := s.minted[id := mint]))
  {
  }

  lemma AddKeeps(cfg: Config, s: Network, n: NodeId, id: Uuid, input: NewBlob, randoms: seq<nat>)
    requires Inv(cfg, s) && n in s.nodes && Add(cfg, s, n, id, input, randoms).Some?
    ensures var s' := Add(cfg, s, n, id, input, randoms).value; Inv(cfg, s') && Grows(s, s')
  {
    AddUnfolds(cfg, s, n, id, input, randoms);
    MintedRowKeeps(cfg, s, n, id, MintBlob(cfg.sha, n, id, input, randoms).value);
  }

  function Remember(s: Network, mint: Mint): Network {
    s.(minted := s.minted[mint.meta.id := mint])
  }

  lemma MintedRowKeeps(cfg: Config, s: Network, n: NodeId, id: Uuid, mint: Mint)
    requires Inv(cfg, s) && n in s.nodes && id !in s.minted && mint.meta.id == id
    ensures var s' := Put(s, n, WithRow(s.nodes[n], mint)).(minted := s.minted[id := mint]);
            Inv(cfg, s') && Grows(s, s')
  {
    MintKeeps(cfg, s, id, mint);
    RememberGrows(s, mint);
    FreshAt(cfg, s, n, id);
    RememberedRow(cfg, Remember(s, mint), s, n, mint);
  }

  lemma RememberGrows(s: Network, mint: Mint)
    requires mint.meta.id !in s.minted
    ensures Grows(s, Remember(s, mint))
  {
  }

  lemma RememberedRow(cfg: Config, s1: Network, s: Network, n: NodeId, mint: Mint)
    requires Inv(cfg, s1) && Grows(s, s1) && s1 == Remember(s, mint) && n in s.nodes
    requires mint.meta.id !in s.nodes[n].db.blobs && mint.meta.id !in s.nodes[n].tasks
    ensures var s' := Remember(Put(s, n, WithRow(s.nodes[n], mint)), mint); Inv(cfg, s') && Grows(s, s')
  {
    RowKeeps(cfg, s1, n, mint.meta.id);
    GrowsTransitive(s, s1, Put(s1, n, WithRow(s1.nodes[n], mint)));
  }

  lemma FreshAt(cfg: Config, s: Network, n: NodeId, id: Uuid)
    requires NodesOk(cfg, s) && n in s.nodes && id !in s.minted
    ensures id !in s.nodes[n].db.blobs && id !in s.nodes[n].tasks
  {
    FreshIsUnused(cfg.maxSyncs(n), s.minted, s.nodes[n], id);
  }

  lemma RowKeeps(cfg: Config, s: Network, n: NodeId, id: Uuid)
    requires Inv(cfg, s) && n in s.nodes && id in s.minted
    requires id !in s.nodes[n].db.blobs && id !in s.nodes[n].tasks
    ensures var s' := Put(s, n, WithRow(s.nodes[n], s.minted[id])); Inv(cfg, s') && Grows(s, s')
  {
    AddRowKeeps(cfg.maxSyncs(n), s.minted, s.nodes[n], id);
    EvolveKeeps(cfg, s, n, WithRow(s.nodes[n], s.minted[id]));
  }

  lemma GrowsTransitive(a: Network, b: Network, c: Network)
    requires Grows(a, b) && Grows(b, c)
    ensures Grows(a, c)
  {
  }

  /** A node whose task for `id` only learns of a blob, or that there is none. */
  lemma GivePhase(maxSyncs: nat, minted: map<Uuid, Mint>, node: Node, id: Uuid, phase: Phase)
    requires NodeInv(maxSyncs, minted, node) && id in node.tasks
    requires node.tasks[id].phase.Calling? || node.tasks[id].phase.Serving?
    requires BetweenCheckAndInsert(phase)
    requires Given(phase).Some? ==> id in minted && Given(phase).value == ProtoOf(minted[id])
    ensures NodeInv(maxSyncs, minted, SetPhase(node, id, phase))
  {
    GivenPhaseOk(minted, node.db.blobs, id, node.tasks[id], phase);
    PhaseStep(maxSyncs, minted, node, id, phase);
  }

  lemma GivenPhaseOk(minted: map<Uuid, Mint>, blobs: map<Uuid, Row>, id: Uuid, task: Task, phase: Phase)
    requires TaskOk(minted, blobs, id, task)
    requires BetweenCheckAndInsert(task.phase) && BetweenCheckAndInsert(phase)
    requires Given(phase).Some? ==> Given(phase).value == ProtoOf(minted[id])
    ensures TaskOk(minted, blobs, id, task.(phase := phase))
  {
  }

  lemma GivePhaseGives(nodes: Nodes, n: NodeId, id: Uuid, phase: Phase)
    requires n in nodes && id in nodes[n].tasks
    requires nodes[n].tasks[id].phase.Calling? || nodes[n].tasks[id].phase.Serving?
    requires Source(phase).Some? ==> HasRow(nodes, Source(phase).value, id)
    ensures Gives(nodes, n, id, SetPhase(nodes[n], id, phase), Source(phase))
  {
  }

  /** A change of one task that keeps the tables, and what its new source must have. */
  ghost predicate Gives(nodes: Nodes, n: NodeId, id: Uuid, node': Node, source: Option<NodeId>)
    requires n in nodes
  {
    && node'.db == nodes[n].db
    && (forall other, peer :: Justified(nodes[n], other, peer) ==> Justified(node', other, peer))
    && (forall other, peer :: Sourced(node', other, peer) ==>
          Sourced(nodes[n], other, peer) || (other == id && source == Some(peer)))
    && (source.Some? ==> HasRow(nodes, source.value, id))
  }

  lemma GivesSources(nodes: Nodes, n: NodeId, id: Uuid, node': Node, source: Option<NodeId>)
    requires SourcesOk(nodes) && n in nodes && Gives(nodes, n, id, node', source)
    ensures SourcesOk(nodes[n := node'])
  {
    var nodes' := nodes[n := node'];
    forall m, other, peer | m in nodes' && Sourced(nodes'[m], other, peer)
      ensures HasRow(nodes', peer, other)
    {
      assert Sourced(nodes[m], other, peer) || (other == id && source == Some(peer));
      assert HasRow(nodes, peer, other);
    }
  }

  lemma GivesCompleted(nodes: Nodes, n: NodeId, id: Uuid, node': Node, source: Option<NodeId>)
    requires CompletedOk(nodes) && n in nodes && Gives(nodes, n, id, node', source)
    ensures CompletedOk(nodes[n := node'])
  {
    var nodes' := nodes[n := node'];
    forall m, peer, other | m in nodes' && peer in nodes' && IsCompleted(nodes'[m], other, peer)
      ensures Justified(nodes'[peer], other, m)
    {
      assert IsCompleted(nodes[m], other, peer);
      assert Justified(nodes[peer], other, m);
    }
  }

  /** The task may be given `phase`: it waits for it, and its blob is genuine. */
  ghost predicate MayGive(s: Network, n: NodeId, id: Uuid, phase: Phase) {
    && n in s.nodes && id in s.nodes[n].tasks
    && (s.nodes[n].tasks[id].phase.Calling? || s.nodes[n].tasks[id].phase.Serving?)
    && BetweenCheckAndInsert(phase)
    && (Given(phase).Some? ==> id in s.minted && Given(phase).value == ProtoOf(s.minted[id]))
    && (Source(phase).Some? ==> HasRow(s.nodes, Source(phase).value, id))
  }

  lemma GiveKeeps(cfg: Config, s: Network, n: NodeId, id: Uuid, phase: Phase)
    requires Inv(cfg, s) && MayGive(s, n, id, phase)
    ensures var s' := Put(s, n, SetPhase(s.nodes[n], id, phase)); Inv(cfg, s') && Grows(s, s')
  {
    var node' := SetPhase(s.nodes[n], id, phase);
    GivePhase(cfg.maxSyncs(n), s.minted, s.nodes[n], id, phase);
    GivePhaseGives(s.nodes, n, id, phase);
    PutNodes(cfg, s, n, node');
    GivesSources(s.nodes, n, id, node', Source(phase));
    GivesCompleted(s.nodes, n, id, node', Source(phase));
    PutGrows(s, n, node');
  }

  /** The two parts of a node's invariant that others rely on. */
  lemma TablesOk(cfg: Config, s: Network, n: NodeId)
    requires NodesOk(cfg, s) && n in s.nodes
    ensures RowsOk(s.minted, s.nodes[n].db.blobs)
    ensures TasksOk(s.minted, s.nodes[n].db.blobs, s.nodes[n].tasks)
  {
    assert NodeInv(cfg.maxSyncs(n), s.minted, s.nodes[n]);
  }

  /** What a node sends for a live row is the blob as it was minted. */
  lemma LookUpOk(minted: map<Uuid, Mint>, db: Database, id: Uuid, peer: NodeId, rest: seq<NodeId>)
    requires RowsOk(minted, db.blobs)
    ensures var phase := LookUp(db, id, peer, rest);
            && BetweenCheckAndInsert(phase)
            && (Given(phase).Some? ==> id in minted && Given(phase).value == ProtoOf(minted[id]))
            && (Source(phase).Some? ==> Source(phase).value == peer && id in db.blobs)
  {
  }

  lemma SelectKeeps(cfg: Config, s: Network, n: NodeId, id: Uuid)
    requires Inv(cfg, s) && n in s.nodes && Select(s, n, id).Some?
    ensures var s' := Select(s, n, id).value; Inv(cfg, s') && Grows(s, s')
  {
    var Calling(peer, rest) := s.nodes[n].tasks[id].phase;
    TablesOk(cfg, s, peer);
    LookUpOk(s.minted, s.nodes[peer].db, id, peer, rest);
    GiveKeeps(cfg, s, n, id, LookUp(s.nodes[peer].db, id, peer, rest));
  }

  function Complete(node: Node, id: Uuid, peer: NodeId): Node {
    node.(db := SetStatus(node.db, id, peer, Completed))
  }

  lemma CompleteCompleted(nodes: Nodes, n: NodeId, id: Uuid, peer: NodeId)
    requires CompletedOk(nodes) && n in nodes && peer in nodes && Justified(nodes[peer], id, n)
    ensures CompletedOk(nodes[n := Complete(nodes[n], id, peer)])
  {
    var nodes' := nodes[n := Complete(nodes[n], id, peer)];
    forall m, p, other | m in nodes' && p in nodes' && IsCompleted(nodes'[m], other, p)
      ensures Justified(nodes'[p], other, m)
    {
      assert IsCompleted(nodes[m], other, p) || (m == n && other == id && p == peer);
      assert Justified(nodes[p], other, m);
    }
  }

  lemma CompleteSources(nodes: Nodes, n: NodeId, id: Uuid, peer: NodeId)
    requires SourcesOk(nodes) && n in nodes
    ensures SourcesOk(nodes[n := Complete(nodes[n], id, peer)])
  {
    var nodes' := nodes[n := Complete(nodes[n], id, peer)];
    forall m, other, p | m in nodes' && Sourced(nodes'[m], other, p)
      ensures HasRow(nodes', p, other)
    {
      assert Sourced(nodes[m], other, p) && HasRow(nodes, p, other);
    }
  }

  /** Recording `completed` for a peer that is justified. */
  lemma CompleteKeeps(cfg: Config, s: Network, n: NodeId, id: Uuid, peer: NodeId)
    requires Inv(cfg, s) && n in s.nodes && peer in s.nodes && Justified(s.nodes[peer], id, n)
    ensures var s' := Put(s, n, Complete(s.nodes[n], id, peer)); Inv(cfg, s') && Grows(s, s')
  {
    CompleteCompleted(s.nodes, n, id, peer);
    CompleteSources(s.nodes, n, id, peer);
    CompleteNode(cfg.maxSyncs(n), s.minted, s.nodes[n], id, peer);
    PutNodes(cfg, s, n, Complete(s.nodes[n], id, peer));
    PutGrows(s, n, Complete(s.nodes[n], id, peer));
  }

  lemma CompleteNode(maxSyncs: nat, minted: map<Uuid, Mint>, node: Node, id: Uuid, peer: NodeId)
    requires NodeInv(maxSyncs, minted, node)
    ensures NodeInv(maxSyncs, minted, Complete(node, id, peer))
    ensures Complete(node, id, peer).db.blobs == node.db.blobs
  {
  }

  /** Recording and replying touch different things, so their order does not matter. */
  lemma MarkCommutes(s: Network, n: NodeId, id: Uuid)
    requires n in s.nodes && Mark(s, n, id).Some?
    ensures var Serving(peer, rest, blob) := s.nodes[n].tasks[id].phase;
            var s1 := Put(s, n, SetPhase(s.nodes[n], id, Answered(peer, rest, Found(blob))));
            Mark(s, n, id).value == Put(s1, peer, Complete(s1.nodes[peer], id, n))
  {
    var Serving(peer, rest, blob) := s.nodes[n].tasks[id].phase;
    var s1 := Put(s, n, SetPhase(s.nodes[n], id, Answered(peer, rest, Found(blob))));
    assert Mark(s, n, id).value.nodes == Put(s1, peer, Complete(s1.nodes[peer], id, n)).nodes;
  }

  lemma ServedAsMinted(minted: map<Uuid, Mint>, blobs: map<Uuid, Row>, tasks: map<Uuid, Task>, id: Uuid)
    requires TasksOk(minted, blobs, tasks) && id in tasks && tasks[id].phase.Serving?
    ensures id in minted && tasks[id].phase.blob == ProtoOf(minted[id])
  {
    assert TaskOk(minted, blobs, id, tasks[id]);
  }

  lemma ServedFrom(nodes: Nodes, n: NodeId, id: Uuid)
    requires SourcesOk(nodes) && n in nodes && id in nodes[n].tasks && nodes[n].tasks[id].phase.Serving?
    ensures HasRow(nodes, nodes[n].tasks[id].phase.peer, id)
  {
    assert Sourced(nodes[n], id, nodes[n].tasks[id].phase.peer);
  }

  lemma ServedOk(s: Network, n: NodeId, id: Uuid)
    requires n in s.nodes && Mark(s, n, id).Some?
    requires id in s.minted && s.nodes[n].tasks[id].phase.blob == ProtoOf(s.minted[id])
    requires HasRow(s.nodes, s.nodes[n].tasks[id].phase.peer, id)
    ensures var Serving(peer, rest, blob) := s.nodes[n].tasks[id].phase;
            MayGive(s, n, id, Answered(peer, rest, Found(blob)))
  {
  }

  /** The state in which the reply has left, before the peer records it. */
  function Replied(s: Network, n: NodeId, id: Uuid): Network
    requires n in s.nodes && Mark(s, n, id).Some?
  {
    var Serving(peer, rest, blob) := s.nodes[n].tasks[id].phase;
    Put(s, n, SetPhase(s.nodes[n], id, Answered(peer, rest, Found(blob))))
  }

  lemma RepliedKeeps(cfg: Config, s: Network, n: NodeId, id: Uuid)
    requires Inv(cfg, s) && n in s.nodes && Mark(s, n, id).Some?
    ensures Inv(cfg, Replied(s, n, id)) && Grows(s, Replied(s, n, id))
  {
    var Serving(peer, rest, blob) := s.nodes[n].tasks[id].phase;
    TablesOk(cfg, s, n);
    ServedAsMinted(s.minted, s.nodes[n].db.blobs, s.nodes[n].tasks, id);
    ServedFrom(s.nodes, n, id);
    ServedOk(s, n, id);
    GiveKeeps(cfg, s, n, id, Answered(peer, rest, Found(blob)));
  }

  lemma RepliedJustified(s: Network, n: NodeId, id: Uuid)
    requires n in s.nodes && Mark(s, n, id).Some?
    ensures Justified(Replied(s, n, id).nodes[n], id, s.nodes[n].tasks[id].phase.peer)
  {
    assert Received(Replied(s, n, id).nodes[n], id, s.nodes[n].tasks[id].phase.peer);
  }

  lemma MarkKeeps(cfg: Config, s: Network, n: NodeId, id: Uuid)
    requires Inv(cfg, s) && n in s.nodes && Mark(s, n, id).Some?
    ensures var s' := Mark(s, n, id).value; Inv(cfg, s') && Grows(s, s')
  {
    var peer, s1 := s.nodes[n].tasks[id].phase.peer, Replied(s, n, id);
    RepliedKeeps(cfg, s, n, id);
    RepliedJustified(s, n, id);
    CompleteKeeps(cfg, s1, peer, id, n);
    MarkCommutes(s, n, id);
    GrowsTransitive(s, s1, Put(s1, peer, Complete(s1.nodes[peer], id, n)));
  }

  lemma CheckKeeps(cfg: Config, s: Network, n: NodeId)
    requires Inv(cfg, s) && n in s.nodes && Check(s, n).Some?
    ensures var s' := Check(s, n).value; Inv(cfg, s') && Grows(s, s')
  {
    var s' := Check(s, n).value;
    PcStep(cfg.maxSyncs(n), s.minted, s.nodes[n], s'.nodes[n].pc);
    EvolveKeeps(cfg, s, n, s'.nodes[n]);
  }

  lemma AcceptKeeps(cfg: Config, s: Network, n: NodeId)
    requires Inv(cfg, s) && n in s.nodes && Accept(s, n).Some?
    ensures var s' := Accept(s, n).value; Inv(cfg, s') && Grows(s, s')
  {
    var Offered(a, to) := s.nodes[n].pc;
    EnqueueStep(cfg.maxSyncs(to), s.minted, s.nodes[to], a.current);
    var s1 := Put(s, to, s.nodes[to].(queue := Enqueue(s.nodes[to].queue, a.current)));
    EvolveKeeps(cfg, s, to, s1.nodes[to]);
    PcStep(cfg.maxSyncs(n), s.minted, s1.nodes[n], Acked(a, to));
    EvolveKeeps(cfg, s1, n, s1.nodes[n].(pc := Acked(a, to)));
  }

  /** Every step of every node keeps the invariant. */
  lemma NextKeeps(cfg: Config, s: Network, e: Event, s': Network)
    requires Inv(cfg, s) && Next(cfg, s, e, s')
    ensures Inv(cfg, s') && Grows(s, s')
  {
    match e.step
    case Local(step) => LocalKeeps(cfg, s, e.node, step);
    case AddBlob(id, input, randoms) => AddKeeps(cfg, s, e.node, id, input, randoms);
    case ServeSelect(id) => SelectKeeps(cfg, s, e.node, id);
    case ServeMark(id) => MarkKeeps(cfg, s, e.node, id);
    case OfferCheck => CheckKeeps(cfg, s, e.node);
    case OfferEnqueue => AcceptKeeps(cfg, s, e.node);
  }
}

// The guarantees of the sync protocol, for every run of the network.
module Theorems {
  import opened LittleEndian
  import opened Store
  import opened SyncQueue
  import opened FetchTask
  import opened Keypair
  import opened ElGamal
  import opened Network
  import opened NodeInvariant
  import opened Safety

  // ---- Reachable states -----------------------------------------------------------

  /** The history of a blob is consistent: hash, content and public key are those of `add_blob`. */
  predicate MintOk(sha: Bytes -> Hash, mint: Mint) {
    && WellFormed(mint.key)
    && mint.key.publicKey.prime >= U32_LIMIT
    && |mint.randoms| == ChunkCount(|mint.text|)
    && mint.content == Encrypted(mint.text, mint.key, mint.randoms)
    && mint.meta.hash == sha(mint.content)
    && mint.meta.size == |mint.content|
    && mint.meta.publicKey == EncodedPublicKey(mint.key.publicKey)
  }

  predicate MintsOk(sha: Bytes -> Hash, minted: map<Uuid, Mint>) {
    forall id | id in minted :: MintOk(sha, minted[id])
  }

  lemma MintBlobOk(sha: Bytes -> Hash, n: NodeId, id: Uuid, input: NewBlob, randoms: seq<nat>)
    requires |randoms| == ChunkCount(|input.text|) && MintBlob(sha, n, id, input, randoms).Some?
    ensures MintOk(sha, MintBlob(sha, n, id, input, randoms).value)
  {
    WellFormedUsable(TryFrom(input.privateKey).value);
  }

  lemma MintsExtend(sha: Bytes -> Hash, minted: map<Uuid, Mint>, id: Uuid, mint: Mint)
    requires MintsOk(sha, minted) && MintOk(sha, mint)
    ensures MintsOk(sha, minted[id := mint])
  {
  }

  /** Only `add_blob` adds to the history. */
  lemma HistoryStep(cfg: Config, s: Network, e: Event, s': Network)
    requires Next(cfg, s, e, s') && !e.step.AddBlob?
    ensures s'.minted == s.minted
  {
  }

  lemma MintsKept(cfg: Config, s: Network, e: Event, s': Network)
    requires MintsOk(cfg.sha, s.minted) && Next(cfg, s, e, s')
    ensures MintsOk(cfg.sha, s'.minted)
  {
    if e.step.AddBlob? {
      var AddBlob(id, input, randoms) := e.step;
      AddUnfolds(cfg, s, e.node, id, input, randoms);
      MintBlobOk(cfg.sha, e.node, id, input, randoms);
      MintsExtend(cfg.sha, s.minted, id, MintBlob(cfg.sha, e.node, id, input, randoms).value);
    } else {
      HistoryStep(cfg, s, e, s');
    }
  }

  lemma InitInv(cfg: Config, s: Network)
    requires Init(cfg, s)
    ensures Inv(cfg, s)
  {
    assert |NEW_NODE.tasks.Keys| == 0;
  }

  /** What each step of a run keeps holds along it. */
  lemma {:induction false} RunInduction(states: seq<Network>, i: nat, j: nat, holds: Network -> bool)
    requires i <= j < |states| && holds(states[i])
    requires forall k | i <= k < j && holds(states[k]) :: holds(states[k + 1])
    ensures holds(states[j])
    decreases j - i
  {
    if i < j {
      RunInduction(states, i, j - 1, holds);
      assert holds(states[j - 1]);
    }
  }

  /** The invariant holds along every run, and nothing is taken back between two of its states. */
  lemma RunKeeps(cfg: Config, states: seq<Network>, events: seq<Event>, i: nat, j: nat)
    requires IsRun(cfg, states, events) && i <= j <= |events| && Inv(cfg, states[i])
    ensures Inv(cfg, states[j]) && Grows(states[i], states[j])
  {
    GrowsReflexive(states[i]);
    forall k | i <= k < j && Inv(cfg, states[k]) && Grows(states[i], states[k])
      ensures Inv(cfg, states[k + 1]) && Grows(states[i], states[k + 1])
    {
      StepFromKeeps(cfg, states[i], states[k], events[k], states[k + 1]);
    }
    RunInduction(states, i, j, s => Inv(cfg, s) && Grows(states[i], s));
  }

  lemma StepFromKeeps(cfg: Config, s0: Network, s: Network, e: Event, s': Network)
    requires Inv(cfg, s) && Grows(s0, s) && Next(cfg, s, e, s')
    ensures Inv(cfg, s') && Grows(s0, s')
  {
    NextKeeps(cfg, s, e, s');
    GrowsTransitive(s0, s, s');
  }

  lemma GrowsReflexive(s: Network)
    ensures Grows(s, s)
  {
  }

  lemma RunMints(cfg: Config, states: seq<Network>, events: seq<Event>, j: nat)
    requires IsRun(cfg, states, events) && j <= |events| && MintsOk(cfg.sha, states[0].minted)
    ensures MintsOk(cfg.sha, states[j].minted)
  {
    forall k | 0 <= k < j && MintsOk(cfg.sha, states[k].minted)
      ensures MintsOk(cfg.sha, states[k + 1].minted)
    {
      MintsKept(cfg, states[k], events[k], states[k + 1]);
    }
    RunInduction(states, 0, j, (s: Network) => MintsOk(cfg.sha, s.minted));
  }

  lemma ReachableInv(cfg: Config, s: Network)
    requires Reachable(cfg, s)
    ensures Inv(cfg, s)
  {
    var states: seq<Network>, events: seq<Event> :|
      IsRun(cfg, states, events) && Init(cfg, states[0]) && states[|events|] == s;
    InitInv(cfg, states[0]);
    RunKeeps(cfg, states, events, 0, |events|);
  }

  lemma ReachableMints(cfg: Config, s: Network)
    requires Reachable(cfg, s)
    ensures MintsOk(cfg.sha, s.minted)
  {
    var states: seq<Network>, events: seq<Event> :|
      IsRun(cfg, states, events) && Init(cfg, states[0]) && states[|events|] == s;
    RunMints(cfg, states, events, |events|);
  }

  lemma MintedHash(cfg: Config, s: Network, id: Uuid)
    requires Reachable(cfg, s) && id in s.minted
    ensures s.minted[id].meta.hash == cfg.sha(s.minted[id].content)
  {
    ReachableMints(cfg, s);
    assert MintOk(cfg.sha, s.minted[id]);
  }

  // ---- Guarantees -------------------------------------------------------------------

  /**
   * Where node `a` records `completed` for a blob and peer `b`, `b` holds a row for it, live or
   * deleted, or its task for that blob has the reply of `a` on its way or in hand.
   */
  lemma CompletedMeansHeld(cfg: Config, s: Network, a: NodeId, b: NodeId, id: Uuid)
    requires Reachable(cfg, s) && a in s.nodes && b in s.nodes
    requires IsCompleted(s.nodes[a], id, b)
    ensures id in s.nodes[b].db.blobs || Received(s.nodes[b], id, a)
  {
    ReachableInv(cfg, s);
    assert Justified(s.nodes[b], id, a);
  }

  /** Any two rows for one id agree in everything but deletion, and carry the hash of their content. */
  lemma Agreement(cfg: Config, s: Network, a: NodeId, b: NodeId, id: Uuid)
    requires Reachable(cfg, s) && a in s.nodes && b in s.nodes
    requires id in s.nodes[a].db.blobs && id in s.nodes[b].db.blobs
    ensures s.nodes[a].db.blobs[id].meta == s.nodes[b].db.blobs[id].meta
    ensures s.nodes[a].db.blobs[id].content == s.nodes[b].db.blobs[id].content
    ensures s.nodes[a].db.blobs[id].meta.hash == cfg.sha(s.nodes[a].db.blobs[id].content)
  {
    ReachableTables(cfg, s, a);
    ReachableTables(cfg, s, b);
    MintedHash(cfg, s, id);
  }

  /** The entries a node has queued, is announcing, or still has to queue. */
  ghost predicate Circulates(node: Node, e: Entry) {
    || e in node.queue.entries
    || (e.id in node.tasks && node.tasks[e.id].expected == e.hash)
    || EnqueueAdded(e) in node.ops || MarkDeleted(e) in node.ops || EnqueueDeleted(e) in node.ops
    || (node.pc.NextBlob? && e in node.pc.blobs)
    || ((node.pc.NextPeer? || node.pc.Offering? || node.pc.Offered? || node.pc.Acked?) &&
        (e == node.pc.a.current || e in node.pc.a.blobs))
  }

  lemma CirculatesOk(maxSyncs: nat, minted: map<Uuid, Mint>, node: Node, e: Entry)
    requires NodeInv(maxSyncs, minted, node) && Circulates(node, e)
    ensures EntryOk(minted, e)
  {
    if e.id in node.tasks && node.tasks[e.id].expected == e.hash {
      assert TaskOk(minted, node.db.blobs, e.id, node.tasks[e.id]);
    } else if EnqueueAdded(e) in node.ops {
      assert OpOk(minted, EnqueueAdded(e));
    } else if MarkDeleted(e) in node.ops {
      assert OpOk(minted, MarkDeleted(e));
    } else if EnqueueDeleted(e) in node.ops {
      assert OpOk(minted, EnqueueDeleted(e));
    }
  }

  /** Every hash queued, expected or announced anywhere is the hash in the rows for that id. */
  lemma HashesAgree(cfg: Config, s: Network, a: NodeId, b: NodeId, e: Entry)
    requires Reachable(cfg, s) && a in s.nodes && b in s.nodes
    requires Circulates(s.nodes[a], e) && e.id in s.nodes[b].db.blobs
    ensures e.hash == s.nodes[b].db.blobs[e.id].meta.hash
  {
    ReachableInv(cfg, s);
    CirculatesOk(cfg.maxSyncs(a), s.minted, s.nodes[a], e);
    TablesOk(cfg, s, b);
  }

  /** So the branch that rejects a received blob is never taken: it is what was asked for. */
  lemma NeverMismatched(cfg: Config, s: Network, n: NodeId, id: Uuid)
    requires Reachable(cfg, s) && n in s.nodes && id in s.nodes[n].tasks
    requires Given(s.nodes[n].tasks[id].phase).Some?
    ensures var blob := Given(s.nodes[n].tasks[id].phase).value;
            && blob.metadata.Some? && blob.metadata.value.id == id
            && blob.metadata.value.hash == s.nodes[n].tasks[id].expected == cfg.sha(blob.content)
            && Verified(cfg.sha, blob, s.nodes[n].tasks[id].expected)
  {
    ReachableTables(cfg, s, n);
    assert TaskOk(s.minted, s.nodes[n].db.blobs, id, s.nodes[n].tasks[id]);
    ReachableIds(cfg, s);
    MintedHash(cfg, s, id);
  }

  lemma ReachableIds(cfg: Config, s: Network)
    requires Reachable(cfg, s)
    ensures IdsOk(s.minted)
  {
    ReachableInv(cfg, s);
  }

  lemma ReachableTables(cfg: Config, s: Network, n: NodeId)
    requires Reachable(cfg, s) && n in s.nodes
    ensures RowsOk(s.minted, s.nodes[n].db.blobs)
    ensures TasksOk(s.minted, s.nodes[n].db.blobs, s.nodes[n].tasks)
  {
    ReachableInv(cfg, s);
    TablesOk(cfg, s, n);
  }

  /**
   * The check and the INSERT of a task are safe though they are two statements: the INSERT
   * fails exactly when the check met a deleted row, which is there still, and it never
   * meets a live one.
   */
  lemma CheckThenInsert(cfg: Config, s: Network, n: NodeId, id: Uuid)
    requires Reachable(cfg, s) && n in s.nodes && id in s.nodes[n].tasks
    requires s.nodes[n].tasks[id].phase.Storing?
    ensures !IsLive(s.nodes[n].db, id)
    ensures var Storing(_, meta, content) := s.nodes[n].tasks[id].phase;
            InsertBlob(s.nodes[n].db, Row(meta, content, false)).None? <==> s.nodes[n].tasks[id].tombstone
  {
    ReachableTables(cfg, s, n);
    ReachableIds(cfg, s);
    assert TaskOk(s.minted, s.nodes[n].db.blobs, id, s.nodes[n].tasks[id]);
  }

  /** The queue discipline, under every interleaving, and the bound on running tasks. */
  lemma QueueDiscipline(cfg: Config, s: Network, n: NodeId)
    requires Reachable(cfg, s) && n in s.nodes
    ensures var node := s.nodes[n];
            && node.queue.inProgress == Ids(node.queue.entries) + node.tasks.Keys
            && Ids(node.queue.entries) !! node.tasks.Keys
            && DistinctIds(node.queue.entries)
            && node.queue.accepted == node.queue.popped + node.queue.entries
            && |node.tasks.Keys| <= cfg.maxSyncs(n)
            && (!node.pc.Joining? ==> node.queue.inProgress == Ids(node.queue.entries))
  {
    ReachableInv(cfg, s);
    assert NodeInv(cfg.maxSyncs(n), s.minted, s.nodes[n]);
  }

  /** Every entry that a poll takes gets a task of its own, with the hash it was queued with. */
  lemma PollSpawnsAll(cfg: Config, s: Network, s': Network, n: NodeId)
    requires Reachable(cfg, s) && Next(cfg, s, Event(n, Local(Poll)), s')
    ensures var (batch, tasks) := (Batch(s.nodes[n].queue, cfg.maxSyncs(n)), s'.nodes[n].tasks);
            && |tasks.Keys| == |batch|
            && forall i | 0 <= i < |batch| ::
                 batch[i].id in tasks && tasks[batch[i].id] == Task(batch[i].hash, false, Spawned)
  {
    var node := s.nodes[n];
    ReachableInv(cfg, s);
    PollParts(cfg.maxSyncs(n), s.minted, node);
    SpawnExact(Batch(node.queue, cfg.maxSyncs(n)));
  }

  lemma PollParts(maxSyncs: nat, minted: map<Uuid, Mint>, node: Node)
    requires NodeInv(maxSyncs, minted, node) && node.pc.Polling?
    ensures DistinctIds(Batch(node.queue, maxSyncs))
    ensures PollQueue(node, maxSyncs).tasks == Spawn(Batch(node.queue, maxSyncs))
  {
    TakeBatchKeeps(node.queue, node.tasks.Keys, maxSyncs);
    PollQueueInv(maxSyncs, node);
  }

  lemma {:induction false} SpawnExact(batch: seq<Entry>)
    requires DistinctIds(batch)
    ensures |Spawn(batch).Keys| == |batch|
    ensures forall i | 0 <= i < |batch| ::
              batch[i].id in Spawn(batch) && Spawn(batch)[batch[i].id] == Task(batch[i].hash, false, Spawned)
  {
    if batch != [] {
      SpawnExact(batch[1..]);
      SpawnFirst(batch);
      forall i | 0 < i < |batch|
        ensures batch[i].id in Spawn(batch) && Spawn(batch)[batch[i].id] == Task(batch[i].hash, false, Spawned)
      {
        assert batch[i] == batch[1..][i - 1];
      }
    }
  }

  lemma SpawnFirst(batch: seq<Entry>)
    requires batch != [] && DistinctIds(batch)
    ensures batch[0].id !in Spawn(batch[1..]) && |Spawn(batch).Keys| == |Spawn(batch[1..]).Keys| + 1
  {
    var rest := batch[1..];
    assert forall i | 0 <= i < |rest| :: rest[i].id != batch[0].id;
    assert Spawn(batch).Keys == Spawn(rest).Keys + {batch[0].id};
  }

  /** A deleted row stays as it is in every later state. */
  lemma DeletionPermanent(cfg: Config, states: seq<Network>, events: seq<Event>, i: nat, j: nat, n: NodeId, id: Uuid)
    requires IsRun(cfg, states, events) && Init(cfg, states[0]) && i <= j <= |events|
    requires n in states[i].nodes && id in states[i].nodes[n].db.blobs && states[i].nodes[n].db.blobs[id].deleted
    ensures n in states[j].nodes && id in states[j].nodes[n].db.blobs
    ensures states[j].nodes[n].db.blobs[id] == states[i].nodes[n].db.blobs[id]
  {
    InitInv(cfg, states[0]);
    RunKeeps(cfg, states, events, 0, i);
    RunKeeps(cfg, states, events, i, j);
  }
}

// Where rows come from: every one stems from an `add_blob` of the run, and a row that
// cannot be read back stays on the node where it was added.
module Provenance {
  import opened Wrappers
  import opened LittleEndian
  import opened Store
  import opened FetchTask
  import opened ElGamal
  import opened Network
  import opened Steps
  import opened NodeInvariant
  import opened Safety
  import opened Theorems

  // ---- The history ------------------------------------------------------------------------

  /** The event adds the blob `id`, and `mint` is what it makes. */
  predicate Mints(cfg: Config, e: Event, id: Uuid, mint: Mint) {
    && e.step.AddBlob? && e.step.id == id
    && |e.step.randoms| == ChunkCount(|e.step.input.text|)
    && MintBlob(cfg.sha, e.node, id, e.step.input, e.step.randoms) == Some(mint)
  }

  lemma MintedStep(cfg: Config, s: Network, e: Event, s': Network, id: Uuid)
    requires Next(cfg, s, e, s') && id in s'.minted
    ensures (id in s.minted && s'.minted[id] == s.minted[id]) || (id !in s.minted && Mints(cfg, e, id, s'.minted[id]))
  {
    if e.step.AddBlob? {
      AddUnfolds(cfg, s, e.node, e.step.id, e.step.input, e.step.randoms);
    } else {
      HistoryStep(cfg, s, e, s');
    }
  }

  ghost predicate Stems(cfg: Config, events: seq<Event>, j: nat, id: Uuid, mint: Mint)
    requires j <= |events|
  {
    exists i :: 0 <= i < j && Mints(cfg, events[i], id, mint)
  }

  lemma {:induction false} MintedStems(cfg: Config, states: seq<Network>, events: seq<Event>, j: nat, id: Uuid)
    requires IsRun(cfg, states, events) && Init(cfg, states[0]) && j <= |events| && id in states[j].minted
    ensures Stems(cfg, events, j, id, states[j].minted[id])
    decreases j
  {
    if j > 0 {
      MintedStep(cfg, states[j - 1], events[j - 1], states[j], id);
      if id in states[j - 1].minted {
        MintedStems(cfg, states, events, j - 1, id);
      }
    }
  }

  // ---- Rows that stay at home -------------------------------------------------------------

  /** A row that is not readable is where it was added. */
  ghost predicate AtHome(s: Network) {
    forall n, id | HasRow(s.nodes, n, id) :: id in s.minted && (IsReadable(s.minted, id) || s.minted[id].origin == n)
  }

  lemma LocalNoNewRow(cfg: Config, maxSyncs: nat, node: Node, step: LocalStep, id: Uuid)
    requires StepNode(cfg, maxSyncs, node, step).Some? && !step.TaskStep? && id !in node.db.blobs
    ensures id !in StepNode(cfg, maxSyncs, node, step).value.db.blobs
  {
    if step.Continue? && step.op.Requeue? {
      RequeueNeverInserts(node.db, step.op.id);
    }
  }

  lemma TaskNewRow(sha: Bytes -> Hash, minted: map<Uuid, Mint>, node: Node, task: Uuid, id: Uuid)
    requires IdsOk(minted) && TasksOk(minted, node.db.blobs, node.tasks)
    requires task in node.tasks && !Waiting(node.tasks[task].phase)
    requires id !in node.db.blobs && id in AdvanceTask(sha, node, task).db.blobs
    ensures IsReadable(minted, id)
  {
    assert TaskOk(minted, node.db.blobs, task, node.tasks[task]);
    AdvanceRows(sha, minted, node.db, task, node.tasks[task]);
  }

  lemma LocalRowIsNew(cfg: Config, s: Network, n: NodeId, step: LocalStep, id: Uuid)
    requires IdsOk(s.minted) && n in s.nodes && TasksOk(s.minted, s.nodes[n].db.blobs, s.nodes[n].tasks)
    requires StepNode(cfg, cfg.maxSyncs(n), s.nodes[n], step).Some? && id !in s.nodes[n].db.blobs
    requires id in StepNode(cfg, cfg.maxSyncs(n), s.nodes[n], step).value.db.blobs
    ensures IsReadable(s.minted, id)
  {
    if step.TaskStep? {
      TaskNewRow(cfg.sha, s.minted, s.nodes[n], step.id, id);
    } else {
      LocalNoNewRow(cfg, cfg.maxSyncs(n), s.nodes[n], step, id);
    }
  }

  /** Serving a peer adds no row anywhere. */
  lemma ServingAddsNoRow(cfg: Config, s: Network, e: Event, s': Network, n: NodeId, id: Uuid)
    requires Next(cfg, s, e, s') && !e.step.Local? && !e.step.AddBlob?
    ensures HasRow(s'.nodes, n, id) <==> HasRow(s.nodes, n, id)
  {
  }

  /** A row that was not there before is one just added, or one that a task may fetch. */
  lemma RowIsNew(cfg: Config, s: Network, e: Event, s': Network, n: NodeId, id: Uuid)
    requires IdsOk(s.minted) && NodesOk(cfg, s) && Next(cfg, s, e, s')
    requires HasRow(s'.nodes, n, id) && !HasRow(s.nodes, n, id)
    ensures (e.node == n && e.step.AddBlob? && e.step.id == id) || IsReadable(s.minted, id)
  {
    if e.step.Local? {
      if e.node == n {
        TablesOk(cfg, s, n);
        LocalRowIsNew(cfg, s, n, e.step.step, id);
      }
    } else if e.step.AddBlob? {
      AddUnfolds(cfg, s, e.node, e.step.id, e.step.input, e.step.randoms);
    } else {
      ServingAddsNoRow(cfg, s, e, s', n, id);
    }
  }

  lemma HomeStep(cfg: Config, s: Network, e: Event, s': Network)
    requires IdsOk(s.minted) && NodesOk(cfg, s) && Extends(s.minted, s'.minted) && AtHome(s) && Next(cfg, s, e, s')
    ensures AtHome(s')
  {
    forall n, id | HasRow(s'.nodes, n, id)
      ensures id in s'.minted && (IsReadable(s'.minted, id) || s'.minted[id].origin == n)
    {
      if !HasRow(s.nodes, n, id) {
        RowIsNew(cfg, s, e, s', n, id);
        if !IsReadable(s.minted, id) {
          AddUnfolds(cfg, s, e.node, id, e.step.input, e.step.randoms);
        }
      }
    }
  }

  lemma HomeKept(cfg: Config, s: Network, e: Event, s': Network)
    requires Inv(cfg, s) && AtHome(s) && Next(cfg, s, e, s')
    ensures Inv(cfg, s') && AtHome(s')
  {
    NextKeeps(cfg, s, e, s');
    HomeStep(cfg, s, e, s');
  }

  lemma RunAtHome(cfg: Config, states: seq<Network>, events: seq<Event>, j: nat)
    requires IsRun(cfg, states, events) && Init(cfg, states[0]) && j <= |events|
    ensures AtHome(states[j])
  {
    InitInv(cfg, states[0]);
    InitAtHome(cfg, states[0]);
    forall k | 0 <= k < j && Inv(cfg, states[k]) && AtHome(states[k])
      ensures Inv(cfg, states[k + 1]) && AtHome(states[k + 1])
    {
      HomeKept(cfg, states[k], events[k], states[k + 1]);
    }
    RunInduction(states, 0, j, s => Inv(cfg, s) && AtHome(s));
  }

  lemma InitAtHome(cfg: Config, s: Network)
    requires Init(cfg, s)
    ensures AtHome(s)
  {
  }

  lemma ReachableAtHome(cfg: Config, s: Network)
    requires Reachable(cfg, s)
    ensures AtHome(s)
  {
    var states: seq<Network>, events: seq<Event> :|
      IsRun(cfg, states, events) && Init(cfg, states[0]) && states[|events|] == s;
    RunAtHome(cfg, states, events, |events|);
  }

  /**
   * The row is what the event made of the user's input, and is where the event took place
   * unless it can be read.
   */
  predicate StemsFrom(cfg: Config, s: Network, e: Event, n: NodeId, id: Uuid)
    requires HasRow(s.nodes, n, id)
  {
    var row := s.nodes[n].db.blobs[id];
    && id in s.minted && Mints(cfg, e, id, s.minted[id])
    && row.meta == s.minted[id].meta && row.content == s.minted[id].content
    && row.meta == BlobMetadata(id, cfg.sha(row.content), e.step.input.contentType, |row.content|, e.step.input.owner,
                                row.meta.publicKey, e.step.input.metadata)
    && (Readable(row) || e.node == n)
  }

  /** Every row, on whatever node, stems from an `add_blob` earlier in the run. */
  lemma RowStems(cfg: Config, states: seq<Network>, events: seq<Event>, j: nat, n: NodeId, id: Uuid)
    requires IsRun(cfg, states, events) && Init(cfg, states[0]) && j <= |events| && HasRow(states[j].nodes, n, id)
    ensures exists i :: 0 <= i < j && StemsFrom(cfg, states[j], events[i], n, id)
  {
    RunAtHome(cfg, states, events, j);
    RowMinted(cfg, states, events, j, n, id);
    MintedStems(cfg, states, events, j, id);
    var i :| 0 <= i < j && Mints(cfg, events[i], id, states[j].minted[id]);
    MintExact(cfg, events[i].node, id, events[i].step.input, events[i].step.randoms);
    assert StemsFrom(cfg, states[j], events[i], n, id);
  }

  lemma RowMinted(cfg: Config, states: seq<Network>, events: seq<Event>, j: nat, n: NodeId, id: Uuid)
    requires IsRun(cfg, states, events) && Init(cfg, states[0]) && j <= |events| && HasRow(states[j].nodes, n, id)
    ensures RowsOk(states[j].minted, states[j].nodes[n].db.blobs)
  {
    InitInv(cfg, states[0]);
    RunKeeps(cfg, states, events, 0, j);
    TablesOk(cfg, states[j], n);
  }
}

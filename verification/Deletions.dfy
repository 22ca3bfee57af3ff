// When a blob stops being live on a node: only through the node's own delete statement,
// which always meets its row, and then for good.
module Deletions {
  import opened LittleEndian
  import opened Store
  import SyncQueue
  import opened FetchTask
  import opened Network
  import opened Safety
  import opened Theorems

  type Rows = map<Uuid, Row>

  /** The statement that deletes the row of `id`, on behalf of a user or of a peer. */
  predicate Deletes(op: Op, id: Uuid) {
    (op.MarkDeleted? && op.entry.id == id) || op == MarkRemotelyDeleted(id)
  }

  predicate IsDeletion(e: Event, n: NodeId, id: Uuid) {
    e.node == n && e.step.Local? && e.step.step.Continue? && Deletes(e.step.step.op, id)
  }

  /** Rows stay exactly as they are, except possibly that of `id`. */
  predicate SameRow(old_: Rows, new_: Rows, id: Uuid) {
    id in old_ ==> id in new_ && new_[id] == old_[id]
  }

  lemma AdvanceSameRow(sha: Bytes -> Hash, db: Database, id: Uuid, task: Task, other: Uuid)
    requires !Waiting(task.phase)
    ensures SameRow(db.blobs, Advance(sha, db, id, task).0.blobs, other)
  {
  }

  lemma LocalSameRow(cfg: Config, maxSyncs: nat, node: Node, step: LocalStep, id: Uuid)
    requires StepNode(cfg, maxSyncs, node, step).Some?
    requires !(step.Continue? && Deletes(step.op, id))
    ensures SameRow(node.db.blobs, StepNode(cfg, maxSyncs, node, step).value.db.blobs, id)
  {
    match step
    case TaskStep(task) => AdvanceSameRow(cfg.sha, node.db, task, node.tasks[task], id);
    case Continue(op) =>
      if op.Requeue? {
        RequeueNeverInserts(node.db, op.id);
      }
    case _ =>
  }

  /** A row changes in no other way than by the delete statement for it on its own node. */
  lemma OnlyDeletionsChangeRows(cfg: Config, s: Network, e: Event, s': Network, n: NodeId, id: Uuid)
    requires Next(cfg, s, e, s') && n in s.nodes && !IsDeletion(e, n, id)
    ensures n in s'.nodes && SameRow(s.nodes[n].db.blobs, s'.nodes[n].db.blobs, id)
  {
    match e.step
    case Local(step) =>
      if e.node == n {
        LocalSameRow(cfg, cfg.maxSyncs(n), s.nodes[n], step, id);
      }
    case AddBlob(added, input, randoms) => AddUnfolds(cfg, s, e.node, added, input, randoms);
    case _ =>
  }

  // ---- A delete statement always meets its row ------------------------------------

  predicate OpHeld(blobs: Rows, op: Op) {
    match op
    case MarkDeleted(entry) => entry.id in blobs
    case MarkRemotelyDeleted(id) => id in blobs
    case _ => true
  }

  predicate OpsHeld(node: Node) {
    forall op | op in node.ops :: OpHeld(node.db.blobs, op)
  }

  predicate AllHeld(nodes: Nodes) {
    forall n | n in nodes :: OpsHeld(nodes[n])
  }

  /** More rows, and no new delete statement but for a row that is there. */
  predicate HeldStep(node: Node, node': Node) {
    && (forall id | id in node.db.blobs :: id in node'.db.blobs)
    && (forall op | op in node'.ops && op !in node.ops :: OpHeld(node.db.blobs, op))
  }

  lemma HeldStepKeeps(node: Node, node': Node)
    requires OpsHeld(node) && HeldStep(node, node')
    ensures OpsHeld(node')
  {
  }

  lemma LocalRowStays(cfg: Config, maxSyncs: nat, node: Node, step: LocalStep, id: Uuid)
    requires StepNode(cfg, maxSyncs, node, step).Some? && id in node.db.blobs
    ensures id in StepNode(cfg, maxSyncs, node, step).value.db.blobs
  {
    if !(step.Continue? && Deletes(step.op, id)) {
      LocalSameRow(cfg, maxSyncs, node, step, id);
    }
  }

  lemma LocalOpsHeld(cfg: Config, maxSyncs: nat, node: Node, step: LocalStep, op: Op)
    requires StepNode(cfg, maxSyncs, node, step).Some?
    requires op in StepNode(cfg, maxSyncs, node, step).value.ops && op !in node.ops
    ensures OpHeld(node.db.blobs, op)
  {
  }

  lemma LocalHeld(cfg: Config, maxSyncs: nat, node: Node, step: LocalStep)
    requires StepNode(cfg, maxSyncs, node, step).Some?
    ensures HeldStep(node, StepNode(cfg, maxSyncs, node, step).value)
  {
    var node' := StepNode(cfg, maxSyncs, node, step).value;
    forall id | id in node.db.blobs
      ensures id in node'.db.blobs
    {
      LocalRowStays(cfg, maxSyncs, node, step, id);
    }
    forall op | op in node'.ops && op !in node.ops
      ensures OpHeld(node.db.blobs, op)
    {
      LocalOpsHeld(cfg, maxSyncs, node, step, op);
    }
  }

  lemma NextHeld(cfg: Config, s: Network, e: Event, s': Network, n: NodeId)
    requires Next(cfg, s, e, s') && n in s.nodes
    ensures n in s'.nodes && HeldStep(s.nodes[n], s'.nodes[n])
  {
    match e.step
    case Local(step) =>
      if e.node == n {
        LocalHeld(cfg, cfg.maxSyncs(n), s.nodes[n], step);
      }
    case AddBlob(id, input, randoms) => AddUnfolds(cfg, s, e.node, id, input, randoms);
    case _ =>
  }

  lemma SameNodes(cfg: Config, s: Network, e: Event, s': Network)
    requires Next(cfg, s, e, s')
    ensures s'.nodes.Keys == s.nodes.Keys
  {
    if e.step.AddBlob? {
      AddUnfolds(cfg, s, e.node, e.step.id, e.step.input, e.step.randoms);
    }
  }

  lemma NextAllHeld(cfg: Config, s: Network, e: Event, s': Network)
    requires Next(cfg, s, e, s') && AllHeld(s.nodes)
    ensures AllHeld(s'.nodes)
  {
    SameNodes(cfg, s, e, s');
    forall n | n in s'.nodes
      ensures OpsHeld(s'.nodes[n])
    {
      NextHeld(cfg, s, e, s', n);
      HeldStepKeeps(s.nodes[n], s'.nodes[n]);
    }
  }

  lemma RunHeld(cfg: Config, states: seq<Network>, events: seq<Event>, j: nat)
    requires IsRun(cfg, states, events) && Init(cfg, states[0]) && j <= |events|
    ensures AllHeld(states[j].nodes)
  {
    InitHeld(cfg, states[0]);
    forall k | 0 <= k < j && AllHeld(states[k].nodes)
      ensures AllHeld(states[k + 1].nodes)
    {
      NextAllHeld(cfg, states[k], events[k], states[k + 1]);
    }
    RunInduction(states, 0, j, (s: Network) => AllHeld(s.nodes));
  }

  lemma InitHeld(cfg: Config, s: Network)
    requires Init(cfg, s)
    ensures AllHeld(s.nodes)
  {
  }

  /** The statement deletes its row, whatever has happened since it was decided on. */
  lemma DeletionTakesEffect(cfg: Config, s: Network, e: Event, s': Network, n: NodeId, id: Uuid)
    requires AllHeld(s.nodes) && Next(cfg, s, e, s') && IsDeletion(e, n, id)
    ensures n in s'.nodes && id in s'.nodes[n].db.blobs && s'.nodes[n].db.blobs[id].deleted
  {
    assert OpsHeld(s.nodes[n]);
    assert OpHeld(s.nodes[n].db.blobs, e.step.step.op);
  }

  /** A deletion is final: in no later state is the blob live on that node again. */
  lemma DeletedForGood(cfg: Config, states: seq<Network>, events: seq<Event>, i: nat, j: nat, n: NodeId, id: Uuid)
    requires IsRun(cfg, states, events) && Init(cfg, states[0]) && i < j <= |events|
    requires IsDeletion(events[i], n, id)
    ensures n in states[j].nodes && !IsLive(states[j].nodes[n].db, id)
  {
    RunHeld(cfg, states, events, i);
    DeletionTakesEffect(cfg, states[i], events[i], states[i + 1], n, id);
    DeletionPermanent(cfg, states, events, i + 1, j, n, id);
  }

  predicate NoDeletion(events: seq<Event>, i: nat, j: nat, n: NodeId, id: Uuid) {
    forall k | i <= k < j && k < |events| :: !IsDeletion(events[k], n, id)
  }

  /**
   * A live row is still live, and the same, in every later state if and only if no delete
   * statement for it was run on its own node in between: deletions elsewhere do not reach it.
   */
  lemma LiveUntilDeleted(cfg: Config, states: seq<Network>, events: seq<Event>, i: nat, j: nat, n: NodeId, id: Uuid)
    requires IsRun(cfg, states, events) && Init(cfg, states[0]) && i <= j <= |events|
    requires n in states[i].nodes && IsLive(states[i].nodes[n].db, id)
    ensures n in states[j].nodes
    ensures IsLive(states[j].nodes[n].db, id) <==> NoDeletion(events, i, j, n, id)
    ensures NoDeletion(events, i, j, n, id) ==>
              states[j].nodes[n].db.blobs[id] == states[i].nodes[n].db.blobs[id]
  {
    InitInv(cfg, states[0]);
    RunKeeps(cfg, states, events, 0, i);
    RunKeeps(cfg, states, events, i, j);
    if NoDeletion(events, i, j, n, id) {
      Undisturbed(cfg, states, events, i, j, n, id);
    } else {
      var k :| i <= k < j && k < |events| && IsDeletion(events[k], n, id);
      DeletedForGood(cfg, states, events, k, j, n, id);
    }
  }

  /** The row of `id` on `n` is `row`. */
  predicate Holds(s: Network, n: NodeId, id: Uuid, row: Row) {
    n in s.nodes && id in s.nodes[n].db.blobs && s.nodes[n].db.blobs[id] == row
  }

  lemma Undisturbed(cfg: Config, states: seq<Network>, events: seq<Event>, i: nat, j: nat, n: NodeId, id: Uuid)
    requires IsRun(cfg, states, events) && i <= j <= |events| && NoDeletion(events, i, j, n, id)
    requires n in states[i].nodes && id in states[i].nodes[n].db.blobs
    ensures Holds(states[j], n, id, states[i].nodes[n].db.blobs[id])
  {
    var row := states[i].nodes[n].db.blobs[id];
    forall k | i <= k < j && Holds(states[k], n, id, row)
      ensures Holds(states[k + 1], n, id, row)
    {
      OnlyDeletionsChangeRows(cfg, states[k], events[k], states[k + 1], n, id);
    }
    RunInduction(states, i, j, s => Holds(s, n, id, row));
  }

  // ---- Who deletes ---------------------------------------------------------------------

  /** The owner of the row of `id` on `n` asks for it to be deleted. */
  predicate OwnerAsks(s: Network, e: Event, n: NodeId, id: Uuid) {
    && n in s.nodes && id in s.nodes[n].db.blobs && !s.nodes[n].db.blobs[id].deleted
    && e == Event(n, Local(DeleteSelect(id, s.nodes[n].db.blobs[id].meta.ownerId)))
  }

  lemma LocalAsks(cfg: Config, maxSyncs: nat, node: Node, step: LocalStep, op: Op)
    requires StepNode(cfg, maxSyncs, node, step).Some? && op.MarkDeleted?
    requires op in StepNode(cfg, maxSyncs, node, step).value.ops && op !in node.ops
    ensures var id := op.entry.id;
            && id in node.db.blobs && !node.db.blobs[id].deleted
            && step == DeleteSelect(id, node.db.blobs[id].meta.ownerId)
  {
  }

  lemma AskStep(cfg: Config, s: Network, e: Event, s': Network, n: NodeId, op: Op)
    requires Next(cfg, s, e, s') && op.MarkDeleted? && n in s'.nodes && op in s'.nodes[n].ops
    ensures n in s.nodes && (op in s.nodes[n].ops || OwnerAsks(s, e, n, op.entry.id))
  {
    SameNodes(cfg, s, e, s');
    if op !in s.nodes[n].ops {
      if e.step.AddBlob? {
        AddUnfolds(cfg, s, e.node, e.step.id, e.step.input, e.step.randoms);
      } else if e.step.Local? {
        LocalAsks(cfg, cfg.maxSyncs(n), s.nodes[n], e.step.step, op);
      }
    }
  }

  lemma {:induction false} PendingDeleteWasAsked(cfg: Config, states: seq<Network>, events: seq<Event>, j: nat,
                                                 n: NodeId, op: Op)
    requires IsRun(cfg, states, events) && Init(cfg, states[0]) && j <= |events|
    requires op.MarkDeleted? && n in states[j].nodes && op in states[j].nodes[n].ops
    ensures exists i :: 0 <= i < j && OwnerAsks(states[i], events[i], n, op.entry.id)
    decreases j
  {
    if j > 0 {
      AskStep(cfg, states[j - 1], events[j - 1], states[j], n, op);
      if op in states[j - 1].nodes[n].ops {
        PendingDeleteWasAsked(cfg, states, events, j - 1, n, op);
      }
    }
  }

  /** A row is deleted on behalf of a user only after the owner of that very row has asked for it. */
  lemma OnlyOwnersDelete(cfg: Config, states: seq<Network>, events: seq<Event>, j: nat, n: NodeId, e: SyncQueue.Entry)
    requires IsRun(cfg, states, events) && Init(cfg, states[0]) && j < |events|
    requires events[j] == Event(n, Local(Continue(MarkDeleted(e))))
    ensures exists i :: 0 <= i < j && OwnerAsks(states[i], events[i], n, e.id)
  {
    assert Next(cfg, states[j], events[j], states[j + 1]);
    PendingDeleteWasAsked(cfg, states, events, j, n, MarkDeleted(e));
  }
}

// What every step keeps true of a single node, and how a step may change it.
module NodeInvariant {
  import opened Wrappers
  import opened LittleEndian
  import opened Store
  import opened SyncQueue
  import opened FetchTask
  import opened Network

  // ---- The invariant ------------------------------------------------------------

  /** A blob whose row can be read. */
  predicate IsReadable(minted: map<Uuid, Mint>, id: Uuid) {
    id in minted && Readable(MintedRow(minted[id]))
  }

  /** The hash kept with an id is the hash its blob was made with, and its row can be read. */
  predicate EntryOk(minted: map<Uuid, Mint>, e: Entry) {
    IsReadable(minted, e.id) && e.hash == minted[e.id].meta.hash
  }

  /** Statuses are kept only for such blobs. */
  predicate StatusOk(minted: map<Uuid, Mint>, status: map<Key, SyncStatus>) {
    forall key | key in status :: IsReadable(minted, key.blob)
  }

  function ProtoOf(mint: Mint): ProtoBlob {
    ProtoBlob(Some(mint.meta), mint.content)
  }

  predicate RowsOk(minted: map<Uuid, Mint>, blobs: map<Uuid, Row>) {
    forall id | id in blobs ::
      id in minted && blobs[id].meta == minted[id].meta && blobs[id].content == minted[id].content
  }

  predicate OpOk(minted: map<Uuid, Mint>, op: Op) {
    match op
    case EnqueueAdded(entry) => EntryOk(minted, entry)
    case MarkDeleted(entry) => EntryOk(minted, entry)
    case EnqueueDeleted(entry) => EntryOk(minted, entry)
    case _ => true
  }

  predicate OpsOk(minted: map<Uuid, Mint>, ops: multiset<Op>) {
    forall op | op in ops :: OpOk(minted, op)
  }

  predicate EntriesOk(minted: map<Uuid, Mint>, entries: seq<Entry>) {
    forall e | e in entries :: EntryOk(minted, e)
  }

  predicate AnnouncerOk(minted: map<Uuid, Mint>, a: Announcer) {
    EntriesOk(minted, a.blobs) && EntryOk(minted, a.current)
  }

  predicate PcOk(minted: map<Uuid, Mint>, pc: LoopPc) {
    match pc
    case NextBlob(_, blobs) => EntriesOk(minted, blobs)
    case NextPeer(a) => AnnouncerOk(minted, a)
    case Offering(a, _) => AnnouncerOk(minted, a)
    case Offered(a, _) => AnnouncerOk(minted, a)
    case Acked(a, _) => AnnouncerOk(minted, a)
    case Stopped => false
    case _ => true
  }

  /** The existence check is behind, the INSERT is not. */
  predicate BetweenCheckAndInsert(phase: Phase) {
    phase.Trying? || phase.Calling? || phase.Serving? || phase.Answered? || phase.Storing?
  }

  /** The blob a task has been given, if any. */
  function Given(phase: Phase): Option<ProtoBlob> {
    match phase
    case Serving(_, _, blob) => Some(blob)
    case Answered(_, _, Found(blob)) => Some(blob)
    case Storing(_, meta, content) => Some(ProtoBlob(Some(meta), content))
    case _ => None
  }

  /** The row must be there: found by the check, met by the INSERT, or inserted. */
  predicate RowExpected(phase: Phase) {
    phase.Marking? || phase.Completing? || (phase.Finished? && !phase.result.Exhausted?)
  }

  predicate TaskOk(minted: map<Uuid, Mint>, blobs: map<Uuid, Row>, id: Uuid, task: Task) {
    && EntryOk(minted, Entry(id, task.expected))
    && (Given(task.phase).Some? ==> Given(task.phase).value == ProtoOf(minted[id]))
    && (BetweenCheckAndInsert(task.phase) ==>
          (id in blobs <==> task.tombstone) && (id in blobs ==> blobs[id].deleted))
    && (RowExpected(task.phase) ==> id in blobs)
  }

  predicate TasksOk(minted: map<Uuid, Mint>, blobs: map<Uuid, Row>, tasks: map<Uuid, Task>) {
    forall id | id in tasks :: TaskOk(minted, blobs, id, tasks[id])
  }

  /** Tasks run only while a round is being joined, and no more than the limit. */
  predicate TasksBounded(maxSyncs: nat, pc: LoopPc, tasks: map<Uuid, Task>) {
    |tasks.Keys| <= maxSyncs && (!pc.Joining? ==> tasks == map[])
  }

  predicate NodeInv(maxSyncs: nat, minted: map<Uuid, Mint>, node: Node) {
    && RowsOk(minted, node.db.blobs)
    && StatusOk(minted, node.db.status)
    && OpsOk(minted, node.ops)
    && PcOk(minted, node.pc)
    && EntriesOk(minted, node.queue.entries)
    && TasksOk(minted, node.db.blobs, node.tasks)
    && QueueInv(node.queue, node.tasks.Keys)
    && TasksBounded(maxSyncs, node.pc, node.tasks)
  }

  /** Ids are what rows are stored under. */
  predicate IdsOk(minted: map<Uuid, Mint>) {
    forall id | id in minted :: minted[id].meta.id == id
  }

  // ---- How a step may change a node ----------------------------------------------

  /** The peer from whose table the task has been given its blob. */
  function Source(phase: Phase): Option<NodeId> {
    match phase
    case Serving(peer, _, _) => Some(peer)
    case Answered(peer, _, Found(_)) => Some(peer)
    case Storing(peer, _, _) => Some(peer)
    case Completing(peer) => Some(peer)
    case _ => None
  }

  predicate Sourced(node: Node, id: Uuid, peer: NodeId) {
    id in node.tasks && Source(node.tasks[id].phase) == Some(peer)
  }

  /** The reply of `peer` with the blob is on its way to the task for `id` or in its hands. */
  predicate Received(node: Node, id: Uuid, peer: NodeId) {
    Sourced(node, id, peer) && !node.tasks[id].phase.Serving?
  }

  /** What a peer that records `completed` for this node may rely on. */
  predicate Justified(node: Node, id: Uuid, peer: NodeId) {
    id in node.db.blobs || Received(node, id, peer)
  }

  predicate IsCompleted(node: Node, id: Uuid, peer: NodeId) {
    Completes(node.db, Key(id, peer))
  }

  /** The changes a local step makes. */
  ghost predicate Evolves(old_: Node, new_: Node) {
    && RowsKept(old_.db.blobs, new_.db.blobs)
    && (forall id, peer :: Justified(old_, id, peer) ==> Justified(new_, id, peer))
    && (forall id, peer :: IsCompleted(new_, id, peer) ==> IsCompleted(old_, id, peer) || Sourced(old_, id, peer))
    && (forall id, peer :: Sourced(new_, id, peer) ==> Sourced(old_, id, peer))
  }

  // ---- Tasks ---------------------------------------------------------------------

  /** Other tasks do not mind a row that is deleted. */
  lemma TasksSurviveDelete(minted: map<Uuid, Mint>, db: Database, tasks: map<Uuid, Task>, id: Uuid)
    requires TasksOk(minted, db.blobs, tasks)
    ensures TasksOk(minted, SoftDelete(db, id).blobs, tasks)
  {
    forall other | other in tasks
      ensures TaskOk(minted, SoftDelete(db, id).blobs, other, tasks[other])
    {
      assert TaskOk(minted, db.blobs, other, tasks[other]);
    }
  }

  /** The statement of a task keeps it in order. */
  lemma AdvanceKeeps(sha: Bytes -> Hash, minted: map<Uuid, Mint>, db: Database, id: Uuid, task: Task)
    requires IdsOk(minted) && !Waiting(task.phase) && TaskOk(minted, db.blobs, id, task)
    ensures var (db', task') := Advance(sha, db, id, task); TaskOk(minted, db'.blobs, id, task')
  {
  }

  /** It changes no row, except that it may insert the row of its own blob as it was minted. */
  lemma AdvanceRows(sha: Bytes -> Hash, minted: map<Uuid, Mint>, db: Database, id: Uuid, task: Task)
    requires IdsOk(minted) && !Waiting(task.phase) && TaskOk(minted, db.blobs, id, task)
    ensures var db' := Advance(sha, db, id, task).0;
            || db'.blobs == db.blobs
            || (id !in db.blobs && db'.blobs == db.blobs[id := ToRow(ProtoOf(minted[id]))])
  {
  }

  /** A reply in hand is kept until the row is there; nothing is completed but what was sourced. */
  lemma AdvanceSource(sha: Bytes -> Hash, minted: map<Uuid, Mint>, db: Database, id: Uuid, task: Task)
    requires IdsOk(minted) && !Waiting(task.phase) && TaskOk(minted, db.blobs, id, task)
    ensures var (db', task') := Advance(sha, db, id, task);
            && (Source(task'.phase).Some? ==> Source(task'.phase) == Source(task.phase))
            && (Source(task.phase).Some? ==>
                  id in db'.blobs || (Source(task'.phase) == Source(task.phase) && !task'.phase.Serving?))
            && (forall key: Key | key in db'.status && db'.status[key] == Completed ::
                  (key in db.status && db.status[key] == Completed) ||
                  (key.blob == id && Source(task.phase) == Some(key.peer)))
  {
  }

  lemma AdvanceTables(sha: Bytes -> Hash, minted: map<Uuid, Mint>, db: Database, id: Uuid, task: Task)
    requires IdsOk(minted) && !Waiting(task.phase) && TaskOk(minted, db.blobs, id, task)
    requires RowsOk(minted, db.blobs) && StatusOk(minted, db.status)
    ensures var db' := Advance(sha, db, id, task).0; RowsOk(minted, db'.blobs) && StatusOk(minted, db'.status)
  {
    AdvanceRows(sha, minted, db, id, task);
  }

  /** A node whose tables and tasks are replaced by others in order. */
  lemma TablesReplaced(maxSyncs: nat, minted: map<Uuid, Mint>, node: Node, node': Node)
    requires NodeInv(maxSyncs, minted, node) && node' == node.(db := node'.db, tasks := node'.tasks)
    requires RowsOk(minted, node'.db.blobs) && StatusOk(minted, node'.db.status)
    requires TasksOk(minted, node'.db.blobs, node'.tasks)
    requires node'.tasks.Keys == node.tasks.Keys
    ensures NodeInv(maxSyncs, minted, node')
  {
  }

  lemma TaskStepKeeps(sha: Bytes -> Hash, maxSyncs: nat, minted: map<Uuid, Mint>, node: Node, id: Uuid)
    requires IdsOk(minted) && NodeInv(maxSyncs, minted, node)
    requires id in node.tasks && !Waiting(node.tasks[id].phase)
    ensures NodeInv(maxSyncs, minted, AdvanceTask(sha, node, id))
  {
    var node' := AdvanceTask(sha, node, id);
    assert TaskOk(minted, node.db.blobs, id, node.tasks[id]);
    AdvanceKeeps(sha, minted, node.db, id, node.tasks[id]);
    AdvanceRows(sha, minted, node.db, id, node.tasks[id]);
    AdvanceTables(sha, minted, node.db, id, node.tasks[id]);
    OneTaskOk(minted, node, node', id);
    TablesReplaced(maxSyncs, minted, node, node');
  }

  /** Changing one task and its own row leaves the other tasks in order. */
  lemma OneTaskOk(minted: map<Uuid, Mint>, node: Node, node': Node, id: Uuid)
    requires TasksOk(minted, node.db.blobs, node.tasks)
    requires id in node'.tasks && node'.tasks == node.tasks[id := node'.tasks[id]]
    requires forall other | other != id ::
               (other in node.db.blobs <==> other in node'.db.blobs) &&
               (other in node.db.blobs ==> node.db.blobs[other] == node'.db.blobs[other])
    requires TaskOk(minted, node'.db.blobs, id, node'.tasks[id])
    ensures TasksOk(minted, node'.db.blobs, node'.tasks)
  {
    forall other | other in node'.tasks
      ensures TaskOk(minted, node'.db.blobs, other, node'.tasks[other])
    {
      if other != id {
        assert TaskOk(minted, node.db.blobs, other, node.tasks[other]);
      }
    }
  }

  lemma TaskStepEvolves(sha: Bytes -> Hash, maxSyncs: nat, minted: map<Uuid, Mint>, node: Node, id: Uuid)
    requires IdsOk(minted) && NodeInv(maxSyncs, minted, node)
    requires id in node.tasks && !Waiting(node.tasks[id].phase)
    ensures Evolves(node, AdvanceTask(sha, node, id))
  {
    assert TaskOk(minted, node.db.blobs, id, node.tasks[id]);
    AdvanceRows(sha, minted, node.db, id, node.tasks[id]);
    AdvanceSource(sha, minted, node.db, id, node.tasks[id]);
    var (db', task') := Advance(sha, node.db, id, node.tasks[id]);
    var node' := AdvanceTask(sha, node, id);
    assert node'.db == db' && node'.tasks == node.tasks[id := task'];
    OneTaskEvolves(node, node', id);
  }

  lemma OneTaskEvolves(node: Node, node': Node, id: Uuid)
    requires id in node.tasks && id in node'.tasks && node'.tasks == node.tasks[id := node'.tasks[id]]
    requires RowsKept(node.db.blobs, node'.db.blobs)
    requires Source(node'.tasks[id].phase).Some? ==> Source(node'.tasks[id].phase) == Source(node.tasks[id].phase)
    requires Source(node.tasks[id].phase).Some? && !node.tasks[id].phase.Serving? ==>
               id in node'.db.blobs ||
               (Source(node'.tasks[id].phase) == Source(node.tasks[id].phase) && !node'.tasks[id].phase.Serving?)
    requires forall key: Key | key in node'.db.status && node'.db.status[key] == Completed ::
               (key in node.db.status && node.db.status[key] == Completed) ||
               (key.blob == id && Source(node.tasks[id].phase) == Some(key.peer))
    ensures Evolves(node, node')
  {
  }

  // ---- The other local steps -------------------------------------------------------

  lemma QuietEvolves(node: Node, node': Node)
    requires node'.tasks == node.tasks && RowsKept(node.db.blobs, node'.db.blobs)
    requires forall key: Key | key in node'.db.status && node'.db.status[key] == Completed ::
               key in node.db.status && node.db.status[key] == Completed
    ensures Evolves(node, node')
  {
  }

  lemma EnqueueStep(maxSyncs: nat, minted: map<Uuid, Mint>, node: Node, e: Entry)
    requires NodeInv(maxSyncs, minted, node) && EntryOk(minted, e)
    ensures NodeInv(maxSyncs, minted, node.(queue := Enqueue(node.queue, e)))
    ensures Evolves(node, node.(queue := Enqueue(node.queue, e)))
  {
    EnqueueKeeps(node.queue, node.tasks.Keys, e);
    assert EntriesOk(minted, Enqueue(node.queue, e).entries);
    QuietEvolves(node, node.(queue := Enqueue(node.queue, e)));
  }

  lemma SoftDeleteTables(minted: map<Uuid, Mint>, db: Database, id: Uuid)
    requires RowsOk(minted, db.blobs)
    ensures RowsOk(minted, SoftDelete(db, id).blobs) && RowsKept(db.blobs, SoftDelete(db, id).blobs)
    ensures SoftDelete(db, id).status == db.status
  {
  }

  lemma DeleteStep(maxSyncs: nat, minted: map<Uuid, Mint>, node: Node, id: Uuid)
    requires NodeInv(maxSyncs, minted, node)
    ensures NodeInv(maxSyncs, minted, node.(db := SoftDelete(node.db, id)))
    ensures Evolves(node, node.(db := SoftDelete(node.db, id)))
  {
    SoftDeleteTables(minted, node.db, id);
    TasksSurviveDelete(minted, node.db, node.tasks, id);
    TablesReplaced(maxSyncs, minted, node, node.(db := SoftDelete(node.db, id)));
    QuietEvolves(node, node.(db := SoftDelete(node.db, id)));
  }

  lemma OpsStep(maxSyncs: nat, minted: map<Uuid, Mint>, node: Node, ops: multiset<Op>)
    requires NodeInv(maxSyncs, minted, node) && OpsOk(minted, ops)
    ensures NodeInv(maxSyncs, minted, node.(ops := ops)) && Evolves(node, node.(ops := ops))
  {
    QuietEvolves(node, node.(ops := ops));
  }

  lemma EvolvesTransitive(a: Node, b: Node, c: Node)
    requires Evolves(a, b) && Evolves(b, c)
    ensures Evolves(a, c)
  {
  }

  lemma RunOpKeeps(maxSyncs: nat, minted: map<Uuid, Mint>, node: Node, op: Op)
    requires NodeInv(maxSyncs, minted, node) && OpOk(minted, op)
    ensures NodeInv(maxSyncs, minted, RunOp(node, op)) && Evolves(node, RunOp(node, op))
  {
    match op
    case EnqueueAdded(entry) => EnqueueStep(maxSyncs, minted, node, entry);
    case MarkDeleted(entry) =>
      var ops := node.ops + multiset{EnqueueDeleted(entry)};
      OpsStep(maxSyncs, minted, node, ops);
      DeleteStep(maxSyncs, minted, node.(ops := ops), entry.id);
      EvolvesTransitive(node, node.(ops := ops), RunOp(node, op));
    case EnqueueDeleted(entry) =>
      var ops := node.ops + multiset{Requeue(entry.id)};
      OpsStep(maxSyncs, minted, node, ops);
      EnqueueStep(maxSyncs, minted, node.(ops := ops), entry);
      EvolvesTransitive(node, node.(ops := ops), RunOp(node, op));
    case Requeue(id) =>
      RequeueNeverInserts(node.db, id);
      assert RunOp(node, op) == node;
      QuietEvolves(node, node);
    case MarkRemotelyDeleted(id) => DeleteStep(maxSyncs, minted, node, id);
  }

  lemma ContinueKeeps(maxSyncs: nat, minted: map<Uuid, Mint>, node: Node, op: Op)
    requires NodeInv(maxSyncs, minted, node) && op in node.ops
    ensures var node' := RunOp(node.(ops := node.ops - multiset{op}), op);
            NodeInv(maxSyncs, minted, node') && Evolves(node, node')
  {
    var ops := node.ops - multiset{op};
    OpsStep(maxSyncs, minted, node, ops);
    RunOpKeeps(maxSyncs, minted, node.(ops := ops), op);
    EvolvesTransitive(node, node.(ops := ops), RunOp(node.(ops := ops), op));
  }

  lemma SpawnOk(minted: map<Uuid, Mint>, blobs: map<Uuid, Row>, batch: seq<Entry>)
    requires EntriesOk(minted, batch)
    ensures TasksOk(minted, blobs, Spawn(batch))
  {
    forall id | id in Spawn(batch)
      ensures TaskOk(minted, blobs, id, Spawn(batch)[id])
    {
      assert EntryOk(minted, Entry(id, Spawn(batch)[id].expected));
    }
  }

  lemma PollBounded(maxSyncs: nat, q: Queue)
    ensures |Ids(Batch(q, maxSyncs))| <= maxSyncs
    ensures Batch(q, maxSyncs) == [] ==> Spawn(Batch(q, maxSyncs)) == map[]
  {
    IdsCount(Batch(q, maxSyncs));
  }

  lemma FreshTasksEvolve(node: Node, node': Node)
    requires node.tasks == map[] && node'.db == node.db
    requires forall id | id in node'.tasks :: node'.tasks[id].phase == Spawned
    ensures Evolves(node, node')
  {
  }

  lemma BatchEntriesOk(maxSyncs: nat, minted: map<Uuid, Mint>, q: Queue)
    requires EntriesOk(minted, q.entries)
    ensures EntriesOk(minted, Batch(q, maxSyncs)) && EntriesOk(minted, TakeBatch(q, maxSyncs).entries)
  {
  }

  lemma PollQueueInv(maxSyncs: nat, node: Node)
    requires QueueInv(node.queue, node.tasks.Keys) && node.tasks == map[]
    ensures var node' := PollQueue(node, maxSyncs);
            && node'.tasks == Spawn(Batch(node.queue, maxSyncs))
            && QueueInv(node'.queue, node'.tasks.Keys) && TasksBounded(maxSyncs, node'.pc, node'.tasks)
  {
    var batch := Batch(node.queue, maxSyncs);
    TakeBatchKeeps(node.queue, node.tasks.Keys, maxSyncs);
    PollBounded(maxSyncs, node.queue);
    SpawnedKeys(node.tasks, batch);
  }

  lemma SpawnedKeys(tasks: map<Uuid, Task>, batch: seq<Entry>)
    requires tasks == map[]
    ensures tasks + Spawn(batch) == Spawn(batch)
    ensures (tasks + Spawn(batch)).Keys == tasks.Keys + Ids(batch)
  {
  }

  lemma PollKeeps(maxSyncs: nat, minted: map<Uuid, Mint>, node: Node)
    requires NodeInv(maxSyncs, minted, node) && node.pc.Polling?
    ensures var node' := PollQueue(node, maxSyncs); NodeInv(maxSyncs, minted, node') && Evolves(node, node')
  {
    BatchEntriesOk(maxSyncs, minted, node.queue);
    PollQueueInv(maxSyncs, node);
    SpawnOk(minted, node.db.blobs, Batch(node.queue, maxSyncs));
    FreshTasksEvolve(node, PollQueue(node, maxSyncs));
  }

  lemma PhaseStep(maxSyncs: nat, minted: map<Uuid, Mint>, node: Node, id: Uuid, phase: Phase)
    requires NodeInv(maxSyncs, minted, node) && id in node.tasks
    requires TaskOk(minted, node.db.blobs, id, node.tasks[id].(phase := phase))
    ensures NodeInv(maxSyncs, minted, SetPhase(node, id, phase))
  {
    var node' := SetPhase(node, id, phase);
    OneTaskOk(minted, node, node', id);
    TablesReplaced(maxSyncs, minted, node, node');
  }

  lemma WaitingStepKeeps(maxSyncs: nat, minted: map<Uuid, Mint>, node: Node, id: Uuid, phase: Phase)
    requires NodeInv(maxSyncs, minted, node) && id in node.tasks
    requires var now := node.tasks[id].phase;
             || (now.Spawned? && phase.Checking?)
             || (now.Calling? && phase.Answered? && !phase.answer.Found?)
    ensures var node' := SetPhase(node, id, phase); NodeInv(maxSyncs, minted, node') && Evolves(node, node')
  {
    WaitingPhaseOk(minted, node.db.blobs, id, node.tasks[id], phase);
    PhaseStep(maxSyncs, minted, node, id, phase);
    OneTaskEvolves(node, SetPhase(node, id, phase), id);
  }

  lemma WaitingPhaseOk(minted: map<Uuid, Mint>, blobs: map<Uuid, Row>, id: Uuid, task: Task, phase: Phase)
    requires TaskOk(minted, blobs, id, task)
    requires || (task.phase.Spawned? && phase.Checking?)
             || (task.phase.Calling? && phase.Answered? && !phase.answer.Found?)
    ensures TaskOk(minted, blobs, id, task.(phase := phase))
  {
  }

  lemma DoneKeeps(maxSyncs: nat, minted: map<Uuid, Mint>, node: Node, id: Uuid)
    requires NodeInv(maxSyncs, minted, node) && id in node.tasks && node.tasks[id].phase.Finished?
    ensures var node' := node.(tasks := node.tasks - {id}, queue := Release(node.queue, id));
            NodeInv(maxSyncs, minted, node') && Evolves(node, node')
  {
    ReleaseKeeps(node.queue, node.tasks.Keys, id);
    var tasks := node.tasks - {id};
    assert tasks.Keys == node.tasks.Keys - {id};
    FewerTasksOk(minted, node.db.blobs, node.tasks, id);
    FinishedEvolves(node, node.(tasks := tasks, queue := Release(node.queue, id)), id);
  }

  lemma FewerTasksOk(minted: map<Uuid, Mint>, blobs: map<Uuid, Row>, tasks: map<Uuid, Task>, id: Uuid)
    requires TasksOk(minted, blobs, tasks)
    ensures TasksOk(minted, blobs, tasks - {id})
  {
    forall other | other in tasks - {id}
      ensures TaskOk(minted, blobs, other, tasks[other])
    {
    }
  }

  lemma FinishedEvolves(node: Node, node': Node, id: Uuid)
    requires id in node.tasks && node.tasks[id].phase.Finished?
    requires node'.db == node.db && node'.tasks == node.tasks - {id}
    ensures Evolves(node, node')
  {
  }

  lemma PcStep(maxSyncs: nat, minted: map<Uuid, Mint>, node: Node, pc: LoopPc)
    requires NodeInv(maxSyncs, minted, node) && PcOk(minted, pc)
    requires node.tasks == map[] || (node.pc.Joining? && pc.Joining?)
    ensures NodeInv(maxSyncs, minted, node.(pc := pc)) && Evolves(node, node.(pc := pc))
  {
    QuietEvolves(node, node.(pc := pc));
  }

  /** Every blob listed has a status, so its row can be read. */
  lemma ListedOk(minted: map<Uuid, Mint>, db: Database, blobs: seq<Entry>)
    requires RowsOk(minted, db.blobs) && StatusOk(minted, db.status) && ListsShareable(db, blobs)
    ensures EntriesOk(minted, blobs) && AllReadable(db, blobs)
  {
    forall i | 0 <= i < |blobs|
      ensures EntryOk(minted, blobs[i]) && blobs[i].id in db.blobs && Readable(db.blobs[blobs[i].id])
    {
      assert blobs[i].id in Shareable(db);
      var peer :| peer in PendingPeers(db, blobs[i].id);
      assert Key(blobs[i].id, peer) in db.status;
    }
  }

  lemma ListKeeps(maxSyncs: nat, minted: map<Uuid, Mint>, node: Node, peers: set<NodeId>, blobs: seq<Entry>)
    requires NodeInv(maxSyncs, minted, node) && node.tasks == map[] && ListsShareable(node.db, blobs)
    ensures AllReadable(node.db, blobs)
    ensures var node' := node.(pc := NextBlob(peers, blobs)); NodeInv(maxSyncs, minted, node') && Evolves(node, node')
  {
    ListedOk(minted, node.db, blobs);
    PcStep(maxSyncs, minted, node, NextBlob(peers, blobs));
  }

  lemma TargetsKeeps(maxSyncs: nat, minted: map<Uuid, Mint>, node: Node, order: seq<NodeId>)
    requires NodeInv(maxSyncs, minted, node) && node.pc.NextBlob? && node.pc.blobs != []
    ensures var a := Announcer(node.pc.peers, node.pc.blobs[1..], node.pc.blobs[0], order);
            NodeInv(maxSyncs, minted, node.(pc := NextPeer(a))) && Evolves(node, node.(pc := NextPeer(a)))
  {
    var a := Announcer(node.pc.peers, node.pc.blobs[1..], node.pc.blobs[0], order);
    assert node.pc.blobs[0] in node.pc.blobs;
    PcStep(maxSyncs, minted, node, NextPeer(a));
  }

  lemma AnnouncerKeeps(maxSyncs: nat, minted: map<Uuid, Mint>, node: Node)
    requires NodeInv(maxSyncs, minted, node) && AdvanceAnnouncer(node).Some?
    ensures var node' := AdvanceAnnouncer(node).value; NodeInv(maxSyncs, minted, node') && Evolves(node, node')
  {
    match node.pc
    case NextBlob(_, _) => PcStep(maxSyncs, minted, node, Polling);
    case NextPeer(a) => PcStep(maxSyncs, minted, node, AdvanceAnnouncer(node).value.pc);
    case Acked(a, to) =>
      var marked := node.(db := SetStatus(node.db, a.current.id, to, Pending));
      PendingKeeps(maxSyncs, minted, node, a.current.id, to);
      PcStep(maxSyncs, minted, marked, NextPeer(a));
      EvolvesTransitive(node, marked, marked.(pc := NextPeer(a)));
  }

  lemma PendingKeeps(maxSyncs: nat, minted: map<Uuid, Mint>, node: Node, id: Uuid, peer: NodeId)
    requires NodeInv(maxSyncs, minted, node)
    ensures var node' := node.(db := SetStatus(node.db, id, peer, Pending));
            NodeInv(maxSyncs, minted, node') && Evolves(node, node')
  {
    var node' := node.(db := SetStatus(node.db, id, peer, Pending));
    TablesReplaced(maxSyncs, minted, node, node');
    QuietEvolves(node, node');
  }

  lemma RequestStepKeeps(cfg: Config, maxSyncs: nat, minted: map<Uuid, Mint>, node: Node, step: LocalStep)
    requires NodeInv(maxSyncs, minted, node) && StepNode(cfg, maxSyncs, node, step).Some?
    requires step.Handshake? || step.DeleteSelect? || step.RemoteDeleteSelect? || step.Continue?
    ensures var node' := StepNode(cfg, maxSyncs, node, step).value;
            NodeInv(maxSyncs, minted, node') && Evolves(node, node')
  {
    match step
    case Handshake(peer) => QuietEvolves(node, node.(peers := node.peers + {peer}));
    case DeleteSelect(id, user) =>
      OpsStep(maxSyncs, minted, node, node.ops + multiset{MarkDeleted(Entry(id, node.db.blobs[id].meta.hash))});
    case RemoteDeleteSelect(id) =>
      OpsStep(maxSyncs, minted, node, node.ops + multiset{MarkRemotelyDeleted(id)});
    case Continue(op) => ContinueKeeps(maxSyncs, minted, node, op);
  }

  lemma FetchStepKeeps(cfg: Config, maxSyncs: nat, minted: map<Uuid, Mint>, node: Node, step: LocalStep)
    requires IdsOk(minted)
    requires NodeInv(maxSyncs, minted, node) && StepNode(cfg, maxSyncs, node, step).Some?
    requires step.Poll? || step.SnapshotPeers? || step.TaskStep? || step.CallFails? || step.TaskDone?
    ensures var node' := StepNode(cfg, maxSyncs, node, step).value;
            NodeInv(maxSyncs, minted, node') && Evolves(node, node')
  {
    match step
    case Poll => PollKeeps(maxSyncs, minted, node);
    case SnapshotPeers(id, order) => WaitingStepKeeps(maxSyncs, minted, node, id, Checking(order));
    case TaskStep(id) =>
      TaskStepKeeps(cfg.sha, maxSyncs, minted, node, id);
      TaskStepEvolves(cfg.sha, maxSyncs, minted, node, id);
    case CallFails(id) =>
      var Calling(peer, rest) := node.tasks[id].phase;
      WaitingStepKeeps(maxSyncs, minted, node, id, Answered(peer, rest, CallError));
    case TaskDone(id) => DoneKeeps(maxSyncs, minted, node, id);
  }

  lemma LoopStepKeeps(cfg: Config, maxSyncs: nat, minted: map<Uuid, Mint>, node: Node, step: LocalStep)
    requires NodeInv(maxSyncs, minted, node) && StepNode(cfg, maxSyncs, node, step).Some?
    requires step.Joined? || step.AnnounceSnapshot? || step.OfferFails?
    ensures var node' := StepNode(cfg, maxSyncs, node, step).value;
            NodeInv(maxSyncs, minted, node') && Evolves(node, node')
  {
    match step
    case Joined => PcStep(maxSyncs, minted, node, Snapshotting);
    case AnnounceSnapshot => PcStep(maxSyncs, minted, node, Listing(node.peers));
    case OfferFails => PcStep(maxSyncs, minted, node, NextPeer(node.pc.a));
  }

  lemma AnnounceStepKeeps(cfg: Config, maxSyncs: nat, minted: map<Uuid, Mint>, node: Node, step: LocalStep)
    requires NodeInv(maxSyncs, minted, node) && StepNode(cfg, maxSyncs, node, step).Some?
    requires step.AnnounceList? || step.AnnounceTargets? || step.AnnounceNext?
    ensures var node' := StepNode(cfg, maxSyncs, node, step).value;
            NodeInv(maxSyncs, minted, node') && Evolves(node, node')
  {
    match step
    case AnnounceList(blobs) => ListKeeps(maxSyncs, minted, node, node.pc.peers, blobs);
    case AnnounceTargets(order) => TargetsKeeps(maxSyncs, minted, node, order);
    case AnnounceNext => AnnouncerKeeps(maxSyncs, minted, node);
  }

  /** Every step of a node keeps its invariant and changes it only as described. */
  lemma StepNodeKeeps(cfg: Config, maxSyncs: nat, minted: map<Uuid, Mint>, node: Node, step: LocalStep)
    requires IdsOk(minted) && NodeInv(maxSyncs, minted, node)
    requires StepNode(cfg, maxSyncs, node, step).Some?
    ensures var node' := StepNode(cfg, maxSyncs, node, step).value;
            NodeInv(maxSyncs, minted, node') && Evolves(node, node')
  {
    match step
    case Handshake(_) => RequestStepKeeps(cfg, maxSyncs, minted, node, step);
    case DeleteSelect(_, _) => RequestStepKeeps(cfg, maxSyncs, minted, node, step);
    case RemoteDeleteSelect(_) => RequestStepKeeps(cfg, maxSyncs, minted, node, step);
    case Continue(_) => RequestStepKeeps(cfg, maxSyncs, minted, node, step);
    case Poll => FetchStepKeeps(cfg, maxSyncs, minted, node, step);
    case SnapshotPeers(_, _) => FetchStepKeeps(cfg, maxSyncs, minted, node, step);
    case TaskStep(_) => FetchStepKeeps(cfg, maxSyncs, minted, node, step);
    case CallFails(_) => FetchStepKeeps(cfg, maxSyncs, minted, node, step);
    case TaskDone(_) => FetchStepKeeps(cfg, maxSyncs, minted, node, step);
    case AnnounceList(_) => AnnounceStepKeeps(cfg, maxSyncs, minted, node, step);
    case AnnounceTargets(_) => AnnounceStepKeeps(cfg, maxSyncs, minted, node, step);
    case AnnounceNext => AnnounceStepKeeps(cfg, maxSyncs, minted, node, step);
    case _ => LoopStepKeeps(cfg, maxSyncs, minted, node, step);
  }
}

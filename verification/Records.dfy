// The status row of the peer that a task is dealing with, under every interleaving:
// it is there as long as the task deals with that peer, and says `completed` when the
// task has stored the peer's blob.
module Records {
  import opened Wrappers
  import opened LittleEndian
  import opened Store
  import opened SyncQueue
  import opened FetchTask
  import opened Network
  import opened NodeInvariant
  import opened Safety
  import opened Theorems

  type Statuses = map<Key, SyncStatus>

  /** The peer that a task is dealing with. */
  function Dealing(phase: Phase): Option<NodeId> {
    match phase
    case Calling(peer, _) => Some(peer)
    case Serving(peer, _, _) => Some(peer)
    case Answered(peer, _, _) => Some(peer)
    case Storing(peer, _, _) => Some(peer)
    case Completing(peer) => Some(peer)
    case _ => None
  }

  predicate TaskRecorded(status: Statuses, id: Uuid, phase: Phase) {
    && (Dealing(phase).Some? ==> Key(id, Dealing(phase).value) in status)
    && (phase.Finished? && phase.result.Stored? ==>
          Key(id, phase.result.source) in status && status[Key(id, phase.result.source)] == Completed)
  }

  predicate Recorded(node: Node) {
    forall id | id in node.tasks :: TaskRecorded(node.db.status, id, node.tasks[id].phase)
  }

  /** A change of the status table that the task for `id` need not mind. */
  predicate Harmless(status: Statuses, status': Statuses, id: Uuid) {
    forall key | key in status && key.blob == id ::
      key in status' && (status[key] == Completed ==> status'[key] == Completed)
  }

  lemma HarmlessKeeps(status: Statuses, status': Statuses, id: Uuid, phase: Phase)
    requires TaskRecorded(status, id, phase) && Harmless(status, status', id)
    ensures TaskRecorded(status', id, phase)
  {
  }

  /** The statement of a task keeps its own record in order and touches only its own blob's rows. */
  lemma AdvanceRecords(sha: Bytes -> Hash, db: Database, id: Uuid, task: Task)
    requires !Waiting(task.phase) && TaskRecorded(db.status, id, task.phase)
    ensures var (db', task') := Advance(sha, db, id, task);
            && TaskRecorded(db'.status, id, task'.phase)
            && forall other | other != id :: Harmless(db.status, db'.status, other)
  {
  }

  /** One task changes, the others are not harmed. */
  lemma OneTaskRecorded(node: Node, node': Node, id: Uuid)
    requires Recorded(node) && id in node'.tasks && node'.tasks == node.tasks[id := node'.tasks[id]]
    requires TaskRecorded(node'.db.status, id, node'.tasks[id].phase)
    requires forall other | other != id :: Harmless(node.db.status, node'.db.status, other)
    ensures Recorded(node')
  {
    forall other | other in node'.tasks
      ensures TaskRecorded(node'.db.status, other, node'.tasks[other].phase)
    {
      if other != id {
        HarmlessKeeps(node.db.status, node'.db.status, other, node.tasks[other].phase);
      }
    }
  }

  lemma TaskStepRecorded(sha: Bytes -> Hash, node: Node, id: Uuid)
    requires Recorded(node) && id in node.tasks && !Waiting(node.tasks[id].phase)
    ensures Recorded(AdvanceTask(sha, node, id))
  {
    AdvanceRecords(sha, node.db, id, node.tasks[id]);
    OneTaskRecorded(node, AdvanceTask(sha, node, id), id);
  }

  lemma PhaseRecorded(node: Node, id: Uuid, phase: Phase)
    requires Recorded(node) && id in node.tasks && TaskRecorded(node.db.status, id, phase)
    ensures Recorded(SetPhase(node, id, phase))
  {
    OneTaskRecorded(node, SetPhase(node, id, phase), id);
  }

  lemma RunOpRecorded(node: Node, op: Op)
    requires Recorded(node)
    ensures Recorded(RunOp(node, op))
  {
    if op.Requeue? {
      RequeueNeverInserts(node.db, op.id);
    }
  }

  /** Tasks just spawned have nothing to record. */
  lemma PollRecorded(maxSyncs: nat, node: Node)
    requires node.tasks == map[]
    ensures Recorded(PollQueue(node, maxSyncs))
  {
    var tasks := Spawn(Batch(node.queue, maxSyncs));
    assert node.tasks + tasks == tasks;
  }

  lemma LocalRecorded(cfg: Config, maxSyncs: nat, node: Node, step: LocalStep)
    requires Recorded(node) && (!node.pc.Joining? ==> node.tasks == map[])
    requires StepNode(cfg, maxSyncs, node, step).Some?
    ensures Recorded(StepNode(cfg, maxSyncs, node, step).value)
  {
    match step
    case Continue(op) => RunOpRecorded(node.(ops := node.ops - multiset{op}), op);
    case Poll => PollRecorded(maxSyncs, node);
    case SnapshotPeers(id, order) => PhaseRecorded(node, id, Checking(order));
    case TaskStep(id) => TaskStepRecorded(cfg.sha, node, id);
    case CallFails(id) =>
      var Calling(peer, rest) := node.tasks[id].phase;
      PhaseRecorded(node, id, Answered(peer, rest, CallError));
    case _ =>
  }

  predicate AllRecorded(nodes: Nodes) {
    forall n | n in nodes :: Recorded(nodes[n])
  }

  lemma PutRecorded(nodes: Nodes, n: NodeId, node: Node)
    requires AllRecorded(nodes) && Recorded(node)
    ensures AllRecorded(nodes[n := node])
  {
  }

  lemma SelectRecorded(s: Network, n: NodeId, id: Uuid)
    requires AllRecorded(s.nodes) && n in s.nodes && Select(s, n, id).Some?
    ensures AllRecorded(Select(s, n, id).value.nodes)
  {
    var Calling(peer, rest) := s.nodes[n].tasks[id].phase;
    var phase := LookUp(s.nodes[peer].db, id, peer, rest);
    PhaseRecorded(s.nodes[n], id, phase);
    PutRecorded(s.nodes, n, SetPhase(s.nodes[n], id, phase));
  }

  lemma CompleteRecorded(node: Node, id: Uuid, peer: NodeId)
    requires Recorded(node)
    ensures Recorded(Complete(node, id, peer))
  {
    var node' := Complete(node, id, peer);
    forall other | other in node.tasks
      ensures TaskRecorded(node'.db.status, other, node.tasks[other].phase)
    {
      HarmlessKeeps(node.db.status, node'.db.status, other, node.tasks[other].phase);
    }
  }

  lemma MarkRecorded(s: Network, n: NodeId, id: Uuid)
    requires AllRecorded(s.nodes) && n in s.nodes && Mark(s, n, id).Some?
    ensures AllRecorded(Mark(s, n, id).value.nodes)
  {
    var Serving(peer, rest, blob) := s.nodes[n].tasks[id].phase;
    CompleteRecorded(s.nodes[peer], id, n);
    PutRecorded(s.nodes, peer, Complete(s.nodes[peer], id, n));
    var nodes := s.nodes[peer := Complete(s.nodes[peer], id, n)];
    PhaseRecorded(nodes[n], id, Answered(peer, rest, Found(blob)));
    PutRecorded(nodes, n, SetPhase(nodes[n], id, Answered(peer, rest, Found(blob))));
  }

  /** Tasks run only while their round is joined. */
  predicate LoopsBusy(nodes: Nodes) {
    forall n | n in nodes :: !nodes[n].pc.Joining? ==> nodes[n].tasks == map[]
  }

  lemma NextRecorded(cfg: Config, s: Network, e: Event, s': Network)
    requires AllRecorded(s.nodes) && LoopsBusy(s.nodes) && Next(cfg, s, e, s')
    ensures AllRecorded(s'.nodes)
  {
    match e.step
    case Local(step) =>
      LocalRecorded(cfg, cfg.maxSyncs(e.node), s.nodes[e.node], step);
      PutRecorded(s.nodes, e.node, s'.nodes[e.node]);
    case AddBlob(id, input, randoms) =>
      AddUnfolds(cfg, s, e.node, id, input, randoms);
      PutRecorded(s.nodes, e.node, s'.nodes[e.node]);
    case ServeSelect(id) => SelectRecorded(s, e.node, id);
    case ServeMark(id) => MarkRecorded(s, e.node, id);
    case OfferCheck => PutRecorded(s.nodes, e.node, s'.nodes[e.node]);
    case OfferEnqueue => AcceptRecorded(s, e.node);
  }

  lemma AcceptRecorded(s: Network, n: NodeId)
    requires AllRecorded(s.nodes) && n in s.nodes && Accept(s, n).Some?
    ensures AllRecorded(Accept(s, n).value.nodes)
  {
    var Offered(a, to) := s.nodes[n].pc;
    var there := s.nodes[to].(queue := Enqueue(s.nodes[to].queue, a.current));
    PutRecorded(s.nodes, to, there);
    var nodes := s.nodes[to := there];
    PutRecorded(nodes, n, nodes[n].(pc := Acked(a, to)));
  }

  lemma InvLoopsBusy(cfg: Config, s: Network)
    requires NodesOk(cfg, s)
    ensures LoopsBusy(s.nodes)
  {
    forall n | n in s.nodes
      ensures !s.nodes[n].pc.Joining? ==> s.nodes[n].tasks == map[]
    {
      assert NodeInv(cfg.maxSyncs(n), s.minted, s.nodes[n]);
    }
  }

  lemma StepRecorded(cfg: Config, s: Network, e: Event, s': Network)
    requires Inv(cfg, s) && AllRecorded(s.nodes) && Next(cfg, s, e, s')
    ensures Inv(cfg, s') && AllRecorded(s'.nodes)
  {
    InvLoopsBusy(cfg, s);
    NextKeeps(cfg, s, e, s');
    NextRecorded(cfg, s, e, s');
  }

  lemma InitRecorded(cfg: Config, s: Network)
    requires Init(cfg, s)
    ensures AllRecorded(s.nodes)
  {
  }

  lemma RunRecorded(cfg: Config, states: seq<Network>, events: seq<Event>, j: nat)
    requires IsRun(cfg, states, events) && Init(cfg, states[0]) && j <= |events|
    ensures AllRecorded(states[j].nodes)
  {
    InitInv(cfg, states[0]);
    InitRecorded(cfg, states[0]);
    forall k | 0 <= k < j && Inv(cfg, states[k]) && AllRecorded(states[k].nodes)
      ensures Inv(cfg, states[k + 1]) && AllRecorded(states[k + 1].nodes)
    {
      StepRecorded(cfg, states[k], events[k], states[k + 1]);
    }
    RunInduction(states, 0, j, (s: Network) => Inv(cfg, s) && AllRecorded(s.nodes));
  }

  /**
   * A task that has stored the blob of a peer leaves that peer recorded as completed and the
   * row in the table, whatever ran meanwhile: no other activity of its node undoes either
   * while the task is still in progress.
   */
  lemma StoredIsRecorded(cfg: Config, s: Network, n: NodeId, id: Uuid)
    requires Reachable(cfg, s) && n in s.nodes && id in s.nodes[n].tasks
    requires s.nodes[n].tasks[id].phase.Finished? && s.nodes[n].tasks[id].phase.result.Stored?
    ensures id in s.nodes[n].db.blobs
    ensures IsCompleted(s.nodes[n], id, s.nodes[n].tasks[id].phase.result.source)
  {
    var states: seq<Network>, events: seq<Event> :|
      IsRun(cfg, states, events) && Init(cfg, states[0]) && states[|events|] == s;
    RunRecorded(cfg, states, events, |events|);
    assert Recorded(s.nodes[n]);
    ReachableTables(cfg, s, n);
    assert TaskOk(s.minted, s.nodes[n].db.blobs, id, s.nodes[n].tasks[id]);
  }
}

// When a peer is recorded as having a blob: which steps make an entry `completed`, which
// undo it, and that no other step touches it.
module Statuses {
  import opened Wrappers
  import opened LittleEndian
  import opened Store
  import opened FetchTask
  import opened Network
  import opened NodeInvariant
  import opened Safety

  /** The next statement of the task for the blob sets the peer back to pending or failed. */
  predicate TaskUndoes(sha: Bytes -> Hash, task: Task, peer: NodeId) {
    match task.phase
    case Marking(rest) => rest != [] && rest[0] == peer
    case Trying(rest) => rest != [] && rest[0] == peer
    case Answered(called, _, answer) =>
      called == peer &&
      (!answer.Found? || (answer.blob.metadata.Some? && !Verified(sha, answer.blob, task.expected)))
    case _ => false
  }

  /** The step of the node undoes `key`: one of its task, or the end of an announcement to the peer. */
  predicate Undoes(sha: Bytes -> Hash, node: Node, step: LocalStep, key: Key) {
    match step
    case TaskStep(id) => id == key.blob && id in node.tasks && TaskUndoes(sha, node.tasks[id], key.peer)
    case AnnounceNext => node.pc.Acked? && key == Key(node.pc.a.current.id, node.pc.to)
    case _ => false
  }

  predicate IsUndone(cfg: Config, s: Network, e: Event, n: NodeId, key: Key) {
    e.node == n && n in s.nodes && e.step.Local? && Undoes(cfg.sha, s.nodes[n], e.step.step, key)
  }

  /** The task of the node has stored the peer's blob, and records it next. */
  predicate TaskRecords(node: Node, step: LocalStep, key: Key) {
    && step == TaskStep(key.blob) && key.blob in node.tasks
    && node.tasks[key.blob].phase == Completing(key.peer) && key in node.db.status
  }

  /** `p` sends its row to the task of `n`. */
  predicate Serves(s: Network, e: Event, n: NodeId, id: Uuid, p: NodeId) {
    && e == Event(n, ServeMark(id)) && n in s.nodes && p in s.nodes && id in s.nodes[n].tasks
    && s.nodes[n].tasks[id].phase.Serving? && s.nodes[n].tasks[id].phase.peer == p
  }

  predicate IsRecorded(s: Network, e: Event, n: NodeId, key: Key) {
    n in s.nodes &&
    ((e.node == n && e.step.Local? && TaskRecords(s.nodes[n], e.step.step, key)) ||
     (Serves(s, e, key.peer, key.blob, n) && key in s.nodes[n].db.status))
  }

  lemma AdvanceExact(sha: Bytes -> Hash, db: Database, id: Uuid, task: Task, key: Key)
    requires !Waiting(task.phase)
    ensures Completes(Advance(sha, db, id, task).0, key) <==>
            || (key.blob == id && task.phase == Completing(key.peer) && key in db.status)
            || (Completes(db, key) && !(key.blob == id && TaskUndoes(sha, task, key.peer)))
  {
  }

  lemma TaskExact(cfg: Config, node: Node, id: Uuid, key: Key)
    requires id in node.tasks && !Waiting(node.tasks[id].phase)
    ensures Completes(AdvanceTask(cfg.sha, node, id).db, key) <==>
            || TaskRecords(node, TaskStep(id), key)
            || (Completes(node.db, key) && !Undoes(cfg.sha, node, TaskStep(id), key))
  {
    AdvanceExact(cfg.sha, node.db, id, node.tasks[id], key);
  }

  lemma AnnounceExact(node: Node, key: Key)
    requires AdvanceAnnouncer(node).Some?
    ensures Completes(AdvanceAnnouncer(node).value.db, key) <==>
            Completes(node.db, key) && !(node.pc.Acked? && key == Key(node.pc.a.current.id, node.pc.to))
  {
  }

  /** Requests leave the statuses alone: requeueing never changes the table. */
  lemma RequestExact(node: Node, op: Op)
    ensures RunOp(node, op).db.status == node.db.status
  {
    if op.Requeue? {
      RequeueNeverInserts(node.db, op.id);
    }
  }

  lemma OthersExact(cfg: Config, maxSyncs: nat, node: Node, step: LocalStep)
    requires StepNode(cfg, maxSyncs, node, step).Some?
    requires !step.TaskStep? && !step.AnnounceNext? && !step.Continue?
    ensures StepNode(cfg, maxSyncs, node, step).value.db.status == node.db.status
  {
  }

  lemma LocalExact(cfg: Config, maxSyncs: nat, node: Node, step: LocalStep, key: Key)
    requires StepNode(cfg, maxSyncs, node, step).Some?
    ensures Completes(StepNode(cfg, maxSyncs, node, step).value.db, key) <==>
            TaskRecords(node, step, key) || (Completes(node.db, key) && !Undoes(cfg.sha, node, step, key))
  {
    match step
    case TaskStep(id) => TaskExact(cfg, node, id, key);
    case AnnounceNext => AnnounceExact(node, key);
    case Continue(op) => RequestExact(node.(ops := node.ops - multiset{op}), op);
    case _ => OthersExact(cfg, maxSyncs, node, step);
  }

  lemma ServeExact(s: Network, n: NodeId, id: Uuid, p: NodeId, key: Key)
    requires n in s.nodes && p in s.nodes && Mark(s, n, id).Some?
    ensures p in Mark(s, n, id).value.nodes
    ensures Completes(Mark(s, n, id).value.nodes[p].db, key) <==>
            IsRecorded(s, Event(n, ServeMark(id)), p, key) || Completes(s.nodes[p].db, key)
  {
  }

  /**
   * After any step of the network an entry is completed if and only if that step recorded it,
   * or it was completed and the step is none of those that undo it.
   */
  lemma CompletedExactly(cfg: Config, s: Network, e: Event, s': Network, n: NodeId, key: Key)
    requires Next(cfg, s, e, s') && n in s.nodes
    ensures n in s'.nodes
    ensures Completes(s'.nodes[n].db, key) <==>
            IsRecorded(s, e, n, key) || (Completes(s.nodes[n].db, key) && !IsUndone(cfg, s, e, n, key))
  {
    match e.step
    case Local(step) =>
      if e.node == n {
        LocalExact(cfg, cfg.maxSyncs(n), s.nodes[n], step, key);
      }
    case AddBlob(id, input, randoms) => AddUnfolds(cfg, s, e.node, id, input, randoms);
    case ServeMark(id) => ServeExact(s, e.node, id, n, key);
    case _ =>
  }

  lemma NotBoth(cfg: Config, s: Network, e: Event, n: NodeId, key: Key)
    ensures !(IsRecorded(s, e, n, key) && IsUndone(cfg, s, e, n, key))
  {
  }

  // ---- Whole runs -----------------------------------------------------------------------

  predicate CompletedAt(s: Network, n: NodeId, key: Key) {
    n in s.nodes && Completes(s.nodes[n].db, key)
  }

  predicate CompletedThroughout(states: seq<Network>, i: nat, j: nat, n: NodeId, key: Key) {
    forall k | i <= k <= j && k < |states| :: CompletedAt(states[k], n, key)
  }

  predicate NeverUndone(cfg: Config, states: seq<Network>, events: seq<Event>, i: nat, j: nat, n: NodeId, key: Key)
    requires |states| == |events| + 1
  {
    forall k | i <= k < j && k < |events| :: !IsUndone(cfg, states[k], events[k], n, key)
  }

  /** For an entry that is completed, a step keeps it or is one of those that undo it. */
  predicate KeptUnlessUndone(cfg: Config, s: Network, e: Event, s': Network, n: NodeId, key: Key) {
    CompletedAt(s, n, key) ==> (CompletedAt(s', n, key) <==> !IsUndone(cfg, s, e, n, key))
  }

  lemma StepUnlessUndone(cfg: Config, s: Network, e: Event, s': Network, n: NodeId, key: Key)
    requires Next(cfg, s, e, s')
    ensures KeptUnlessUndone(cfg, s, e, s', n, key)
  {
    if CompletedAt(s, n, key) {
      CompletedExactly(cfg, s, e, s', n, key);
      NotBoth(cfg, s, e, n, key);
    }
  }

  lemma {:induction false} ThroughoutUnlessUndone(cfg: Config, states: seq<Network>, events: seq<Event>, i: nat, j: nat,
                                                  n: NodeId, key: Key)
    requires |states| == |events| + 1 && i <= j <= |events| && CompletedAt(states[i], n, key)
    requires forall k | 0 <= k < |events| :: KeptUnlessUndone(cfg, states[k], events[k], states[k + 1], n, key)
    ensures CompletedThroughout(states, i, j, n, key) <==> NeverUndone(cfg, states, events, i, j, n, key)
    decreases j
  {
    if i < j {
      ThroughoutUnlessUndone(cfg, states, events, i, j - 1, n, key);
      assert KeptUnlessUndone(cfg, states[j - 1], events[j - 1], states[j], n, key);
      assert NeverUndone(cfg, states, events, i, j, n, key) <==>
             NeverUndone(cfg, states, events, i, j - 1, n, key) && !IsUndone(cfg, states[j - 1], events[j - 1], n, key);
      assert CompletedThroughout(states, i, j, n, key) <==>
             CompletedThroughout(states, i, j - 1, n, key) && CompletedAt(states[j], n, key);
    }
  }

  /** An entry stays completed as long as, and only as long as, no step undoes it. */
  lemma CompletedUntilUndone(cfg: Config, states: seq<Network>, events: seq<Event>, i: nat, j: nat, n: NodeId, key: Key)
    requires IsRun(cfg, states, events) && i <= j <= |events| && CompletedAt(states[i], n, key)
    ensures CompletedThroughout(states, i, j, n, key) <==> NeverUndone(cfg, states, events, i, j, n, key)
  {
    forall k | 0 <= k < |events|
      ensures KeptUnlessUndone(cfg, states[k], events[k], states[k + 1], n, key)
    {
      StepUnlessUndone(cfg, states[k], events[k], states[k + 1], n, key);
    }
    ThroughoutUnlessUndone(cfg, states, events, i, j, n, key);
  }

  // ---- What a task that has been given a blob means for the peer's record ------------------

  lemma AdvanceReceives(sha: Bytes -> Hash, db: Database, id: Uuid, task: Task, peer: NodeId)
    requires !Waiting(task.phase)
    requires Source(Advance(sha, db, id, task).1.phase) == Some(peer)
    ensures Source(task.phase) == Some(peer) && !task.phase.Serving?
  {
  }

  lemma LocalReceives(cfg: Config, maxSyncs: nat, node: Node, step: LocalStep, id: Uuid, peer: NodeId)
    requires StepNode(cfg, maxSyncs, node, step).Some?
    requires Received(StepNode(cfg, maxSyncs, node, step).value, id, peer)
    ensures Received(node, id, peer)
  {
    match step
    case TaskStep(other) =>
      if other == id {
        AdvanceReceives(cfg.sha, node.db, id, node.tasks[id], peer);
      }
    case _ =>
  }

  predicate ReceivedAt(s: Network, n: NodeId, id: Uuid, p: NodeId) {
    n in s.nodes && Received(s.nodes[n], id, p)
  }

  lemma AddReceivesNothing(cfg: Config, s: Network, e: Event, s': Network, n: NodeId, id: Uuid, p: NodeId)
    requires Next(cfg, s, e, s') && e.step.AddBlob? && ReceivedAt(s', n, id, p)
    ensures ReceivedAt(s, n, id, p)
  {
    AddUnfolds(cfg, s, e.node, e.step.id, e.step.input, e.step.randoms);
  }

  lemma ServeReceives(s: Network, m: NodeId, served: Uuid, n: NodeId, id: Uuid, p: NodeId)
    requires m in s.nodes && Mark(s, m, served).Some? && ReceivedAt(Mark(s, m, served).value, n, id, p)
    ensures ReceivedAt(s, n, id, p) || Serves(s, Event(m, ServeMark(served)), n, id, p)
  {
  }

  lemma OfferReceives(cfg: Config, s: Network, e: Event, s': Network, n: NodeId, id: Uuid, p: NodeId)
    requires Next(cfg, s, e, s') && (e.step.ServeSelect? || e.step.OfferCheck? || e.step.OfferEnqueue?)
    requires ReceivedAt(s', n, id, p)
    ensures ReceivedAt(s, n, id, p)
  {
  }

  /** A blob is in the hands of a task only after its peer has served it. */
  lemma ReceivesStep(cfg: Config, s: Network, e: Event, s': Network, n: NodeId, id: Uuid, p: NodeId)
    requires Next(cfg, s, e, s') && ReceivedAt(s', n, id, p)
    ensures ReceivedAt(s, n, id, p) || Serves(s, e, n, id, p)
  {
    if e.step.AddBlob? {
      AddReceivesNothing(cfg, s, e, s', n, id, p);
    } else if e.step.ServeMark? {
      ServeReceives(s, e.node, e.step.id, n, id, p);
    } else if !e.step.Local? {
      OfferReceives(cfg, s, e, s', n, id, p);
    } else if e.node == n {
      LocalReceives(cfg, cfg.maxSyncs(n), s.nodes[n], e.step.step, id, p);
    }
  }

  /** The blob in the hands of the task at `j` is the one that `p` served at `i`. */
  ghost predicate HeldSince(states: seq<Network>, events: seq<Event>, i: nat, j: nat, n: NodeId, id: Uuid, p: NodeId)
    requires |states| == |events| + 1 && j <= |events|
  {
    && i < j && Serves(states[i], events[i], n, id, p)
    && forall k | i < k <= j :: ReceivedAt(states[k], n, id, p)
  }

  lemma {:induction false} ReceivedWasServed(cfg: Config, states: seq<Network>, events: seq<Event>, j: nat,
                                             n: NodeId, id: Uuid, p: NodeId)
    returns (i: nat)
    requires IsRun(cfg, states, events) && Init(cfg, states[0]) && j <= |events| && ReceivedAt(states[j], n, id, p)
    ensures HeldSince(states, events, i, j, n, id, p)
    decreases j
  {
    assert j > 0;
    ReceivesStep(cfg, states[j - 1], events[j - 1], states[j], n, id, p);
    if Serves(states[j - 1], events[j - 1], n, id, p) {
      i := j - 1;
    } else {
      i := ReceivedWasServed(cfg, states, events, j - 1, n, id, p);
    }
  }

  /**
   * Whenever a task holds the blob of a peer, the peer has served that blob, and the task has
   * held it from then on; and if the peer then had an entry for the caller, that entry has been
   * completed ever since if and only if no step of the peer has undone it.
   */
  lemma ServedIsRecorded(cfg: Config, states: seq<Network>, events: seq<Event>, j: nat, n: NodeId, id: Uuid, p: NodeId)
    returns (i: nat)
    requires IsRun(cfg, states, events) && Init(cfg, states[0]) && j <= |events| && ReceivedAt(states[j], n, id, p)
    ensures HeldSince(states, events, i, j, n, id, p)
    ensures Key(id, n) in states[i].nodes[p].db.status ==>
              (CompletedThroughout(states, i + 1, j, p, Key(id, n)) <==>
               NeverUndone(cfg, states, events, i + 1, j, p, Key(id, n)))
  {
    i := ReceivedWasServed(cfg, states, events, j, n, id, p);
    if Key(id, n) in states[i].nodes[p].db.status {
      CompletedExactly(cfg, states[i], events[i], states[i + 1], p, Key(id, n));
      CompletedUntilUndone(cfg, states, events, i + 1, j, p, Key(id, n));
    }
  }
}
